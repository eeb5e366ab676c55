/** Subscribers and update requesters of a server connector's events (server_connector_impl.cpp). Each operation
    changes the table under the lock and calls back after it has released the lock. */
module ServerEvents {
  import opened Prelude

  type Connection = nat

  type EventId = nat

  type Tid = nat

  /** Per event: the connection stored as subscriber and as update requester, and whether the initial value was
      ever asked for. */
  datatype Table = Table(subscriber: seq<Option<Connection>>, requester: seq<Option<Connection>>, initial: seq<bool>)

  datatype Op =
    | Subscribe(client: Connection, id: EventId, initial: bool)
    | Unsubscribe(id: EventId)
    | RequestUpdate(client: Connection, id: EventId)
    | UpdateRequested(id: EventId)
    | Update(id: EventId)
    | ClearAll

  datatype Callback = Changed(id: EventId, subscribed: bool) | UpdateWanted(id: EventId)

  predicate Sized(tab: Table, n: nat) {
    |tab.subscriber| == |tab.requester| == |tab.initial| == n
  }

  function Empty(n: nat): Table {
    Table(seq(n, _ => None), seq(n, _ => None), seq(n, _ => false))
  }

  /** The event is one of the configured ones; otherwise the operation returns an error. */
  predicate InRange(op: Op, n: nat) {
    op.ClearAll? || op.id < n
  }

  function After(tab: Table, op: Op): (r: Table)
    requires Sized(tab, |tab.subscriber|)
    ensures Sized(r, |tab.subscriber|)
  {
    if !InRange(op, |tab.subscriber|) then tab else
    match op
    case Subscribe(client, id, initial) =>
      tab.(subscriber := tab.subscriber[id := Some(client)],
           requester := if initial then tab.requester[id := Some(client)] else tab.requester,
           initial := if initial then tab.initial[id := true] else tab.initial)
    case Unsubscribe(id) => tab.(subscriber := tab.subscriber[id := None], requester := tab.requester[id := None])
    case RequestUpdate(client, id) =>
      if tab.requester[id].Some? then tab else tab.(requester := tab.requester[id := Some(client)])
    case UpdateRequested(id) => tab.(requester := tab.requester[id := None])
    case Update(_) => tab
    case ClearAll => tab.(subscriber := seq(|tab.subscriber|, _ => None), requester := seq(|tab.requester|, _ => None))
  }

  /** The callbacks the operation makes after releasing the lock. */
  function Calls(tab: Table, op: Op): seq<Callback>
    requires Sized(tab, |tab.subscriber|)
  {
    if !InRange(op, |tab.subscriber|) then [] else
    match op
    case Subscribe(_, id, initial) =>
      (if tab.subscriber[id].None? then [Changed(id, true)] else []) +
      (if initial && tab.requester[id].None? then [UpdateWanted(id)] else [])
    case Unsubscribe(id) => if tab.subscriber[id].Some? then [Changed(id, false)] else []
    case RequestUpdate(_, id) => if tab.requester[id].None? then [UpdateWanted(id)] else []
    case UpdateRequested(_) => []
    case Update(_) => []
    case ClearAll => []
  }

  // Runs: the table after the first `t` operations, and the subscription changes they decide.

  function TableAt(n: nat, ops: seq<Op>, t: nat): (r: Table)
    requires t <= |ops|
    ensures Sized(r, n)
  {
    if t == 0 then Empty(n) else After(TableAt(n, ops, t - 1), ops[t - 1])
  }

  function Changes(log: seq<Callback>, id: EventId): seq<bool> {
    if log == [] then [] else
      Changes(log[..|log| - 1], id) +
      (if log[|log| - 1].Changed? && log[|log| - 1].id == id then [log[|log| - 1].subscribed] else [])
  }

  function Decided(n: nat, ops: seq<Op>, t: nat): seq<Callback>
    requires t <= |ops|
  {
    if t == 0 then [] else Decided(n, ops, t - 1) + Calls(TableAt(n, ops, t - 1), ops[t - 1])
  }

  lemma {:induction false} ChangesOfSum(a: seq<Callback>, b: seq<Callback>, id: EventId)
    ensures Changes(a + b, id) == Changes(a, id) + Changes(b, id)
  {
    if b == [] {
      assert a + b == a;
    } else {
      var whole := a + b;
      assert whole[..|whole| - 1] == a + b[..|b| - 1];
      ChangesOfSum(a, b[..|b| - 1], id);
    }
  }

  /** What one operation adds to the changes of an event. */
  function NewChange(tab: Table, op: Op, id: EventId): seq<bool>
    requires Sized(tab, |tab.subscriber|)
  {
    if id < |tab.subscriber| && op.Subscribe? && op.id == id && tab.subscriber[id].None? then [true]
    else if id < |tab.subscriber| && op.Unsubscribe? && op.id == id && tab.subscriber[id].Some? then [false]
    else []
  }

  lemma ChangesOfOne(c: Callback, id: EventId)
    ensures Changes([c], id) == if c.Changed? && c.id == id then [c.subscribed] else []
  {
    assert [c][..0] == [];
  }

  lemma ChangesOfCalls(tab: Table, op: Op, id: EventId)
    requires Sized(tab, |tab.subscriber|)
    ensures Changes(Calls(tab, op), id) == NewChange(tab, op, id)
  {
    var calls := Calls(tab, op);
    if |calls| == 2 {
      assert calls == [calls[0]] + [calls[1]];
      ChangesOfSum([calls[0]], [calls[1]], id);
      ChangesOfOne(calls[0], id);
      ChangesOfOne(calls[1], id);
    } else if |calls| == 1 {
      assert calls == [calls[0]];
      ChangesOfOne(calls[0], id);
    }
  }

  /** disable() forgets a subscriber of the event without a callback. */
  ghost predicate Silent(n: nat, ops: seq<Op>, t: nat, id: EventId) {
    t < |ops| && id < n && ops[t].ClearAll? && TableAt(n, ops, t).subscriber[id].Some?
  }

  /** One of the first `t` operations was silent. */
  ghost predicate SilencedBefore(n: nat, ops: seq<Op>, t: nat, id: EventId)
    requires t <= |ops|
  {
    t > 0 && (SilencedBefore(n, ops, t - 1, id) || Silent(n, ops, t - 1, id))
  }

  /** One of the first `t` operations subscribes the event after it was forgotten silently. */
  ghost predicate Resubscribed(n: nat, ops: seq<Op>, t: nat, id: EventId)
    requires t <= |ops|
  {
    t > 0 &&
    (Resubscribed(n, ops, t - 1, id) ||
     (ops[t - 1].Subscribe? && ops[t - 1].id == id && SilencedBefore(n, ops, t - 1, id)))
  }

  lemma OneMore(n: nat, ops: seq<Op>, t: nat, id: EventId)
    requires t < |ops|
    ensures Changes(Decided(n, ops, t + 1), id) ==
            Changes(Decided(n, ops, t), id) + NewChange(TableAt(n, ops, t), ops[t], id)
    ensures TableAt(n, ops, t + 1) == After(TableAt(n, ops, t), ops[t])
  {
    ChangesOfSum(Decided(n, ops, t), Calls(TableAt(n, ops, t), ops[t]), id);
    ChangesOfCalls(TableAt(n, ops, t), ops[t], id);
  }

  lemma AlternatesMore(changes: seq<bool>, more: seq<bool>)
    requires |more| <= 1
    ensures Alternates(changes + more, true) <==>
            Alternates(changes, true) && (more == [] || more[0] == (|changes| % 2 == 0))
  {
    var all := changes + more;
    if Alternates(all, true) {
      forall i | 0 <= i < |changes| ensures changes[i] <==> i % 2 == 0 { assert all[i] == changes[i]; }
      if more != [] { assert all[|changes|] == more[0]; }
    }
  }

  /** The changes so far, against whether a subscriber is stored, was forgotten silently, and was so before a
      subscription. */
  ghost predicate Agree(changes: seq<bool>, stored: bool, silenced: bool, resubscribed: bool) {
    && (Alternates(changes, true) <==> !resubscribed)
    && (!resubscribed ==> (|changes| % 2 == 1 <==> stored || silenced))
    && (!resubscribed && silenced ==> !stored)
  }

  lemma StepAgrees(tab: Table, op: Op, id: EventId, changes: seq<bool>, silenced: bool, resubscribed: bool)
    requires Sized(tab, |tab.subscriber|) && id < |tab.subscriber|
    requires Agree(changes, tab.subscriber[id].Some?, silenced, resubscribed)
    ensures Agree(changes + NewChange(tab, op, id), After(tab, op).subscriber[id].Some?,
                  silenced || (op.ClearAll? && tab.subscriber[id].Some?),
                  resubscribed || (op.Subscribe? && op.id == id && silenced))
  {
    AlternatesMore(changes, NewChange(tab, op, id));
  }

  ghost predicate AgreeAt(n: nat, ops: seq<Op>, t: nat, id: EventId)
    requires t <= |ops| && id < n
  {
    Agree(Changes(Decided(n, ops, t), id), TableAt(n, ops, t).subscriber[id].Some?,
          SilencedBefore(n, ops, t, id), Resubscribed(n, ops, t, id))
  }

  lemma OneMoreAgrees(n: nat, ops: seq<Op>, t: nat, id: EventId)
    requires t < |ops| && id < n && AgreeAt(n, ops, t, id)
    ensures AgreeAt(n, ops, t + 1, id)
  {
    var tab, op := TableAt(n, ops, t), ops[t];
    var silenced, resubscribed := SilencedBefore(n, ops, t, id), Resubscribed(n, ops, t, id);
    OneMore(n, ops, t, id);
    StepAgrees(tab, op, id, Changes(Decided(n, ops, t), id), silenced, resubscribed);
    assert SilencedBefore(n, ops, t + 1, id) == (silenced || (op.ClearAll? && tab.subscriber[id].Some?));
    assert Resubscribed(n, ops, t + 1, id) == (resubscribed || (op.Subscribe? && op.id == id && silenced));
  }

  lemma {:induction false} Alternation(n: nat, ops: seq<Op>, t: nat, id: EventId)
    requires t <= |ops| && id < n
    ensures AgreeAt(n, ops, t, id)
  {
    if t > 0 {
      Alternation(n, ops, t - 1, id);
      OneMoreAgrees(n, ops, t - 1, id);
    }
  }

  /** The subscription changes decided for an event alternate, starting with subscribed, exactly when the event is
      not subscribed again after disable() has forgotten its subscriber. */
  lemma ChangesAlternateIff(n: nat, ops: seq<Op>, id: EventId)
    requires id < n
    ensures Alternates(Changes(Decided(n, ops, |ops|), id), true) <==> !Resubscribed(n, ops, |ops|, id)
  {
    Alternation(n, ops, |ops|, id);
  }

  predicate NeverCleared(ops: seq<Op>, t: nat)
    requires t <= |ops|
  {
    forall s :: 0 <= s < t ==> !ops[s].ClearAll?
  }

  lemma {:induction false} NeverSilenced(n: nat, ops: seq<Op>, t: nat, id: EventId)
    requires t <= |ops| && NeverCleared(ops, t)
    ensures !SilencedBefore(n, ops, t, id) && !Resubscribed(n, ops, t, id)
  {
    if t > 0 { NeverSilenced(n, ops, t - 1, id); }
  }

  /** Within one enabled period, up to the clearing in disable(), they always do, and the last one says whether a
      subscriber is stored. */
  lemma EnabledPeriodAlternates(n: nat, ops: seq<Op>, id: EventId)
    requires id < n && NeverCleared(ops, |ops|)
    ensures Alternates(Changes(Decided(n, ops, |ops|), id), true)
    ensures |Changes(Decided(n, ops, |ops|), id)| % 2 == 1 <==> TableAt(n, ops, |ops|).subscriber[id].Some?
  {
    Alternation(n, ops, |ops|, id);
    NeverSilenced(n, ops, |ops|, id);
  }

  // Update requests.

  /** Operation `t` decides to ask the server for an update of the event. */
  ghost predicate Wants(n: nat, ops: seq<Op>, t: nat, id: EventId)
    requires t < |ops|
  {
    UpdateWanted(id) in Calls(TableAt(n, ops, t), ops[t])
  }

  predicate Clears(op: Op, id: EventId) {
    op.ClearAll? || ((op.Unsubscribe? || op.UpdateRequested?) && op.id == id)
  }

  lemma {:induction false} RequesterStays(n: nat, ops: seq<Op>, t: nat, u: nat, id: EventId)
    requires t < u <= |ops| && id < n && Wants(n, ops, t, id)
    requires forall v :: t < v < u ==> !Clears(ops[v], id)
    ensures TableAt(n, ops, u).requester[id].Some?
    decreases u
  {
    if u > t + 1 { RequesterStays(n, ops, t, u - 1, id); }
  }

  /** Two update-request callbacks for an event are separated by a clearing of its requester. */
  lemma UpdateRequestsAreSeparated(n: nat, ops: seq<Op>, t: nat, u: nat, id: EventId)
    requires t < u < |ops| && Wants(n, ops, t, id) && Wants(n, ops, u, id)
    ensures exists v :: t < v < u && Clears(ops[v], id)
  {
    if forall v :: t < v < u ==> !Clears(ops[v], id) {
      RequesterStays(n, ops, t, u, id);
    }
  }

  /** The operation stores an update requester of the event. */
  predicate Asks(op: Op, id: EventId) {
    (op.RequestUpdate? || (op.Subscribe? && op.initial)) && op.id == id
  }

  predicate Waits(ops: seq<Op>, i: nat, t: nat, id: EventId)
    requires i < t <= |ops|
  {
    Asks(ops[i], id) && forall j :: i < j < t ==> !Clears(ops[j], id)
  }

  /** In every run a requester is stored exactly when one was stored and not unsubscribed, answered on request or
      cleared since: a plain update forgets nobody. */
  lemma {:induction false} RequesterIsStoredIff(n: nat, ops: seq<Op>, t: nat, id: EventId)
    requires t <= |ops| && id < n
    ensures TableAt(n, ops, t).requester[id].Some? <==> exists i :: 0 <= i < t && Waits(ops, i, t, id)
  {
    if t > 0 {
      RequesterIsStoredIff(n, ops, t - 1, id);
      if Asks(ops[t - 1], id) {
        assert Waits(ops, t - 1, t, id);
      } else if !Clears(ops[t - 1], id) {
        if TableAt(n, ops, t - 1).requester[id].Some? {
          var i :| 0 <= i < t - 1 && Waits(ops, i, t - 1, id);
          assert Waits(ops, i, t, id);
        }
        forall i | 0 <= i < t && Waits(ops, i, t, id) ensures Waits(ops, i, t - 1, id) {
        }
      }
    }
  }

  // Who is stored.

  /** Operation `i` subscribes the connection, and nobody subscribes or unsubscribes the event from then to `t`. */
  predicate SubscribedBy(ops: seq<Op>, i: nat, t: nat, id: EventId, client: Connection)
    requires i < t <= |ops|
  {
    && ops[i].Subscribe? && ops[i].id == id && ops[i].client == client
    && forall j :: i < j < t ==> !ops[j].ClearAll? && !((ops[j].Subscribe? || ops[j].Unsubscribe?) && ops[j].id == id)
  }

  /** In every run the subscriber stored for an event is the connection that subscribed last, unless it was
      unsubscribed or cleared since. */
  lemma {:induction false} SubscriberIsTheLast(n: nat, ops: seq<Op>, t: nat, id: EventId, client: Connection)
    requires t <= |ops| && id < n
    ensures TableAt(n, ops, t).subscriber[id] == Some(client) <==>
            exists i :: 0 <= i < t && SubscribedBy(ops, i, t, id, client)
  {
    if t > 0 {
      SubscriberIsTheLast(n, ops, t - 1, id, client);
      var op := ops[t - 1];
      if op.Subscribe? && op.id == id {
        assert op.client == client ==> SubscribedBy(ops, t - 1, t, id, client);
      } else if !op.ClearAll? && !(op.Unsubscribe? && op.id == id) {
        if TableAt(n, ops, t - 1).subscriber[id] == Some(client) {
          var i :| 0 <= i < t - 1 && SubscribedBy(ops, i, t - 1, id, client);
          assert SubscribedBy(ops, i, t, id, client);
        }
        if i :| 0 <= i < t && SubscribedBy(ops, i, t, id, client) {
          assert SubscribedBy(ops, i, t - 1, id, client);
        }
      }
    }
  }

  /** Operation `i` makes the connection the update requester: a subscription with initial value always does, a request
      only if nobody waits. */
  ghost predicate Enters(ops: seq<Op>, i: nat, id: EventId, client: Connection)
    requires i < |ops|
  {
    Asks(ops[i], id) && ops[i].client == client &&
    (ops[i].RequestUpdate? ==> !exists k :: 0 <= k < i && Waits(ops, k, i, id))
  }

  ghost predicate RequestedBy(ops: seq<Op>, i: nat, t: nat, id: EventId, client: Connection)
    requires i < t <= |ops|
  {
    && Enters(ops, i, id, client)
    && forall j :: i < j < t ==> !Clears(ops[j], id) && !(ops[j].Subscribe? && Asks(ops[j], id))
  }

  /** In every run the update requester stored for an event is the first that asked, unless one subscribed with initial
      value after it, and nobody once it was answered, unsubscribed or cleared. */
  lemma {:induction false} RequesterIsTheFirst(n: nat, ops: seq<Op>, t: nat, id: EventId, client: Connection)
    requires t <= |ops| && id < n
    ensures TableAt(n, ops, t).requester[id] == Some(client) <==>
            exists i :: 0 <= i < t && RequestedBy(ops, i, t, id, client)
  {
    if t > 0 {
      RequesterIsTheFirst(n, ops, t - 1, id, client);
      RequesterIsStoredIff(n, ops, t - 1, id);
      if Enters(ops, t - 1, id, client) {
        assert RequestedBy(ops, t - 1, t, id, client);
      }
      if !Clears(ops[t - 1], id) && !(ops[t - 1].Subscribe? && Asks(ops[t - 1], id)) {
        if TableAt(n, ops, t - 1).requester[id] == Some(client) {
          var i :| 0 <= i < t - 1 && RequestedBy(ops, i, t - 1, id, client);
          assert RequestedBy(ops, i, t, id, client);
        }
        if i :| 0 <= i < t - 1 && RequestedBy(ops, i, t, id, client) {
          assert RequestedBy(ops, i, t - 1, id, client);
        }
      }
    }
  }

  /** In every run an event is in the mode with initial value exactly when some subscription of it asked for it. */
  lemma {:induction false} InitialStays(n: nat, ops: seq<Op>, t: nat, id: EventId)
    requires t <= |ops| && id < n
    ensures TableAt(n, ops, t).initial[id] <==>
            exists i :: 0 <= i < t && ops[i].Subscribe? && ops[i].id == id && ops[i].initial
  {
    if t > 0 {
      InitialStays(n, ops, t - 1, id);
    }
  }

  /** What the next operation calls back, in terms of the operations before it: a subscription is reported if nobody
      was subscribed, then an update request if nobody was waiting; an unsubscription if somebody was subscribed. */
  lemma CallbacksByHistory(n: nat, ops: seq<Op>, t: nat)
    requires t < |ops| && InRange(ops[t], n) && !ops[t].ClearAll?
    ensures var op := ops[t];
            var subscribed := exists c, i :: 0 <= i < t && SubscribedBy(ops, i, t, op.id, c);
            var waiting := exists i :: 0 <= i < t && Waits(ops, i, t, op.id);
            Calls(TableAt(n, ops, t), op) ==
              (if op.Subscribe? && !subscribed then [Changed(op.id, true)] else []) +
              (if op.Unsubscribe? && subscribed then [Changed(op.id, false)] else []) +
              (if Asks(op, op.id) && !waiting then [UpdateWanted(op.id)] else [])
  {
    var tab, op := TableAt(n, ops, t), ops[t];
    RequesterIsStoredIff(n, ops, t, op.id);
    if tab.subscriber[op.id].Some? {
      SubscriberIsTheLast(n, ops, t, op.id, tab.subscriber[op.id].value);
    }
    forall c, i | 0 <= i < t && SubscribedBy(ops, i, t, op.id, c) ensures tab.subscriber[op.id].Some? {
      SubscriberIsTheLast(n, ops, t, op.id, c);
    }
  }

  /** In every run a request that follows an update makes its callback exactly when nobody was waiting before the
      update. */
  lemma UpdateAnswersNobody(n: nat, ops: seq<Op>, t: nat, id: EventId, client: Connection)
    requires t < |ops| && ops[t] == Update(id) && id < n
    ensures Calls(TableAt(n, ops, t + 1), RequestUpdate(client, id)) == [] <==>
            exists i :: 0 <= i < t && Waits(ops, i, t, id)
  {
    RequesterIsStoredIff(n, ops, t, id);
  }

  /** Request, update, request: the second request makes no callback. */
  lemma SecondRequestIsSilent()
    ensures var ops := [RequestUpdate(1, 0), Update(0), RequestUpdate(1, 0)];
            Calls(TableAt(1, ops, 0), ops[0]) == [UpdateWanted(0)] && Calls(TableAt(1, ops, 2), ops[2]) == []
  {
    var ops := [RequestUpdate(1, 0), Update(0), RequestUpdate(1, 0)];
    assert TableAt(1, ops, 1) == After(Empty(1), ops[0]);
    UpdateAnswersNobody(1, ops, 1, 0, 1);
    assert Waits(ops, 0, 1, 0);
  }

  // Delivery: callbacks are made after the lock is released, so calls that overlap can make them in another order.

  datatype Move = Begin(t: Tid, op: Op) | Issue(t: Tid)

  /** `pending` are the callbacks that threads have decided and not made yet. */
  datatype Flight = Flight(tab: Table, pending: map<Tid, seq<Callback>>, decided: seq<Callback>, issued: seq<Callback>)

  predicate Ready(f: Flight, m: Move) {
    Sized(f.tab, |f.tab.subscriber|) &&
    if m.Begin? then m.t !in f.pending else m.t in f.pending && f.pending[m.t] != []
  }

  function Moved(f: Flight, m: Move): Flight
    requires Ready(f, m)
  {
    match m
    case Begin(t, op) =>
      var calls := Calls(f.tab, op);
      f.(tab := After(f.tab, op), decided := f.decided + calls,
         pending := if calls == [] then f.pending else f.pending[t := calls])
    case Issue(t) =>
      var rest := f.pending[t][1..];
      f.(issued := f.issued + [f.pending[t][0]],
         pending := if rest == [] then f.pending - {t} else f.pending[t := rest])
  }

  /** The callbacks about one event. */
  function About(log: seq<Callback>, id: EventId): seq<Callback> {
    if log == [] then [] else
      (if log[0].id == id then [log[0]] else []) + About(log[1..], id)
  }

  lemma {:induction false} AboutSum(a: seq<Callback>, b: seq<Callback>, id: EventId)
    ensures About(a + b, id) == About(a, id) + About(b, id)
  {
    if a == [] {
      assert a + b == b;
    } else {
      var first: seq<Callback> := if a[0].id == id then [a[0]] else [];
      assert (a + b)[1..] == a[1..] + b;
      AboutSum(a[1..], b, id);
      assert first + (About(a[1..], id) + About(b, id)) == (first + About(a[1..], id)) + About(b, id);
    }
  }

  /** No thread has a callback about the event to make. */
  ghost predicate Clear(f: Flight, id: EventId) {
    forall t :: t in f.pending ==> About(f.pending[t], id) == []
  }

  /** Calls that decide a callback about the event do not overlap. */
  ghost predicate Apart(f: Flight, moves: seq<Move>, id: EventId)
    decreases |moves|
  {
    moves == [] ||
    (Ready(f, moves[0]) &&
     (moves[0].Begin? && About(Calls(f.tab, moves[0].op), id) != [] ==> Clear(f, id)) &&
     Apart(Moved(f, moves[0]), moves[1..], id))
  }

  function Finally(f: Flight, moves: seq<Move>): Flight
    decreases |moves|
  {
    if moves == [] || !Ready(f, moves[0]) then f else Finally(Moved(f, moves[0]), moves[1..])
  }

  /** What was issued, with what the one thread that has something about the event still has to issue, is what was
      decided. */
  ghost predicate InOrder(f: Flight, id: EventId) {
    (Clear(f, id) && About(f.issued, id) == About(f.decided, id)) ||
    exists t :: t in f.pending && Owes(f, id, t)
  }

  ghost predicate Owes(f: Flight, id: EventId, t: Tid)
    requires t in f.pending
  {
    && (forall u :: u in f.pending && u != t ==> About(f.pending[u], id) == [])
    && About(f.issued, id) + About(f.pending[t], id) == About(f.decided, id)
  }

  lemma BeginKeepsOrder(f: Flight, m: Move, id: EventId)
    requires InOrder(f, id) && Ready(f, m) && m.Begin?
    requires About(Calls(f.tab, m.op), id) != [] ==> Clear(f, id)
    ensures InOrder(Moved(f, m), id)
  {
    var f' := Moved(f, m);
    var calls := Calls(f.tab, m.op);
    AboutSum(f.decided, calls, id);
    if About(calls, id) != [] {
      assert About(f.issued, id) == About(f.decided, id);
      assert m.t in f'.pending && Owes(f', id, m.t);
    } else if t :| t in f.pending && Owes(f, id, t) {
      assert t in f'.pending && Owes(f', id, t);
    }
  }

  /** Making the first of some callbacks splits what they say about an event. */
  lemma IssueSplits(f: Flight, t: Tid, id: EventId)
    requires t in f.pending && f.pending[t] != []
    ensures About(f.pending[t], id) == About([f.pending[t][0]], id) + About(f.pending[t][1..], id)
    ensures About(f.issued + [f.pending[t][0]], id) == About(f.issued, id) + About([f.pending[t][0]], id)
  {
    AboutSum(f.issued, [f.pending[t][0]], id);
    AboutSum([f.pending[t][0]], f.pending[t][1..], id);
    assert [f.pending[t][0]] + f.pending[t][1..] == f.pending[t];
  }

  lemma IssueOfOwer(f: Flight, m: Move, id: EventId)
    requires Ready(f, m) && m.Issue? && Owes(f, id, m.t)
    ensures InOrder(Moved(f, m), id)
  {
    var f' := Moved(f, m);
    IssueSplits(f, m.t, id);
    if m.t in f'.pending {
      assert Owes(f', id, m.t);
    } else {
      assert Clear(f', id);
    }
  }

  lemma IssueOfOther(f: Flight, m: Move, id: EventId)
    requires InOrder(f, id) && Ready(f, m) && m.Issue? && About(f.pending[m.t], id) == []
    ensures InOrder(Moved(f, m), id)
  {
    var f' := Moved(f, m);
    IssueSplits(f, m.t, id);
    if t :| t in f.pending && Owes(f, id, t) {
      if t in f'.pending { assert Owes(f', id, t); } else { assert Clear(f', id); }
    }
  }

  lemma IssueKeepsOrder(f: Flight, m: Move, id: EventId)
    requires InOrder(f, id) && Ready(f, m) && m.Issue?
    ensures InOrder(Moved(f, m), id)
  {
    if About(f.pending[m.t], id) == [] {
      IssueOfOther(f, m, id);
    } else {
      assert Owes(f, id, m.t);
      IssueOfOwer(f, m, id);
    }
  }

  lemma {:induction false} OrderStays(f: Flight, moves: seq<Move>, id: EventId)
    requires InOrder(f, id) && Apart(f, moves, id)
    ensures InOrder(Finally(f, moves), id)
    decreases |moves|
  {
    if moves != [] {
      if moves[0].Begin? { BeginKeepsOrder(f, moves[0], id); } else { IssueKeepsOrder(f, moves[0], id); }
      OrderStays(Moved(f, moves[0]), moves[1..], id);
    }
  }

  function Start(n: nat): Flight {
    Flight(Empty(n), map[], [], [])
  }

  /** If the calls about an event do not overlap, its callbacks are made in the order of the decisions. */
  lemma CallbacksFollowDecisions(n: nat, moves: seq<Move>, id: EventId)
    requires Apart(Start(n), moves, id) && Clear(Finally(Start(n), moves), id)
    ensures var f := Finally(Start(n), moves); About(f.issued, id) == About(f.decided, id)
  {
    OrderStays(Start(n), moves, id);
  }

  // remove_client unsubscribes every event.

  function AfterUnsubscribing(tab: Table, k: nat): (r: Table)
    requires Sized(tab, |tab.subscriber|) && k <= |tab.subscriber|
    ensures Sized(r, |tab.subscriber|)
  {
    if k == 0 then tab else After(AfterUnsubscribing(tab, k - 1), Unsubscribe(k - 1))
  }

  /** The events below `k` that have a subscriber, each reported as unsubscribed. */
  function Farewells(tab: Table, k: nat): seq<Callback>
    requires k <= |tab.subscriber|
  {
    if k == 0 then [] else
      Farewells(tab, k - 1) + (if tab.subscriber[k - 1].Some? then [Changed(k - 1, false)] else [])
  }

  lemma {:induction false} UnsubscribingIsClearing(tab: Table, k: nat)
    requires Sized(tab, |tab.subscriber|) && k <= |tab.subscriber|
    ensures var r := AfterUnsubscribing(tab, k);
            && r.initial == tab.initial
            && (forall i :: 0 <= i < k ==> r.subscriber[i].None? && r.requester[i].None?)
            && (forall i :: k <= i < |tab.subscriber| ==>
                  r.subscriber[i] == tab.subscriber[i] && r.requester[i] == tab.requester[i])
  {
    if k > 0 { UnsubscribingIsClearing(tab, k - 1); }
  }

  /** Removing the client leaves the table that disable() leaves, but reports every subscriber it forgets. */
  lemma RemovalClearsAll(tab: Table)
    requires Sized(tab, |tab.subscriber|)
    ensures AfterUnsubscribing(tab, |tab.subscriber|) == After(tab, ClearAll)
  {
    UnsubscribingIsClearing(tab, |tab.subscriber|);
    var r := AfterUnsubscribing(tab, |tab.subscriber|);
    assert r.subscriber == After(tab, ClearAll).subscriber;
    assert r.requester == After(tab, ClearAll).requester;
  }

  lemma {:induction false} FarewellsReachEachSubscriber(tab: Table, k: nat, id: EventId)
    requires k <= |tab.subscriber|
    ensures Changed(id, false) in Farewells(tab, k) <==> id < k && tab.subscriber[id].Some?
  {
    if k > 0 { FarewellsReachEachSubscriber(tab, k - 1, id); }
  }

  /** The per-event vectors of the server connector. Callbacks are returned: they are made without the lock. */
  class EventTable {
    const subscriber: array<Option<Connection>>
    const requester: array<Option<Connection>>
    const initial: array<bool>

    ghost predicate Valid()
      reads this
    {
      subscriber.Length == requester.Length == initial.Length && subscriber != requester
    }

    ghost function Value(): Table
      reads this, subscriber, requester, initial
    {
      Table(subscriber[..], requester[..], initial[..])
    }

    constructor (n: nat)
      ensures Valid() && subscriber.Length == n && Value() == Empty(n)
      ensures fresh(subscriber) && fresh(requester) && fresh(initial)
    {
      subscriber := new Option<Connection>[n](_ => None);
      requester := new Option<Connection>[n](_ => None);
      initial := new bool[n](_ => false);
    }

    method Subscribe(client: Connection, id: EventId, withInitial: bool) returns (r: Result<seq<Callback>, string>)
      requires Valid()
      modifies subscriber, requester, initial
      ensures Value() == After(old(Value()), Op.Subscribe(client, id, withInitial))
      ensures r == if id < subscriber.Length then Ok(Calls(old(Value()), Op.Subscribe(client, id, withInitial)))
                   else Err("logic_error_id_out_of_range")
    {
      if id >= subscriber.Length {
        return Err("logic_error_id_out_of_range");
      }
      var alreadySubscribed, alreadyRequester := subscriber[id].Some?, requester[id].Some?;
      subscriber[id] := Some(client);
      if withInitial {
        requester[id] := Some(client);
        initial[id] := true;
      }
      var calls: seq<Callback> := if !alreadySubscribed then [Changed(id, true)] else [];
      if withInitial && !alreadyRequester {
        calls := calls + [UpdateWanted(id)];
      }
      assert calls == Calls(old(Value()), Op.Subscribe(client, id, withInitial));
      return Ok(calls);
    }

    method Unsubscribe(id: EventId) returns (r: Result<seq<Callback>, string>)
      requires Valid()
      modifies subscriber, requester
      ensures Value() == After(old(Value()), Op.Unsubscribe(id))
      ensures r == if id < subscriber.Length then Ok(Calls(old(Value()), Op.Unsubscribe(id)))
                   else Err("logic_error_id_out_of_range")
    {
      if id >= subscriber.Length {
        return Err("logic_error_id_out_of_range");
      }
      var wasSubscribed := subscriber[id].Some?;
      subscriber[id] := None;
      requester[id] := None;
      return Ok(if wasSubscribed then [Changed(id, false)] else []);
    }

    method RequestUpdate(client: Connection, id: EventId) returns (r: Result<seq<Callback>, string>)
      requires Valid()
      modifies requester
      ensures Value() == After(old(Value()), Op.RequestUpdate(client, id))
      ensures r == if id < subscriber.Length then Ok(Calls(old(Value()), Op.RequestUpdate(client, id)))
                   else Err("logic_error_id_out_of_range")
    {
      if id >= requester.Length {
        return Err("logic_error_id_out_of_range");
      }
      if requester[id].Some? {
        return Ok([]);
      }
      requester[id] := Some(client);
      return Ok([UpdateWanted(id)]);
    }

    /** update_requested_event: the requester gets the update and is cleared. */
    method TakeRequester(id: EventId) returns (r: Result<Option<Connection>, string>)
      requires Valid()
      modifies requester
      ensures Value() == After(old(Value()), UpdateRequested(id))
      ensures r == if id < subscriber.Length then Ok(old(requester[id])) else Err("logic_error_id_out_of_range")
    {
      if id >= requester.Length {
        return Err("logic_error_id_out_of_range");
      }
      r := Ok(requester[id]);
      requester[id] := None;
    }

    /** update_event: the subscriber gets the update, and the requester stays. */
    method UpdateEvent(id: EventId) returns (r: Result<Option<Connection>, string>)
      requires Valid()
      ensures r == if id < subscriber.Length then Ok(Value().subscriber[id]) else Err("logic_error_id_out_of_range")
      ensures After(Value(), Update(id)) == Value()
    {
      if id >= subscriber.Length {
        return Err("logic_error_id_out_of_range");
      }
      return Ok(subscriber[id]);
    }

    /** unsubscribe_event() of disable(): forgets everything without a callback. */
    method Clear()
      requires Valid()
      modifies subscriber, requester
      ensures Value() == After(old(Value()), ClearAll)
    {
      for id := 0 to subscriber.Length
        invariant forall i :: 0 <= i < id ==> subscriber[i].None? && requester[i].None?
        invariant initial[..] == old(initial[..])
      {
        subscriber[id] := None;
        requester[id] := None;
      }
      assert subscriber[..] == After(old(Value()), ClearAll).subscriber;
      assert requester[..] == After(old(Value()), ClearAll).requester;
    }

    /** unsubscribe_event(client) of remove_client: one critical section and one callback per event. */
    method UnsubscribeAll() returns (calls: seq<Callback>)
      requires Valid()
      modifies subscriber, requester
      ensures Value() == After(old(Value()), ClearAll)
      ensures calls == Farewells(old(Value()), subscriber.Length)
    {
      calls := [];
      ghost var before := Value();
      for id := 0 to subscriber.Length
        invariant Value() == AfterUnsubscribing(before, id) && calls == Farewells(before, id)
      {
        UnsubscribingIsClearing(before, id);
        assert Value().subscriber[id] == before.subscriber[id];
        var r := Unsubscribe(id);
        calls := calls + r.value;
      }
      RemovalClearsAll(before);
    }
  }
}
