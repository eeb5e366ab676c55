/** When the callbacks of a server connector's calls arrive in the order in which the calls were decided, although
    each is made after the lock is released (server_connector_impl.cpp). */
module CallbackOrder {
  import opened Prelude
  import opened ServerEvents

  // Counting subscription changes.

  function Count(changes: seq<bool>, b: bool): nat {
    if changes == [] then 0 else Count(changes[..|changes| - 1], b) + (if changes[|changes| - 1] == b then 1 else 0)
  }

  lemma {:induction false} CountOfSum(a: seq<bool>, c: seq<bool>, b: bool)
    ensures Count(a + c, b) == Count(a, b) + Count(c, b)
  {
    if c == [] {
      assert a + c == a;
    } else {
      assert (a + c)[..|a + c| - 1] == a + c[..|c| - 1];
      CountOfSum(a, c[..|c| - 1], b);
    }
  }

  lemma {:induction false} CountsAreAll(changes: seq<bool>)
    ensures Count(changes, true) + Count(changes, false) == |changes|
  {
    if changes != [] { CountsAreAll(changes[..|changes| - 1]); }
  }

  lemma {:induction false} CountedIsIn(changes: seq<bool>, i: nat)
    requires i < |changes|
    ensures Count(changes, changes[i]) > 0
  {
    if i < |changes| - 1 { CountedIsIn(changes[..|changes| - 1], i); }
  }

  lemma CountOfOne(v: bool, b: bool)
    ensures Count([v], b) == if v == b then 1 else 0
  {
    assert [v][..0] == [];
  }

  // What threads owe.

  /** The changes of the event that the thread has to report. */
  function Owed(f: Flight, id: EventId, t: Tid): seq<bool> {
    if t in f.pending then Changes(f.pending[t], id) else []
  }

  function Owers(f: Flight, id: EventId, b: bool): set<Tid> {
    set t | t in f.pending && Owed(f, id, t) == [b]
  }

  /** What is issued and what is owed together is what was decided. */
  ghost predicate Accounts(f: Flight, id: EventId, b: bool) {
    Count(Changes(f.decided, id), b) == Count(Changes(f.issued, id), b) + |Owers(f, id, b)|
  }

  /** What every flight keeps. A thread owes one change of an event at most. */
  ghost predicate Balanced(f: Flight, id: EventId) {
    && Sized(f.tab, |f.tab.subscriber|)
    && (forall t :: t in f.pending ==> f.pending[t] != [])
    && (forall t {:trigger Owed(f, id, t)} :: |Owed(f, id, t)| <= 1)
    && Accounts(f, id, true) && Accounts(f, id, false)
  }

  lemma OwersOfPut(f: Flight, g: Flight, id: EventId, t: Tid, b: bool)
    requires forall u {:trigger Owed(g, id, u)} :: u != t ==> Owed(g, id, u) == Owed(f, id, u)
    ensures |Owers(g, id, b)| == |Owers(f, id, b)| - One(Owed(f, id, t) == [b]) + One(Owed(g, id, t) == [b])
  {
    forall u: Tid ensures (u in Owers(f, id, b) <==> Owed(f, id, u) == [b]) { }
    forall u: Tid ensures (u in Owers(g, id, b) <==> Owed(g, id, u) == [b]) { }
    CountOne(Owers(f, id, b), Owers(g, id, b), t, Owed(f, id, t) == [b], Owed(g, id, t) == [b]);
  }

  lemma BeginOwes(f: Flight, m: Move, id: EventId)
    requires Ready(f, m) && m.Begin?
    ensures var g := Moved(f, m);
            && Owed(f, id, m.t) == [] && Owed(g, id, m.t) == NewChange(f.tab, m.op, id)
            && (forall u {:trigger Owed(g, id, u)} :: u != m.t ==> Owed(g, id, u) == Owed(f, id, u))
            && Changes(g.decided, id) == Changes(f.decided, id) + NewChange(f.tab, m.op, id)
  {
    ChangesOfSum(f.decided, Calls(f.tab, m.op), id);
    ChangesOfCalls(f.tab, m.op, id);
  }

  lemma BeginAccounts(f: Flight, m: Move, id: EventId, b: bool)
    requires Accounts(f, id, b) && Ready(f, m) && m.Begin?
    ensures Accounts(Moved(f, m), id, b)
  {
    var change := NewChange(f.tab, m.op, id);
    BeginOwes(f, m, id);
    CountOfSum(Changes(f.decided, id), change, b);
    OwersOfPut(f, Moved(f, m), id, m.t, b);
    if change != [] { CountOfOne(change[0], b); }
  }

  lemma BeginBalances(f: Flight, m: Move, id: EventId)
    requires Balanced(f, id) && Ready(f, m) && m.Begin?
    ensures Balanced(Moved(f, m), id)
  {
    BeginOwes(f, m, id);
    BeginAccounts(f, m, id, true);
    BeginAccounts(f, m, id, false);
  }

  /** Making the first of a thread's callbacks takes what it says off what the thread owes. */
  lemma IssueOwes(f: Flight, t: Tid, id: EventId)
    requires Ready(f, Issue(t))
    ensures var g, first := Moved(f, Issue(t)), Changes([f.pending[t][0]], id);
            && Owed(f, id, t) == first + Owed(g, id, t) && |first| <= 1
            && (forall u {:trigger Owed(g, id, u)} :: u != t ==> Owed(g, id, u) == Owed(f, id, u))
            && Changes(g.issued, id) == Changes(f.issued, id) + first
  {
    ChangesOfOne(f.pending[t][0], id);
    ChangesOfSum(f.issued, [f.pending[t][0]], id);
    ChangesOfSum([f.pending[t][0]], f.pending[t][1..], id);
    assert [f.pending[t][0]] + f.pending[t][1..] == f.pending[t];
  }

  lemma IssueAccounts(f: Flight, t: Tid, id: EventId, b: bool)
    requires Accounts(f, id, b) && Ready(f, Issue(t)) && |Owed(f, id, t)| <= 1
    ensures Accounts(Moved(f, Issue(t)), id, b)
  {
    var first := Changes([f.pending[t][0]], id);
    IssueOwes(f, t, id);
    CountOfSum(Changes(f.issued, id), first, b);
    OwersOfPut(f, Moved(f, Issue(t)), id, t, b);
    if first != [] {
      assert first == [first[0]] && Owed(f, id, t) == first;
      CountOfOne(first[0], b);
    } else {
      assert Owed(f, id, t) == Owed(Moved(f, Issue(t)), id, t);
    }
  }

  lemma IssueBalances(f: Flight, t: Tid, id: EventId)
    requires Balanced(f, id) && Ready(f, Issue(t))
    ensures Balanced(Moved(f, Issue(t)), id)
  {
    assert |Owed(f, id, t)| <= 1;
    IssueOwes(f, t, id);
    IssueAccounts(f, t, id, true);
    IssueAccounts(f, t, id, false);
  }

  // Every order in which the callbacks that are owed can be made.

  /** Each thread in turn has a callback to make. */
  ghost predicate CanIssue(f: Flight, order: seq<Tid>)
    decreases |order|
  {
    order == [] || (Ready(f, Issue(order[0])) && CanIssue(Moved(f, Issue(order[0])), order[1..]))
  }

  ghost function Through(f: Flight, order: seq<Tid>): Flight
    requires CanIssue(f, order)
    decreases |order|
  {
    if order == [] then f else Through(Moved(f, Issue(order[0])), order[1..])
  }

  /** The order makes all callbacks that are owed. */
  ghost predicate Completes(f: Flight, order: seq<Tid>) {
    CanIssue(f, order) && Through(f, order).pending == map[]
  }

  /** Whatever the order, the subscription changes of the event arrive as they were decided. */
  ghost predicate AlwaysRight(f: Flight, id: EventId) {
    forall order :: Completes(f, order) ==> Changes(Through(f, order).issued, id) == Changes(f.decided, id)
  }

  /** What has arrived so far is the beginning of what was decided. */
  predicate RightSoFar(f: Flight, id: EventId) {
    Changes(f.issued, id) <= Changes(f.decided, id)
  }

  /** All changes of the event that are owed say the same. */
  ghost predicate OwedAlike(f: Flight, id: EventId) {
    Owers(f, id, true) == {} || Owers(f, id, false) == {}
  }

  /** If all that is owed says `v`, the rest of the decisions says `v` only. */
  lemma RestSaysTheSame(f: Flight, id: EventId, v: bool)
    requires Balanced(f, id) && RightSoFar(f, id) && Owers(f, id, !v) == {}
    ensures var k := |Changes(f.issued, id)|;
            forall i :: k <= i < |Changes(f.decided, id)| ==> Changes(f.decided, id)[i] == v
    ensures |Changes(f.decided, id)| == |Changes(f.issued, id)| + |Owers(f, id, v)|
  {
    var issued, decided := Changes(f.issued, id), Changes(f.decided, id);
    var rest := decided[|issued|..];
    assert decided == issued + rest;
    CountOfSum(issued, rest, v);
    CountOfSum(issued, rest, !v);
    CountsAreAll(issued);
    CountsAreAll(decided);
    forall i | |issued| <= i < |decided| ensures decided[i] == v {
      CountedIsIn(rest, i - |issued|);
    }
  }

  lemma IssueStaysAlike(f: Flight, id: EventId, t: Tid, b: bool)
    requires Balanced(f, id) && Ready(f, Issue(t)) && Owers(f, id, b) == {}
    ensures Owers(Moved(f, Issue(t)), id, b) == {}
  {
    var g := Moved(f, Issue(t));
    IssueOwes(f, t, id);
    OwersOfPut(f, g, id, t, b);
    assert |Owed(f, id, t)| <= 1;
    assert t !in Owers(f, id, b);
  }

  lemma IssueStaysRight(f: Flight, id: EventId, t: Tid, v: bool)
    requires Balanced(f, id) && RightSoFar(f, id) && Owers(f, id, !v) == {} && Ready(f, Issue(t))
    ensures RightSoFar(Moved(f, Issue(t)), id)
  {
    var issued, decided := Changes(f.issued, id), Changes(f.decided, id);
    var first := Changes([f.pending[t][0]], id);
    IssueOwes(f, t, id);
    if first != [] {
      assert |Owed(f, id, t)| <= 1 && Owed(f, id, t) == first == [first[0]];
      assert t !in Owers(f, id, !v);
      assert t in Owers(f, id, v);
      RestSaysTheSame(f, id, v);
      assert decided[|issued|] == v;
    }
  }

  lemma {:induction false} AlikeIsRight(f: Flight, id: EventId, order: seq<Tid>, v: bool)
    requires Balanced(f, id) && RightSoFar(f, id) && Owers(f, id, !v) == {} && Completes(f, order)
    ensures Changes(Through(f, order).issued, id) == Changes(f.decided, id)
    decreases |order|
  {
    if order == [] {
      RestSaysTheSame(f, id, v);
      assert Owers(f, id, v) == {};
    } else {
      IssueStaysRight(f, id, order[0], v);
      IssueStaysAlike(f, id, order[0], !v);
      IssueBalances(f, order[0], id);
      AlikeIsRight(Moved(f, Issue(order[0])), id, order[1..], v);
    }
  }

  // Orders in which a given thread comes first.

  lemma {:induction false} Joined(f: Flight, a: seq<Tid>, b: seq<Tid>)
    requires CanIssue(f, a) && CanIssue(Through(f, a), b)
    ensures CanIssue(f, a + b) && Through(f, a + b) == Through(Through(f, a), b)
    decreases |a|
  {
    if a == [] {
      assert a + b == b;
    } else {
      assert (a + b)[1..] == a[1..] + b;
      Joined(Moved(f, Issue(a[0])), a[1..], b);
    }
  }

  lemma {:induction false} IssuedGrows(f: Flight, order: seq<Tid>)
    requires CanIssue(f, order)
    ensures f.issued <= Through(f, order).issued && Through(f, order).decided == f.decided
    decreases |order|
  {
    if order != [] { IssuedGrows(Moved(f, Issue(order[0])), order[1..]); }
  }

  /** No thread is listed without a callback to make. */
  ghost predicate Listed(f: Flight) {
    Sized(f.tab, |f.tab.subscriber|) && forall t :: t in f.pending ==> f.pending[t] != []
  }

  /** Thread `t` makes all its callbacks before any other thread goes on. */
  lemma {:induction false} Drain(f: Flight, t: Tid) returns (order: seq<Tid>)
    requires Listed(f) && t in f.pending
    ensures CanIssue(f, order)
    ensures var g := Through(f, order); Listed(g) && g.pending == f.pending - {t} && g.issued == f.issued + f.pending[t]
    decreases |f.pending[t]|
  {
    var g := Moved(f, Issue(t));
    order := [t];
    assert order[1..] == [];
    if t in g.pending {
      var rest := Drain(g, t);
      order := [t] + rest;
      assert order[1..] == rest;
      assert g.pending - {t} == f.pending - {t};
      assert f.issued + [f.pending[t][0]] + f.pending[t][1..] == f.issued + f.pending[t];
    } else {
      assert f.pending[t] == [f.pending[t][0]];
      assert CanIssue(g, []) && Through(g, []) == g;
    }
  }

  lemma {:induction false} DrainAll(f: Flight) returns (order: seq<Tid>)
    requires Listed(f)
    ensures Completes(f, order)
    decreases |f.pending|
  {
    order := [];
    if f.pending != map[] {
      var t :| t in f.pending;
      var first := Drain(f, t);
      assert Through(f, first).pending.Keys == f.pending.Keys - {t};
      var rest := DrainAll(Through(f, first));
      Joined(f, first, rest);
      order := first + rest;
    }
  }

  lemma StartWith(f: Flight, t: Tid) returns (order: seq<Tid>)
    requires Listed(f) && t in f.pending
    ensures Completes(f, order) && f.issued + f.pending[t] <= Through(f, order).issued
  {
    var first := Drain(f, t);
    var rest := DrainAll(Through(f, first));
    Joined(f, first, rest);
    IssuedGrows(Through(f, first), rest);
    order := first + rest;
  }

  lemma PrefixChanges(a: seq<Callback>, b: seq<Callback>, id: EventId)
    requires a <= b
    ensures Changes(a, id) <= Changes(b, id)
  {
    ChangesOfSum(a, b[|a|..], id);
    assert a + b[|a|..] == b;
  }

  /** If every order is right and thread `t` owes a change, it is the next one that was decided. */
  lemma NextIsOwed(f: Flight, id: EventId, t: Tid, b: bool)
    requires Listed(f) && AlwaysRight(f, id) && t in Owers(f, id, b)
    ensures var k := |Changes(f.issued, id)|; k < |Changes(f.decided, id)| && Changes(f.decided, id)[k] == b
  {
    var order := StartWith(f, t);
    PrefixChanges(f.issued + f.pending[t], Through(f, order).issued, id);
    ChangesOfSum(f.issued, f.pending[t], id);
    assert (Changes(f.issued, id) + [b])[|Changes(f.issued, id)|] == b;
  }

  lemma RightIsAlike(f: Flight, id: EventId)
    requires Balanced(f, id) && AlwaysRight(f, id)
    ensures RightSoFar(f, id) && OwedAlike(f, id)
  {
    var order := DrainAll(f);
    IssuedGrows(f, order);
    PrefixChanges(f.issued, Through(f, order).issued, id);
    if t, u :| t in Owers(f, id, true) && u in Owers(f, id, false) {
      NextIsOwed(f, id, t, true);
      NextIsOwed(f, id, u, false);
    }
  }

  /** Every order of the owed callbacks is right exactly when what arrived so far is and all that is owed says the
      same. */
  lemma EveryOrderIsRightIff(f: Flight, id: EventId)
    requires Balanced(f, id)
    ensures AlwaysRight(f, id) <==> RightSoFar(f, id) && OwedAlike(f, id)
  {
    if RightSoFar(f, id) && OwedAlike(f, id) {
      var v := Owers(f, id, false) == {};
      forall order | Completes(f, order) ensures Changes(Through(f, order).issued, id) == Changes(f.decided, id) {
        AlikeIsRight(f, id, order, v);
      }
    } else if AlwaysRight(f, id) {
      RightIsAlike(f, id);
    }
  }

  /** Each move can be made when it comes. */
  ghost predicate AnyRun(f: Flight, moves: seq<Move>)
    decreases |moves|
  {
    moves == [] || (Ready(f, moves[0]) && AnyRun(Moved(f, moves[0]), moves[1..]))
  }

  lemma {:induction false} RunsBalance(f: Flight, moves: seq<Move>, id: EventId)
    requires Balanced(f, id) && AnyRun(f, moves)
    ensures Balanced(Finally(f, moves), id)
    decreases |moves|
  {
    if moves != [] {
      if moves[0].Begin? { BeginBalances(f, moves[0], id); } else { IssueBalances(f, moves[0].t, id); }
      RunsBalance(Moved(f, moves[0]), moves[1..], id);
    }
  }

  /** After any run of overlapping calls, disable() included: whatever the order of the callbacks still to be made, the
      changes of the event arrive as decided, exactly when those so far did and all that are owed say the same. */
  lemma AnyCallbacksAreRightIff(n: nat, moves: seq<Move>, id: EventId)
    requires id < n && AnyRun(Start(n), moves)
    ensures var f := Finally(Start(n), moves); AlwaysRight(f, id) <==> RightSoFar(f, id) && OwedAlike(f, id)
  {
    StartIsBalanced(n, id);
    RunsBalance(Start(n), moves, id);
    EveryOrderIsRightIff(Finally(Start(n), moves), id);
  }

  // Within one enabled period.

  ghost predicate AtMostOneOwes(f: Flight, id: EventId) {
    forall t, u {:trigger Owed(f, id, t), Owed(f, id, u)} :: Owed(f, id, t) != [] && Owed(f, id, u) != [] ==> t == u
  }

  /** The decisions about the event alternate, and the last says whether a subscriber is stored. */
  ghost predicate Period(f: Flight, id: EventId) {
    id < |f.tab.subscriber| && Agree(Changes(f.decided, id), f.tab.subscriber[id].Some?, false, false)
  }

  lemma OneOwerIsAlike(f: Flight, id: EventId)
    requires AtMostOneOwes(f, id)
    ensures OwedAlike(f, id)
  {
    forall t: Tid, u: Tid | t in Owers(f, id, true) ensures u !in Owers(f, id, false) {
      assert Owed(f, id, t) == [true] && (t != u ==> Owed(f, id, u) == []);
    }
  }

  lemma TwoOwersAreUnlike(f: Flight, id: EventId)
    requires Balanced(f, id) && Period(f, id) && RightSoFar(f, id) && OwedAlike(f, id)
    ensures AtMostOneOwes(f, id)
  {
    var v := Owers(f, id, false) == {};
    var decided := Changes(f.decided, id);
    RestSaysTheSame(f, id, v);
    forall t: Tid, u: Tid | Owed(f, id, t) != [] && Owed(f, id, u) != [] ensures t == u {
      OwesOne(f, id, t, v);
      OwesOne(f, id, u, v);
      if t != u {
        TwoAtLeast(Owers(f, id, v), t, u);
        NotTwice(decided);
      }
    }
  }

  lemma OwesOne(f: Flight, id: EventId, t: Tid, v: bool)
    requires |Owed(f, id, t)| <= 1 && Owed(f, id, t) != [] && Owers(f, id, !v) == {}
    ensures t in Owers(f, id, v)
  {
    assert t !in Owers(f, id, !v);
    assert Owed(f, id, t) == if Owed(f, id, t)[0] == v then [v] else [!v];
  }

  lemma NotTwice(changes: seq<bool>)
    requires Alternates(changes, true) && |changes| >= 2
    ensures changes[|changes| - 1] != changes[|changes| - 2]
  {
  }

  lemma TwoAtLeast(s: set<Tid>, t: Tid, u: Tid)
    requires t in s && u in s && t != u
    ensures |s| >= 2
  {
    assert |s - {t}| == |s| - 1 && u in s - {t};
  }

  /** Every order of the owed callbacks is right exactly when what arrived so far is and at most one thread owes a
      change of the event. */
  lemma PeriodIsRightIff(f: Flight, id: EventId)
    requires Balanced(f, id) && Period(f, id)
    ensures AlwaysRight(f, id) <==> RightSoFar(f, id) && AtMostOneOwes(f, id)
  {
    EveryOrderIsRightIff(f, id);
    if AtMostOneOwes(f, id) { OneOwerIsAlike(f, id); }
    if RightSoFar(f, id) && OwedAlike(f, id) { TwoOwersAreUnlike(f, id); }
  }

  // Runs.

  /** Each move can be made when it comes, and no call is the clearing in disable(). */
  ghost predicate PeriodRun(f: Flight, moves: seq<Move>)
    decreases |moves|
  {
    moves == [] ||
    (Ready(f, moves[0]) && !(moves[0].Begin? && moves[0].op.ClearAll?) && PeriodRun(Moved(f, moves[0]), moves[1..]))
  }

  lemma StartIsBalanced(n: nat, id: EventId)
    requires id < n
    ensures Balanced(Start(n), id) && Period(Start(n), id) && RightSoFar(Start(n), id)
  {
    assert Owers(Start(n), id, true) == {} && Owers(Start(n), id, false) == {};
  }

  lemma MoveKeepsPeriod(f: Flight, m: Move, id: EventId)
    requires Balanced(f, id) && Period(f, id) && Ready(f, m) && !(m.Begin? && m.op.ClearAll?)
    ensures Balanced(Moved(f, m), id) && Period(Moved(f, m), id)
  {
    if m.Begin? {
      BeginBalances(f, m, id);
      BeginOwes(f, m, id);
      StepAgrees(f.tab, m.op, id, Changes(f.decided, id), false, false);
    } else {
      IssueBalances(f, m.t, id);
    }
  }

  lemma {:induction false} RunsKeepPeriod(f: Flight, moves: seq<Move>, id: EventId)
    requires Balanced(f, id) && Period(f, id) && PeriodRun(f, moves)
    ensures Balanced(Finally(f, moves), id) && Period(Finally(f, moves), id)
    decreases |moves|
  {
    if moves != [] {
      MoveKeepsPeriod(f, moves[0], id);
      RunsKeepPeriod(Moved(f, moves[0]), moves[1..], id);
    }
  }

  /** After any run of overlapping calls in one enabled period: whatever the order of the callbacks still to be made,
      the changes of the event arrive as decided, exactly when those so far did and at most one thread owes one. */
  lemma CallbacksAreRightIff(n: nat, moves: seq<Move>, id: EventId)
    requires id < n && PeriodRun(Start(n), moves)
    ensures var f := Finally(Start(n), moves); AlwaysRight(f, id) <==> RightSoFar(f, id) && AtMostOneOwes(f, id)
  {
    StartIsBalanced(n, id);
    RunsKeepPeriod(Start(n), moves, id);
    PeriodIsRightIff(Finally(Start(n), moves), id);
  }

  /** At every moment of the run the callbacks to come cannot arrive in a wrong order. */
  ghost predicate RightAlong(f: Flight, moves: seq<Move>, id: EventId)
    requires PeriodRun(f, moves)
    decreases |moves|
  {
    AlwaysRight(f, id) && (moves == [] || RightAlong(Moved(f, moves[0]), moves[1..], id))
  }

  /** At every moment of the run at most one thread owes a change of the event. */
  ghost predicate SerialAlong(f: Flight, moves: seq<Move>, id: EventId)
    requires PeriodRun(f, moves)
    decreases |moves|
  {
    AtMostOneOwes(f, id) && (moves == [] || SerialAlong(Moved(f, moves[0]), moves[1..], id))
  }

  lemma RightGoesOn(f: Flight, m: Move, id: EventId)
    requires Balanced(f, id) && RightSoFar(f, id) && OwedAlike(f, id) && Ready(f, m)
    ensures RightSoFar(Moved(f, m), id)
  {
    if m.Begin? {
      BeginOwes(f, m, id);
    } else {
      IssueStaysRight(f, id, m.t, Owers(f, id, false) == {});
    }
  }

  lemma {:induction false} SerialIsRight(f: Flight, moves: seq<Move>, id: EventId)
    requires Balanced(f, id) && Period(f, id) && RightSoFar(f, id) && PeriodRun(f, moves)
    ensures RightAlong(f, moves, id) <==> SerialAlong(f, moves, id)
    decreases |moves|
  {
    PeriodIsRightIff(f, id);
    if moves != [] && AtMostOneOwes(f, id) {
      OneOwerIsAlike(f, id);
      RightGoesOn(f, moves[0], id);
      MoveKeepsPeriod(f, moves[0], id);
      SerialIsRight(Moved(f, moves[0]), moves[1..], id);
    }
  }

  /** Over a whole enabled period no order of callbacks can be wrong exactly when calls that change the subscription of
      the event never overlap. */
  lemma CallbacksFollowDecisionsIff(n: nat, moves: seq<Move>, id: EventId)
    requires id < n && PeriodRun(Start(n), moves)
    ensures RightAlong(Start(n), moves, id) <==> SerialAlong(Start(n), moves, id)
  {
    StartIsBalanced(n, id);
    SerialIsRight(Start(n), moves, id);
  }

  /** Whenever two threads owe a change of an event, some order of their callbacks is wrong. */
  lemma OverlapReordersCallbacks(n: nat, moves: seq<Move>, id: EventId, t: Tid, u: Tid) returns (order: seq<Tid>)
    requires id < n && PeriodRun(Start(n), moves) && t != u
    requires Owed(Finally(Start(n), moves), id, t) != [] && Owed(Finally(Start(n), moves), id, u) != []
    ensures var f := Finally(Start(n), moves);
            Completes(f, order) && Changes(Through(f, order).issued, id) != Changes(f.decided, id)
  {
    var f := Finally(Start(n), moves);
    CallbacksAreRightIff(n, moves, id);
    assert !AtMostOneOwes(f, id);
    order :| Completes(f, order) && Changes(Through(f, order).issued, id) != Changes(f.decided, id);
  }

  lemma FinallyOfTwo(f: Flight, a: Move, b: Move)
    requires Ready(f, a) && !(a.Begin? && a.op.ClearAll?)
    requires Ready(Moved(f, a), b) && !(b.Begin? && b.op.ClearAll?)
    ensures Finally(f, [a, b]) == Moved(Moved(f, a), b) && PeriodRun(f, [a, b])
  {
    assert [a, b][1..] == [b] && [b][1..] == [];
    assert Finally(Moved(f, a), [b]) == Finally(Moved(Moved(f, a), b), []);
    assert PeriodRun(Moved(Moved(f, a), b), []);
  }

  lemma TwoCallsOwe(client: Connection)
    ensures var a, b := Begin(0, Subscribe(client, 0, false)), Begin(1, Unsubscribe(0));
            var f := Moved(Moved(Start(1), a), b);
            && Ready(Start(1), a) && Ready(Moved(Start(1), a), b)
            && Owed(f, 0, 0) == [true] && Owed(f, 0, 1) == [false] && Changes(f.decided, 0) == [true, false]
  {
    var a, b := Begin(0, Subscribe(client, 0, false)), Begin(1, Unsubscribe(0));
    BeginOwes(Start(1), a, 0);
    BeginOwes(Moved(Start(1), a), b, 0);
    assert [] + [true] + [false] == [true, false];
  }

  /** For one event, a subscription and an unsubscription in two threads: unsubscribed can arrive first. */
  lemma SubscribeMeetsUnsubscribe(client: Connection) returns (order: seq<Tid>)
    ensures var f := Finally(Start(1), [Begin(0, Subscribe(client, 0, false)), Begin(1, Unsubscribe(0))]);
            && Changes(f.decided, 0) == [true, false]
            && Completes(f, order) && Changes(Through(f, order).issued, 0) == [false, true]
  {
    var a, b := Begin(0, Subscribe(client, 0, false)), Begin(1, Unsubscribe(0));
    var f := Finally(Start(1), [a, b]);
    TwoCallsOwe(client);
    FinallyOfTwo(Start(1), a, b);
    order := OverlapReordersCallbacks(1, [a, b], 0, 0, 1);
    StartIsBalanced(1, 0);
    RunsKeepPeriod(Start(1), [a, b], 0);
    SameCounts(f, order, 0);
    OneOfEach(Changes(Through(f, order).issued, 0));
  }

  lemma {:induction false} SameCounts(f: Flight, order: seq<Tid>, id: EventId)
    requires Balanced(f, id) && Completes(f, order)
    ensures forall b: bool :: Count(Changes(Through(f, order).issued, id), b) == Count(Changes(f.decided, id), b)
    decreases |order|
  {
    if order == [] {
      assert Owers(f, id, true) == {} && Owers(f, id, false) == {};
    } else {
      IssueBalances(f, order[0], id);
      SameCounts(Moved(f, Issue(order[0])), order[1..], id);
    }
  }

  lemma OneOfEach(changes: seq<bool>)
    requires Count(changes, true) == Count([true, false], true) && Count(changes, false) == Count([true, false], false)
    ensures changes == [true, false] || changes == [false, true]
  {
    assert [true, false] == [true] + [false];
    CountOfSum([true], [false], true);
    CountOfSum([true], [false], false);
    CountOfOne(true, true);
    CountOfOne(true, false);
    CountOfOne(false, true);
    CountOfOne(false, false);
    CountsAreAll(changes);
    CountOfSum([changes[0]], [changes[1]], true);
    CountOfOne(changes[0], true);
    CountOfOne(changes[1], true);
    assert changes == [changes[0]] + [changes[1]];
  }
}
