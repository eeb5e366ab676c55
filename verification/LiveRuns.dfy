/** Runs in which payloads are only made and sent by a server that has this binding as a subscriber
    (server_connector_impl.cpp): a server stores the subscriber when it is told of a subscription, and forgets it when
    it goes away. */
module LiveRuns {
  import opened Prelude
  import opened ConnectionMetadata
  import opened EventSubscriptions
  import opened SlotLifetime
  import opened SubscriptionRuns
  import B = Binding

  /** The events for which the server a key is paired with has stored this binding's subscriber. */
  type Heard = set<(Key, Event)>

  function ForgetKey(heard: Heard, key: Key): Heard {
    set p | p in heard && p.0 != key
  }

  predicate Available(n: B.Node, key: Key) {
    key in n.localOffers && n.localOffers[key]
  }

  function Hear(n: B.Node, heard: Heard, op: B.Op): Heard {
    match op
    case ServiceStateChange(key, _) => ForgetKey(heard, key)
    case ConnectServiceMessage(_, key, _, inUse) => if inUse then heard else ForgetKey(heard, key)
    case SubscribeMessage(c, provided, e, subscribe) =>
      var found := FirstWithLocal(EntriesOf(n.table, c), provided);
      if found.None? then heard
      else
        var calls := Issued(n, op, found.value.key, e);
        if calls == [Subscribe(e)] && Available(n, found.value.key) then heard + {(found.value.key, e)}
        else if calls == [Unsubscribe(e)] then heard - {(found.value.key, e)}
        else heard
    case _ => set p | p in heard && Issued(n, op, p.0, p.1) == []
  }

  datatype Live = Live(system: System, heard: Heard)

  const START := Live(INIT, {})

  /** The server the binding is paired with has its subscriber; `own` says whether the binding made that server. */
  predicate Serves(l: Live, key: Key, own: bool) {
    && key in l.system.node.states && l.system.node.states[key].enabledConnector == own
    && Available(l.system.node, key)
    && exists p :: p in l.heard && p.0 == key
  }

  /** Only a server with a subscriber allocates and updates; it sends on what it received if the binding made it. */
  predicate Backed(l: Live, step: Step) {
    match step
    case AllocatePayload(key) => Serves(l, key, false)
    case Publish(key, _, _, _) => Serves(l, key, false)
    case Forward(key, _, _, _) => Serves(l, key, true)
    case _ => true
  }

  ghost predicate Can(l: Live, step: Step) {
    Possible(l.system, step) && Backed(l, step)
  }

  function Next(l: Live, step: Step): Live {
    Live(Perform(l.system, step), if step.Tables? then Hear(l.system.node, l.heard, step.op) else l.heard)
  }

  function LiveAfter(steps: seq<Step>): Live {
    if steps == [] then START else Next(LiveAfter(steps[..|steps| - 1]), steps[|steps| - 1])
  }

  ghost predicate LiveRun(steps: seq<Step>) {
    steps == [] || (LiveRun(steps[..|steps| - 1]) && Can(LiveAfter(steps[..|steps| - 1]), steps[|steps| - 1]))
  }

  /** Such runs are possible runs. */
  lemma {:induction false} LiveRunsArePossible(steps: seq<Step>)
    requires LiveRun(steps)
    ensures PossibleRun(INIT, steps) && LiveAfter(steps).system == Run(INIT, steps)
  {
    if steps != [] {
      LiveRunsArePossible(steps[..|steps| - 1]);
    }
  }

  // A stored subscriber is that of a connector which is there, of a service which is available.

  ghost predicate HeardOk(n: B.Node, heard: Heard) {
    forall p :: p in heard ==> Available(n, p.0) && B.StateOf(n, p.0).clientConnector
  }

  lemma HearKeepsOk(n: B.Node, heard: Heard, op: B.Op)
    requires HeardOk(n, heard)
    ensures HeardOk(B.Step(n, op), Hear(n, heard, op))
  {
    var n' := B.Step(n, op);
    forall p | p in Hear(n, heard, op) ensures Available(n', p.0) && B.StateOf(n', p.0).clientConnector {
      if op.ConnectReplyMessage? {
        SendConnectsKeepConnector(n, op.visits, p.0);
      } else if op.OfferMessage? {
        OfferKeepsConnector(n, op, p.0);
      } else if op.LocalRequest? {
        LocalRequestKeepsConnector(n, op, p.0);
      } else {
        PlainStepKeepsConnector(n, op, p.0);
      }
    }
  }

  lemma {:induction false} SendConnectKeepsConnector(n: B.Node, k: Key, order: seq<Client>, ok: set<Client>, key: Key)
    ensures var n' := B.SendConnect(n, k, order, ok);
            n'.localOffers == n.localOffers && B.StateOf(n', key).clientConnector == B.StateOf(n, key).clientConnector
  {
    if B.StateOf(n, k).requested && order != [] {
      SendConnectKeepsConnector(n, k, order[..|order| - 1], ok, key);
    }
  }

  lemma {:induction false} SendConnectsKeepConnector(n: B.Node, visits: seq<B.Visit>, key: Key)
    ensures var n' := B.SendConnects(n, visits);
            n'.localOffers == n.localOffers && B.StateOf(n', key).clientConnector == B.StateOf(n, key).clientConnector
  {
    if visits != [] {
      var rest := visits[..|visits| - 1];
      var v := visits[|visits| - 1];
      SendConnectsKeepConnector(n, rest, key);
      SendConnectKeepsConnector(B.SendConnects(n, rest), v.key, v.order, v.ok, key);
    }
  }

  lemma OfferKeepsConnector(n: B.Node, op: B.Op, key: Key)
    requires op.OfferMessage?
    ensures var n' := B.Step(n, op);
            n'.localOffers == n.localOffers && B.StateOf(n', key).clientConnector == B.StateOf(n, key).clientConnector
  {
    if op.offered {
      NewOfferKeepsConnector(n, op.client, op.key, op.order, op.ok, key);
    }
  }

  lemma NewOfferKeepsConnector(n: B.Node, c: Client, k: Key, order: seq<Client>, ok: set<Client>, key: Key)
    ensures var n' := B.HandleOffer(n, c, k, true, order, ok);
            n'.localOffers == n.localOffers && B.StateOf(n', key).clientConnector == B.StateOf(n, key).clientConnector
  {
    var s := B.StateOf(n, k);
    var offer := if c in s.offers then s.offers[c].(offered := true) else B.Offer(true, false, 0);
    SendConnectKeepsConnector(B.WithState(n, k, s.(offers := s.offers[c := offer])), k, order, ok, key);
  }

  lemma LocalRequestKeepsConnector(n: B.Node, op: B.Op, key: Key)
    requires op.LocalRequest? && B.StateOf(n, key).clientConnector
    ensures var n' := B.Step(n, op); n'.localOffers == n.localOffers && B.StateOf(n', key).clientConnector
  {
    if op.inUse {
      var m := B.WithState(n, op.key, B.StateOf(n, op.key).(requested := true));
      SendConnectKeepsConnector(m, op.key, op.order, op.ok, key);
    }
  }

  lemma RequestKeepsConnector(n: B.Node, c: Client, k: Key, inUse: bool, created: bool, key: Key)
    requires B.StateOf(n, key).clientConnector
    ensures var n' := B.HandleRequest(n, c, k, inUse, created);
            n'.localOffers == n.localOffers && B.StateOf(n', key).clientConnector
  {
  }

  lemma ConnectServiceKeepsConnector(n: B.Node, c: Client, k: Key, required: Handle, inUse: bool, key: Key)
    requires B.StateOf(n, key).clientConnector && (inUse || k != key)
    ensures var n' := B.HandleConnectService(n, c, k, required, inUse);
            n'.localOffers == n.localOffers && B.StateOf(n', key).clientConnector
  {
  }

  lemma PlainStepKeepsConnector(n: B.Node, op: B.Op, key: Key)
    requires !op.ConnectReplyMessage? && !op.OfferMessage? && !op.LocalRequest?
    requires Available(n, key) && B.StateOf(n, key).clientConnector
    requires op.ServiceStateChange? || (op.ConnectServiceMessage? && !op.inUse) ==> op.key != key
    ensures Available(B.Step(n, op), key) && B.StateOf(B.Step(n, op), key).clientConnector
  {
    if op.RequestMessage? {
      RequestKeepsConnector(n, op.client, op.key, op.inUse, op.created, key);
    } else if op.ConnectServiceMessage? {
      ConnectServiceKeepsConnector(n, op.client, op.key, op.required, op.inUse, key);
    }
  }

  /** In every run a stored subscriber belongs to a connector in place, of a service that is available. */
  lemma {:induction false} SubscribersAreStoredByLiveServers(steps: seq<Step>)
    ensures HeardOk(LiveAfter(steps).system.node, LiveAfter(steps).heard)
  {
    if steps != [] {
      SubscribersAreStoredByLiveServers(steps[..|steps| - 1]);
      var l, step := LiveAfter(steps[..|steps| - 1]), steps[|steps| - 1];
      if step.Tables? {
        HearKeepsOk(l.system.node, l.heard, step.op);
      }
    }
  }

  // Building such a run piece by piece.

  /** A run that ends in `l`. */
  ghost predicate Reaches(steps: seq<Step>, l: Live) {
    LiveRun(steps) && LiveAfter(steps) == l
  }

  /** Whatever `reached` says of runs and their ends, it goes from `l` with `more` to `l'`. */
  ghost predicate Carries<S(!new), T(!new)>(reached: (seq<T>, S) -> bool, l: S, more: seq<T>, l': S) {
    forall steps: seq<T> :: reached(steps, l) ==> reached(steps + more, l')
  }

  lemma CarriesOn<S(!new), T(!new)>(reached: (seq<T>, S) -> bool, l: S, first: seq<T>, m: S, second: seq<T>, l': S)
    requires Carries(reached, l, first, m) && Carries(reached, m, second, l')
    ensures Carries(reached, l, first + second, l')
  {
    forall steps: seq<T> | reached(steps, l) ensures reached(steps + (first + second), l') {
      assert reached(steps + first, m);
      assert steps + first + second == steps + (first + second);
    }
  }

  /** Every run that ends in `l` can go on with `more`, and then ends in `l'`. */
  ghost predicate Leads(l: Live, more: seq<Step>, l': Live) {
    Carries(Reaches, l, more, l')
  }

  lemma Push(steps: seq<Step>, l: Live, step: Step, next: Live)
    requires Reaches(steps, l) && Can(l, step) && next == Next(l, step)
    ensures Reaches(steps + [step], next)
  {
    assert (steps + [step])[..|steps + [step]| - 1] == steps;
  }

  lemma StepOnce(l: Live, step: Step, l': Live)
    requires Can(l, step) && Next(l, step) == l'
    ensures Leads(l, [step], l')
  {
    forall steps: seq<Step> | Reaches(steps, l) ensures Reaches(steps + [step], l') {
      Push(steps, l, step, l');
    }
  }

  lemma GoOn(steps: seq<Step>, l: Live, more: seq<Step>, l': Live)
    requires Reaches(steps, l) && Leads(l, more, l')
    ensures Reaches(steps + more, l')
  {
  }

  lemma Join(l: Live, first: seq<Step>, m: Live, second: seq<Step>, l': Live)
    requires Leads(l, first, m) && Leads(m, second, l')
    ensures Leads(l, first + second, l')
  {
    CarriesOn(Reaches, l, first, m, second, l');
  }

  lemma StepTwice(l: Live, a: Step, m: Live, b: Step, l': Live)
    requires Can(l, a) && Next(l, a) == m && Can(m, b) && Next(m, b) == l'
    ensures Leads(l, [a, b], l')
  {
    StepOnce(l, a, m);
    StepOnce(m, b, l');
    Join(l, [a], m, [b], l');
    assert [a] + [b] == [a, b];
  }

  lemma JoinThrice(l: Live, a: seq<Step>, m: Live, b: seq<Step>, m': Live, c: seq<Step>, l': Live)
    requires Leads(l, a, m) && Leads(m, b, m') && Leads(m', c, l')
    ensures Leads(l, a + b + c, l')
  {
    Join(l, a, m, b, m');
    Join(l, a + b, m', c, l');
  }

  lemma TableStep(s: System, heard: Heard, op: B.Op, n: B.Node, heard': Heard)
    requires B.Enabled(s.node, op) && B.Step(s.node, op) == n && Hear(s.node, heard, op) == heard'
    ensures Leads(Live(s, heard), [Tables(op)], Live(s.(node := n), heard'))
  {
    StepOnce(Live(s, heard), Tables(op), Live(s.(node := n), heard'));
  }

  /** The first subscriber of an event of an available service is stored by the server. */
  lemma FirstSubscriber(n: B.Node, heard: Heard, c: Client, provided: Handle, e: Event)
    requires var found := FirstWithLocal(EntriesOf(n.table, c), provided);
             && found.Some? && found.value.key in n.states && Available(n, found.value.key)
             && n.states[found.value.key].clientConnector && e !in n.states[found.value.key].subs
    ensures var key := FirstWithLocal(EntriesOf(n.table, c), provided).value.key;
            var op := B.SubscribeMessage(c, provided, e, true);
            var s := n.states[key];
            && B.Step(n, op) == B.WithState(n, key, s.(subs := s.subs[e := {Endpoint(c, provided)}]))
            && Hear(n, heard, op) == heard + {(key, e)}
  {
    assert {} + {Endpoint(c, provided)} == {Endpoint(c, provided)};
  }
}
