/** The merged event subscriptions over every run of a binding's handlers: which step leaves the client connector's view
    of an event behind the stored subscriber set. */
module SubscriptionRuns {
  import opened Prelude
  import opened ConnectionMetadata
  import opened EventSubscriptions
  import opened Binding
  import opened BindingSafety

  function SubsOf(n: Node, key: Key): Subscribers {
    StateOf(n, key).subs
  }

  /** The operation on the key's subscriber sets that a step carries out with the client connector at hand. */
  function SubscriberOp(n: Node, op: Binding.Op, key: Key): Option<EventSubscriptions.Op> {
    if key !in n.states then None
    else
      match op
      case RequestMessage(c, _, inUse, _) => if inUse then None else Some(DropClient(c))
      case DropPeer(c) => Some(DropClient(c))
      case SubscribeMessage(c, provided, event, subscribe) =>
        var found := FirstWithLocal(EntriesOf(n.table, c), provided);
        if found.None? || found.value.key != key then None
        else if subscribe then Some(AddSubscriber(Endpoint(c, provided), event))
        else Some(RemoveSubscriber(Endpoint(c, provided), event))
      case ConnectServiceMessage(c, k, required, inUse) =>
        var found := FirstWithRemote(EntriesOf(n.table, c), required);
        if inUse || k != key || found.None? then None
        else Some(DropConnection(Endpoint(c, found.value.local)))
      case _ => None
  }

  /** The step empties the sets afterwards and calls nobody: the last offer is gone, or the state is erased. */
  predicate Clears(n: Node, op: Binding.Op, key: Key) {
    match op
    case OfferMessage(_, k, offered, _, _) => k == key && !offered
    case DropPeer(c) => OfferAt(n, key, c).Some? && n.states[key].offers - {c} == map[]
    case LocalRequest(k, inUse, _, _) => k == key && !inUse && !HasClientConnector(n, key)
    case _ => false
  }

  function Operated(n: Node, op: Binding.Op, key: Key): Subscribers {
    var sub := SubscriberOp(n, op, key);
    if sub.Some? then After(SubsOf(n, key), sub.value) else SubsOf(n, key)
  }

  /** The calls a step makes on the key's client connector for one event. */
  function Issued(n: Node, op: Binding.Op, key: Key, e: Event): seq<Call> {
    if StateOf(n, key).clientConnector
    then Edge(e, SubscribersOf(SubsOf(n, key), e), SubscribersOf(Operated(n, op, key), e)) else []
  }

  function CallLog(ops: seq<Binding.Op>, key: Key, e: Event): seq<Call> {
    if ops == [] then []
    else
      var before := ops[..|ops| - 1];
      CallLog(before, key, e) + Issued(Run(INIT, before), ops[|ops| - 1], key, e)
  }

  /** The stored set and the connector's view agree after the run. */
  ghost predicate AgreesAfter(ops: seq<Binding.Op>, key: Key, e: Event) {
    ViewAgrees(SubscribersOf(SubsOf(Run(INIT, ops), key), e), CallLog(ops, key, e), e)
  }

  /** What a step does about the event without telling the connector, read off the state before it: it crosses with no
      connector there, or it empties a set that still has a subscriber. */
  predicate Unannounced(n: Node, op: Binding.Op, key: Key, e: Event) {
    var sub := SubscriberOp(n, op, key);
    var told := StateOf(n, key).clientConnector;
    if Clears(n, op, key) then e in SubsOf(n, key) && !(told && sub.Some? && Crosses(sub.value, SubsOf(n, key), e))
    else sub.Some? && !told && Crosses(sub.value, SubsOf(n, key), e)
  }

  lemma {:induction false} SendConnectKeepsSubs(n: Node, k: Key, order: seq<Client>, ok: set<Client>, key: Key)
    ensures SubsOf(SendConnect(n, k, order, ok), key) == SubsOf(n, key)
  {
    if StateOf(n, k).requested && order != [] {
      SendConnectKeepsSubs(n, k, order[..|order| - 1], ok, key);
    }
  }

  lemma {:induction false} SendConnectsKeepSubs(n: Node, visits: seq<Visit>, key: Key)
    ensures SubsOf(SendConnects(n, visits), key) == SubsOf(n, key)
  {
    if visits != [] {
      var rest := visits[..|visits| - 1];
      var v := visits[|visits| - 1];
      SendConnectsKeepSubs(n, rest, key);
      SendConnectKeepsSubs(SendConnects(n, rest), v.key, v.order, v.ok, key);
    }
  }

  /** Every step changes the sets of a key by its operation on them and by clearing, and in no other way. */
  lemma StepChangesSubs(n: Node, op: Binding.Op, key: Key)
    ensures SubsOf(Step(n, op), key) == if Clears(n, op, key) then map[] else Operated(n, op, key)
  {
    if op.ConnectReplyMessage? {
      SendConnectsKeepSubs(n, op.visits, key);
    } else if op.OfferMessage? {
      OfferChangesSubs(n, op, key);
    } else if op.LocalRequest? {
      LocalRequestChangesSubs(n, op, key);
    } else if op.DropPeer? {
      DropPeerChangesSubs(n, op.client, key);
    } else {
      PlainStepChangesSubs(n, op, key);
    }
  }

  lemma OfferChangesSubs(n: Node, op: Binding.Op, key: Key)
    requires op.OfferMessage?
    ensures SubsOf(Step(n, op), key) == if op.key == key && !op.offered then map[] else SubsOf(n, key)
  {
    if op.offered {
      OfferKeepsSubs(n, op.client, op.key, op.order, op.ok, key);
    }
  }

  lemma OfferKeepsSubs(n: Node, c: Client, k: Key, order: seq<Client>, ok: set<Client>, key: Key)
    ensures SubsOf(HandleOffer(n, c, k, true, order, ok), key) == SubsOf(n, key)
  {
    var s := StateOf(n, k);
    var offer := if c in s.offers then s.offers[c].(offered := true) else Offer(true, false, 0);
    SendConnectKeepsSubs(WithState(n, k, s.(offers := s.offers[c := offer])), k, order, ok, key);
  }

  lemma LocalRequestChangesSubs(n: Node, op: Binding.Op, key: Key)
    requires op.LocalRequest?
    ensures SubsOf(Step(n, op), key) ==
            if op.key == key && !op.inUse && !HasClientConnector(n, key) then map[] else SubsOf(n, key)
  {
    if op.inUse {
      var m := WithState(n, op.key, StateOf(n, op.key).(requested := true));
      SendConnectKeepsSubs(m, op.key, op.order, op.ok, key);
    }
  }

  lemma DropPeerChangesSubs(n: Node, c: Client, key: Key)
    ensures SubsOf(RemovePeer(n, c), key) ==
            if Clears(n, DropPeer(c), key) then map[] else Operated(n, DropPeer(c), key)
  {
  }

  lemma RequestChangesSubs(n: Node, c: Client, k: Key, inUse: bool, created: bool, key: Key)
    ensures SubsOf(HandleRequest(n, c, k, inUse, created), key) ==
            Operated(n, RequestMessage(c, k, inUse, created), key)
  {
  }

  lemma SubscribeChangesSubs(n: Node, c: Client, provided: Handle, event: Event, subscribe: bool, key: Key)
    ensures SubsOf(HandleSubscribe(n, c, provided, event, subscribe), key) ==
            Operated(n, SubscribeMessage(c, provided, event, subscribe), key)
  {
  }

  lemma ConnectServiceChangesSubs(n: Node, c: Client, k: Key, required: Handle, inUse: bool, key: Key)
    ensures SubsOf(HandleConnectService(n, c, k, required, inUse), key) ==
            Operated(n, ConnectServiceMessage(c, k, required, inUse), key)
  {
  }

  lemma PlainStepChangesSubs(n: Node, op: Binding.Op, key: Key)
    requires !op.ConnectReplyMessage? && !op.OfferMessage? && !op.LocalRequest? && !op.DropPeer?
    ensures SubsOf(Step(n, op), key) == Operated(n, op, key)
  {
    if op.RequestMessage? {
      RequestChangesSubs(n, op.client, op.key, op.inUse, op.created, key);
    } else if op.SubscribeMessage? {
      SubscribeChangesSubs(n, op.client, op.provided, op.event, op.subscribe, key);
    } else if op.ConnectServiceMessage? {
      ConnectServiceChangesSubs(n, op.client, op.key, op.required, op.inUse, key);
    }
  }

  lemma StepKeepsNoEmptySet(n: Node, op: Binding.Op, key: Key)
    requires NoEmptySet(SubsOf(n, key))
    ensures NoEmptySet(SubsOf(Step(n, op), key))
  {
    StepChangesSubs(n, op, key);
    var sub := SubscriberOp(n, op, key);
    if sub.Some? {
      AfterRefinesEffect(SubsOf(n, key), sub.value);
    }
  }

  lemma {:induction false} RunsStoreNoEmptySet(ops: seq<Binding.Op>, key: Key)
    ensures NoEmptySet(SubsOf(Run(INIT, ops), key))
  {
    if ops != [] {
      var before := ops[..|ops| - 1];
      RunsStoreNoEmptySet(before, key);
      StepKeepsNoEmptySet(Run(INIT, before), ops[|ops| - 1], key);
    }
  }

  /** The step's calls are the whole change of the event exactly when it leaves nothing unannounced. */
  lemma IssuedIsEdgeIff(n: Node, op: Binding.Op, key: Key, e: Event)
    requires NoEmptySet(SubsOf(n, key))
    ensures var before := SubscribersOf(SubsOf(n, key), e);
            var after := SubscribersOf(SubsOf(Step(n, op), key), e);
            && (Unannounced(n, op, key, e) <==> Issued(n, op, key, e) != Edge(e, before, after))
            && (Issued(n, op, key, e) == [] || Issued(n, op, key, e) == Edge(e, before, after))
  {
    StepChangesSubs(n, op, key);
    StepKeepsNoEmptySet(n, op, key);
    var sub := SubscriberOp(n, op, key);
    if sub.Some? {
      CrossesIsEdge(sub.value, SubsOf(n, key), e);
      AfterRefinesEffect(SubsOf(n, key), sub.value);
    }
  }

  lemma EdgeAgrees(before: set<Endpoint>, after: set<Endpoint>, mine: seq<Call>, issued: seq<Call>, e: Event)
    requires ViewAgrees(before, mine, e)
    requires issued == [] || issued == Edge(e, before, after)
    ensures ViewAgrees(after, mine + issued, e) <==> issued == Edge(e, before, after)
  {
    assert mine != [] ==> (mine[|mine| - 1] == Subscribe(e) <==> |mine| % 2 == 1);
  }

  lemma StepAgreesIff(n: Node, op: Binding.Op, key: Key, e: Event, log: seq<Call>)
    requires NoEmptySet(SubsOf(n, key)) && ViewAgrees(SubscribersOf(SubsOf(n, key), e), log, e)
    ensures ViewAgrees(SubscribersOf(SubsOf(Step(n, op), key), e), log + Issued(n, op, key, e), e) <==>
            !Unannounced(n, op, key, e)
  {
    IssuedIsEdgeIff(n, op, key, e);
    StepChangesSubs(n, op, key);
    EdgeAgrees(SubscribersOf(SubsOf(n, key), e), SubscribersOf(SubsOf(Step(n, op), key), e), log,
               Issued(n, op, key, e), e);
  }

  ghost predicate AgreesThroughout(ops: seq<Binding.Op>, key: Key, e: Event) {
    AgreesAfter(ops, key, e) && (ops == [] || AgreesThroughout(ops[..|ops| - 1], key, e))
  }

  predicate EverythingAnnounced(ops: seq<Binding.Op>, key: Key, e: Event) {
    ops == [] ||
    var before := ops[..|ops| - 1];
    EverythingAnnounced(before, key, e) && !Unannounced(Run(INIT, before), ops[|ops| - 1], key, e)
  }

  /** Over every run: the connector's view of the event agrees with the stored set all along exactly when no step leaves
      the event unannounced. */
  lemma {:induction false} ViewsAgreeIff(ops: seq<Binding.Op>, key: Key, e: Event)
    ensures AgreesThroughout(ops, key, e) <==> EverythingAnnounced(ops, key, e)
  {
    if ops != [] {
      var before := ops[..|ops| - 1];
      ViewsAgreeIff(before, key, e);
      if AgreesThroughout(before, key, e) {
        RunsStoreNoEmptySet(before, key);
        StepAgreesIff(Run(INIT, before), ops[|ops| - 1], key, e, CallLog(before, key, e));
      }
    }
  }
}
