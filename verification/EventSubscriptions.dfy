/** Event subscriptions of many peers merged into one SOCom subscription (service_state.hpp). */
module EventSubscriptions {
  import opened Prelude
  import opened ConnectionMetadata

  type Event = nat

  datatype Endpoint = Endpoint(client: Client, provided: Handle)

  type Subscribers = map<Event, set<Endpoint>>

  /** A call issued on the client connector of the service. */
  datatype Call = Subscribe(event: Event) | Unsubscribe(event: Event)

  datatype Op =
    | AddSubscriber(endpoint: Endpoint, event: Event)
    | RemoveSubscriber(endpoint: Endpoint, event: Event)
    | DropConnection(endpoint: Endpoint)
    | DropClient(client: Client)

  function SubscribersOf(subs: Subscribers, e: Event): set<Endpoint> {
    if e in subs then subs[e] else {}
  }

  function OfClient(s: set<Endpoint>, c: Client): set<Endpoint> {
    set p | p in s && p.client == c
  }

  /** The reference: a plain set of endpoints for each event. */
  function Effect(op: Op, e: Event, s: set<Endpoint>): set<Endpoint> {
    match op
    case AddSubscriber(p, ev) => if ev == e then s + {p} else s
    case RemoveSubscriber(p, ev) => if ev == e then s - {p} else s
    case DropConnection(p) => s - {p}
    case DropClient(c) => s - OfClient(s, c)
  }

  function Put(subs: Subscribers, e: Event, s: set<Endpoint>): Subscribers {
    if s == {} then subs - {e} else subs[e := s]
  }

  /** What an operation leaves in the table of subscriber sets. */
  function After(subs: Subscribers, op: Op): Subscribers {
    match op
    case AddSubscriber(p, e) => subs[e := SubscribersOf(subs, e) + {p}]
    case RemoveSubscriber(p, e) => if e in subs then Put(subs, e, subs[e] - {p}) else subs
    case DropConnection(_) => map e | e in subs && Effect(op, e, subs[e]) != {} :: Effect(op, e, subs[e])
    case DropClient(_) => map e | e in subs && Effect(op, e, subs[e]) != {} :: Effect(op, e, subs[e])
  }

  ghost predicate NoEmptySet(subs: Subscribers) {
    forall e :: e in subs ==> subs[e] != {}
  }

  function CallsOf(calls: seq<Call>, e: Event): seq<Call> {
    if calls == [] then []
    else CallsOf(calls[..|calls| - 1], e) +
         (if calls[|calls| - 1].event == e then [calls[|calls| - 1]] else [])
  }

  /** The call due when the subscriber set of an event goes from `before` to `after`. */
  function Edge(e: Event, before: set<Endpoint>, after: set<Endpoint>): seq<Call> {
    if before == {} && after != {} then [Subscribe(e)]
    else if before != {} && after == {} then [Unsubscribe(e)]
    else []
  }

  /** The connector's own view of an event, given by the calls it received for it, agrees with the stored set. */
  ghost predicate ViewAgrees(s: set<Endpoint>, mine: seq<Call>, e: Event) {
    && Alternates(mine, Subscribe(e))
    && (s != {} <==> mine != [] && mine[|mine| - 1] == Subscribe(e))
  }

  ghost predicate InStep(subs: Subscribers, calls: seq<Call>, e: Event) {
    ViewAgrees(SubscribersOf(subs, e), CallsOf(calls, e), e)
  }

  ghost predicate Consistent(subs: Subscribers, calls: seq<Call>) {
    forall e: Event :: InStep(subs, calls, e)
  }

  /** One operation, with the calls it issued when a client connector is in place or not. */
  ghost predicate Stepped(op: Op, connector: bool, subs: Subscribers, calls: seq<Call>,
                          subs': Subscribers, calls': seq<Call>) {
    && subs' == After(subs, op)
    && forall e: Event :: CallsOf(calls', e) == CallsOf(calls, e) +
         (if connector then Edge(e, SubscribersOf(subs, e), SubscribersOf(subs', e)) else [])
  }

  /** The table refines the plain sets, and never stores an empty one. */
  lemma AfterRefinesEffect(subs: Subscribers, op: Op)
    requires NoEmptySet(subs)
    ensures NoEmptySet(After(subs, op))
    ensures forall e: Event :: SubscribersOf(After(subs, op), e) == Effect(op, e, SubscribersOf(subs, e))
  {
  }

  lemma CallsOfPush(calls: seq<Call>, call: Call, e: Event)
    ensures CallsOf(calls + [call], e) == CallsOf(calls, e) + if call.event == e then [call] else []
  {
    assert (calls + [call])[..|calls|] == calls;
  }

  lemma {:induction false} CallsOfEvent(calls: seq<Call>, e: Event)
    ensures forall call :: call in CallsOf(calls, e) ==> call.event == e
  {
    if calls != [] {
      CallsOfEvent(calls[..|calls| - 1], e);
    }
  }

  lemma StepKeepsConsistent(op: Op, subs: Subscribers, calls: seq<Call>, subs': Subscribers, calls': seq<Call>)
    requires NoEmptySet(subs) && Consistent(subs, calls)
    requires Stepped(op, true, subs, calls, subs', calls')
    ensures NoEmptySet(subs') && Consistent(subs', calls')
  {
    AfterRefinesEffect(subs, op);
    forall e: Event ensures InStep(subs', calls', e) {
      assert InStep(subs, calls, e);
      var edge := Edge(e, SubscribersOf(subs, e), SubscribersOf(subs', e));
      var mine := CallsOf(calls, e);
      assert CallsOf(calls', e) == mine + edge;
      assert mine != [] ==> (mine[|mine| - 1] == Subscribe(e) <==> |mine| % 2 == 1);
    }
  }

  /** The subscribers the plain sets hold after a run. */
  function RunEffect(ops: seq<Op>, e: Event): set<Endpoint> {
    if ops == [] then {} else Effect(ops[|ops| - 1], e, RunEffect(ops[..|ops| - 1], e))
  }

  /** The operation ends the subscription of the endpoint to the event. */
  predicate Ends(op: Op, e: Event, p: Endpoint) {
    op == RemoveSubscriber(p, e) || op == DropConnection(p) || op == DropClient(p.client)
  }

  predicate SubscribedSince(ops: seq<Op>, i: nat, e: Event, p: Endpoint)
    requires i < |ops|
  {
    ops[i] == AddSubscriber(p, e) && forall j :: i < j < |ops| ==> !Ends(ops[j], e, p)
  }

  /** After a run an endpoint is subscribed to an event exactly when it was subscribed to it at some time and neither
      it, nor its connection, nor its client was taken out since. */
  lemma {:induction false} SubscribersAreHistory(ops: seq<Op>, e: Event, p: Endpoint)
    ensures p in RunEffect(ops, e) <==> exists i :: 0 <= i < |ops| && SubscribedSince(ops, i, e, p)
  {
    if ops != [] {
      var before, last := ops[..|ops| - 1], |ops| - 1;
      SubscribersAreHistory(before, e, p);
      if ops[last] == AddSubscriber(p, e) {
        assert SubscribedSince(ops, last, e, p);
      } else if p in RunEffect(ops, e) {
        var i :| 0 <= i < |before| && SubscribedSince(before, i, e, p);
        assert SubscribedSince(ops, i, e, p);
      } else if i :| 0 <= i < |ops| && SubscribedSince(ops, i, e, p) {
        assert SubscribedSince(before, i, e, p);
      }
    }
  }

  /** Over every run with the connector in place: calls alternate, the last one is a subscribe exactly
      when some endpoint is subscribed, the table refines the plain sets and stores no empty one. */
  lemma {:induction false} AggregationRefinesSets(ops: seq<Op>, subs: seq<Subscribers>, calls: seq<seq<Call>>)
    requires |subs| == |calls| == |ops| + 1
    requires subs[0] == map[] && calls[0] == []
    requires forall i :: 0 <= i < |ops| ==> Stepped(ops[i], true, subs[i], calls[i], subs[i + 1], calls[i + 1])
    ensures NoEmptySet(subs[|ops|]) && Consistent(subs[|ops|], calls[|ops|])
    ensures forall e: Event :: SubscribersOf(subs[|ops|], e) == RunEffect(ops, e)
  {
    if ops != [] {
      var n := |ops| - 1;
      AggregationRefinesSets(ops[..n], subs[..n + 1], calls[..n + 1]);
      assert Stepped(ops[n], true, subs[n], calls[n], subs[n + 1], calls[n + 1]);
      StepKeepsConsistent(ops[n], subs[n], calls[n], subs[n + 1], calls[n + 1]);
      AfterRefinesEffect(subs[n], ops[n]);
    }
  }

  /** The operation gives the event its first subscriber or takes its last one. */
  predicate Crosses(op: Op, subs: Subscribers, e: Event) {
    match op
    case AddSubscriber(p, ev) => ev == e && e !in subs
    case RemoveSubscriber(p, ev) => ev == e && e in subs && subs[e] == {p}
    case DropConnection(p) => e in subs && subs[e] == {p}
    case DropClient(c) => e in subs && forall p :: p in subs[e] ==> p.client == c
  }

  lemma OnlyOfClient(s: set<Endpoint>, c: Client)
    ensures s - OfClient(s, c) == {} <==> forall p :: p in s ==> p.client == c
  {
    if s - OfClient(s, c) == {} {
      forall p | p in s ensures p.client == c {
        assert p !in s - OfClient(s, c);
      }
    }
  }

  /** Edges are exactly the crossings, and subscribing is the only way up. */
  lemma CrossesIsEdge(op: Op, subs: Subscribers, e: Event)
    requires NoEmptySet(subs)
    ensures Edge(e, SubscribersOf(subs, e), SubscribersOf(After(subs, op), e)) ==
            if !Crosses(op, subs, e) then [] else if op.AddSubscriber? then [Subscribe(e)] else [Unsubscribe(e)]
  {
    AfterRefinesEffect(subs, op);
    if e in subs {
      match op {
        case AddSubscriber(_, _) =>
        case RemoveSubscriber(p, _) => assert subs[e] - {p} == {} <==> subs[e] == {p};
        case DropConnection(p) => assert subs[e] - {p} == {} <==> subs[e] == {p};
        case DropClient(c) => OnlyOfClient(subs[e], c);
      }
    }
  }

  /** An operation without a connector keeps the two views in step exactly when no event gains its
      first or loses its last subscriber. */
  lemma WithoutConnectorKeepsIff(op: Op, subs: Subscribers, calls: seq<Call>, subs': Subscribers, calls': seq<Call>)
    requires NoEmptySet(subs) && Consistent(subs, calls)
    requires Stepped(op, false, subs, calls, subs', calls')
    ensures Consistent(subs', calls') <==> forall e: Event :: !Crosses(op, subs, e)
  {
    forall e: Event ensures InStep(subs', calls', e) <==> !Crosses(op, subs, e) {
      assert InStep(subs, calls, e);
      assert CallsOf(calls', e) == CallsOf(calls, e);
      CrossesIsEdge(op, subs, e);
    }
    if Consistent(subs', calls') {
      forall e: Event ensures !Crosses(op, subs, e) {
        assert InStep(subs', calls', e);
      }
    }
  }

  /** Clearing all sets without unsubscribing keeps the views in step exactly when there was nothing to clear. */
  lemma ClearKeepsIff(subs: Subscribers, calls: seq<Call>)
    requires NoEmptySet(subs) && Consistent(subs, calls)
    ensures Consistent(map[], calls) <==> subs == map[]
  {
    if subs != map[] {
      var e :| e in subs;
      assert InStep(subs, calls, e) && !InStep(map[], calls, e);
    }
  }

  /** A removal has been carried out for `e`, unless `e` is still to be visited. */
  ghost predicate Visited(op: Op, connector: bool, subs: Subscribers, calls: seq<Call>,
                          subs': Subscribers, calls': seq<Call>, todo: set<Event>, e: Event) {
    var before := SubscribersOf(subs, e);
    var after := SubscribersOf(subs', e);
    && after == (if e in todo then before else Effect(op, e, before))
    && CallsOf(calls', e) == CallsOf(calls, e) + if connector then Edge(e, before, after) else []
  }

  ghost predicate Progress(op: Op, connector: bool, subs: Subscribers, calls: seq<Call>,
                           subs': Subscribers, calls': seq<Call>, todo: set<Event>) {
    && NoEmptySet(subs')
    && todo <= subs'.Keys
    && forall e: Event :: Visited(op, connector, subs, calls, subs', calls', todo, e)
  }

  lemma ProgressDone(op: Op, connector: bool, subs: Subscribers, calls: seq<Call>, subs': Subscribers,
                     calls': seq<Call>)
    requires NoEmptySet(subs) && Progress(op, connector, subs, calls, subs', calls', {})
    ensures Stepped(op, connector, subs, calls, subs', calls')
  {
    AfterRefinesEffect(subs, op);
    forall e: Event
      ensures SubscribersOf(subs', e) == SubscribersOf(After(subs, op), e)
      ensures CallsOf(calls', e) == CallsOf(calls, e) +
                (if connector then Edge(e, SubscribersOf(subs, e), SubscribersOf(subs', e)) else [])
    {
      assert Visited(op, connector, subs, calls, subs', calls', {}, e);
    }
    SameSetsSameTable(subs', After(subs, op));
  }

  lemma SameSetsSameTable(subs: Subscribers, subs': Subscribers)
    requires NoEmptySet(subs) && NoEmptySet(subs')
    requires forall e: Event :: SubscribersOf(subs, e) == SubscribersOf(subs', e)
    ensures subs == subs'
  {
    forall e: Event ensures e in subs <==> e in subs' {
      assert SubscribersOf(subs, e) == SubscribersOf(subs', e);
    }
    forall e | e in subs ensures subs[e] == subs'[e] {
      assert SubscribersOf(subs, e) == SubscribersOf(subs', e);
    }
  }

  class ServiceEvents {
    var subs: Subscribers
    var connector: bool
    var calls: seq<Call>

    constructor (connector: bool)
      ensures subs == map[] && calls == [] && this.connector == connector
    {
      subs, calls, this.connector := map[], [], connector;
    }

    method Issue(call: Call)
      modifies this`calls
      ensures forall e: Event :: CallsOf(calls, e) == CallsOf(old(calls), e) +
                if connector && call.event == e then [call] else []
    {
      forall e: Event { CallsOfPush(calls, call, e); }
      if connector {
        calls := calls + [call];
      }
    }

    method UpdateEventSubscription(endpoint: Endpoint, event: Event, subscribe: bool)
      requires NoEmptySet(subs)
      modifies this`subs, this`calls
      ensures Stepped(if subscribe then AddSubscriber(endpoint, event) else RemoveSubscriber(endpoint, event),
                      connector, old(subs), old(calls), subs, calls)
      ensures NoEmptySet(subs)
    {
      if subscribe {
        var subscribers := SubscribersOf(subs, event);
        var inserted := endpoint !in subscribers;
        subs := subs[event := subscribers + {endpoint}];
        if inserted && |subs[event]| == 1 {
          assert subscribers == {} by {
            assert subs[event] == subscribers + {endpoint} && |subscribers| == 0;
          }
          Issue(Subscribe(event));
        } else {
          assert inserted ==> |subs[event]| == |subscribers| + 1;
        }
        return;
      }
      if event !in subs {
        return;
      }
      var rest := subs[event] - {endpoint};
      if rest != {} {
        subs := subs[event := rest];
        return;
      }
      Issue(Unsubscribe(event));
      subs := subs - {event};
    }

    /** remove_event_subscriptions: the inner loop erases the endpoints of one client. */
    method RemoveEventSubscriptions(client: Client)
      requires NoEmptySet(subs)
      modifies this`subs, this`calls
      ensures Stepped(DropClient(client), connector, old(subs), old(calls), subs, calls)
      ensures NoEmptySet(subs)
    {
      ghost var op := DropClient(client);
      var todo := subs.Keys;
      while todo != {}
        invariant Progress(op, connector, old(subs), old(calls), subs, calls, todo)
        decreases todo
      {
        var event :| event in todo;
        var subscribers := EraseClient(subs[event], client);
        Finish(op, event, subscribers, old(subs), old(calls), todo);
        todo := todo - {event};
      }
      ProgressDone(op, connector, old(subs), old(calls), subs, calls);
    }

    method EraseClient(s: set<Endpoint>, client: Client) returns (subscribers: set<Endpoint>)
      ensures subscribers == s - OfClient(s, client)
    {
      subscribers := s;
      var left := s;
      while left != {}
        invariant left <= s
        invariant forall p :: p in subscribers <==> p in s && (p in left || p.client != client)
        decreases left
      {
        var endpoint :| endpoint in left;
        left := left - {endpoint};
        if endpoint.client == client {
          subscribers := subscribers - {endpoint};
        }
      }
    }

    method RemoveEventSubscription(endpoint: Endpoint)
      requires NoEmptySet(subs)
      modifies this`subs, this`calls
      ensures Stepped(DropConnection(endpoint), connector, old(subs), old(calls), subs, calls)
      ensures NoEmptySet(subs)
    {
      ghost var op := DropConnection(endpoint);
      var todo := subs.Keys;
      while todo != {}
        invariant Progress(op, connector, old(subs), old(calls), subs, calls, todo)
        decreases todo
      {
        var event :| event in todo;
        Finish(op, event, subs[event] - {endpoint}, old(subs), old(calls), todo);
        todo := todo - {event};
      }
      ProgressDone(op, connector, old(subs), old(calls), subs, calls);
    }

    /** The common tail of the two removal loops for one event. */
    method Finish(ghost op: Op, event: Event, subscribers: set<Endpoint>,
                  ghost subs0: Subscribers, ghost calls0: seq<Call>, ghost todo: set<Event>)
      requires Progress(op, connector, subs0, calls0, subs, calls, todo)
      requires event in todo && subscribers == Effect(op, event, subs[event])
      modifies this`subs, this`calls
      ensures Progress(op, connector, subs0, calls0, subs, calls, todo - {event})
    {
      ghost var subs1, calls1 := subs, calls;
      assert Visited(op, connector, subs0, calls0, subs, calls, todo, event);
      if subscribers != {} {
        subs := subs[event := subscribers];
      } else {
        Issue(Unsubscribe(event));
        subs := subs - {event};
      }
      forall e: Event
        ensures Visited(op, connector, subs0, calls0, subs, calls, todo - {event}, e)
      {
        assert Visited(op, connector, subs0, calls0, subs1, calls1, todo, e);
        assert CallsOf(calls, e) == CallsOf(calls1, e) +
                 if connector && subscribers == {} && e == event then [Unsubscribe(event)] else [];
      }
    }
  }
}
