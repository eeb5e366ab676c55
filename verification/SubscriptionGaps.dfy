/** Two runs after which a client connector's view of an event is behind the stored subscriber set. */
module SubscriptionGaps {
  import opened Prelude
  import opened ConnectionMetadata
  import opened EventSubscriptions
  import opened Binding
  import opened BindingSafety
  import opened SubscriptionRuns
  import HC = HandleClash

  /** A run that ends in `n`, with the calls it made on the connector of key 0 for event 0. */
  ghost predicate Called(ops: seq<Binding.Op>, n: Node, log: seq<Call>) {
    EnabledRun(INIT, ops) && Run(INIT, ops) == n && CallLog(ops, 0, 0) == log
  }

  lemma Then(ops: seq<Binding.Op>, n: Node, log: seq<Call>, op: Binding.Op, n': Node)
    requires Called(ops, n, log) && Enabled(n, op) && Step(n, op) == n'
    ensures Called(ops + [op], n', log + Issued(n, op, 0, 0))
  {
    assert (ops + [op])[..|ops + [op]| - 1] == ops;
  }

  lemma QuietThen(ops: seq<Binding.Op>, n: Node, log: seq<Call>, op: Binding.Op, n': Node)
    requires Called(ops, n, log) && Enabled(n, op) && Step(n, op) == n' && Issued(n, op, 0, 0) == []
    ensures Called(ops + [op], n', log)
  {
    Then(ops, n, log, op, n');
    assert log + [] == log;
  }

  /** Client 1 is connected to key 0, which a local server provides. */
  const CONNECTED := [AddClient(1), RequestMessage(1, 0, true, true), ServiceStateChange(0, true), AddClient(2),
                      ConnectServiceMessage(1, 0, 1, true)]

  lemma KeyIsServed()
    ensures Called(CONNECTED[..3], HC.SERVED, [])
  {
    assert {} + {1} == {1};
    QuietThen([], INIT, [], AddClient(1), HC.WAITING);
    assert [] + [AddClient(1)] == CONNECTED[..1];
    HC.RequestIsServed();
    QuietThen(CONNECTED[..1], HC.WAITING, [], CONNECTED[1], HC.REQUESTED);
    assert CONNECTED[..1] + [CONNECTED[1]] == CONNECTED[..2];
    QuietThen(CONNECTED[..2], HC.REQUESTED, [], CONNECTED[2], HC.SERVED);
    assert CONNECTED[..2] + [CONNECTED[2]] == CONNECTED[..3];
  }

  lemma ClientIsConnected()
    ensures Called(CONNECTED, HC.SERVING, [])
  {
    KeyIsServed();
    assert {1} + {2} == {1, 2};
    QuietThen(CONNECTED[..3], HC.SERVED, [], AddClient(2), HC.AVAILABLE);
    assert CONNECTED[..3] + [AddClient(2)] == CONNECTED[..4];
    assert EntriesOf(HC.AVAILABLE.table, 1) + [Ids(0, 1, 1, Provider)] == [Ids(0, 1, 1, Provider)];
    QuietThen(CONNECTED[..4], HC.AVAILABLE, [], CONNECTED[4], HC.SERVING);
    assert CONNECTED[..4] + [CONNECTED[4]] == CONNECTED;
  }

  // Client 1 subscribes, and client 2 offers the key and withdraws the offer.

  const OFFERED := CONNECTED + [SubscribeMessage(1, 1, 0, true)] + [OfferMessage(2, 0, true, [2], {2})]

  const CLEARED := OFFERED + [OfferMessage(2, 0, false, [], {})]

  lemma ClientSubscribes()
    ensures Called(CONNECTED + [SubscribeMessage(1, 1, 0, true)], HC.SUBSCRIBED, [Subscribe(0)])
  {
    ClientIsConnected();
    assert FirstWithLocal([Ids(0, 1, 1, Provider)], 1) == Some(Ids(0, 1, 1, Provider));
    assert {} + {Endpoint(1, 1)} == {Endpoint(1, 1)};
    Then(CONNECTED, HC.SERVING, [], SubscribeMessage(1, 1, 0, true), HC.SUBSCRIBED);
    assert [] + [Subscribe(0)] == [Subscribe(0)];
  }

  lemma ProviderOffers() returns (n: Node)
    ensures Called(OFFERED, n, [Subscribe(0)]) && 2 in n.connections
  {
    ClientSubscribes();
    var op := OfferMessage(2, 0, true, [2], {2});
    n := Step(HC.SUBSCRIBED, op);
    assert Visits([2], StateOf(HC.SUBSCRIBED, 0).offers.Keys + {2});
    QuietThen(CONNECTED + [SubscribeMessage(1, 1, 0, true)], HC.SUBSCRIBED, [Subscribe(0)], op, n);
    OfferKeepsConnections(HC.SUBSCRIBED, 2, 0, [2], {2});
  }

  lemma OfferKeepsConnections(n: Node, c: Client, key: Key, order: seq<Client>, ok: set<Client>)
    ensures HandleOffer(n, c, key, true, order, ok).connections == n.connections
  {
    var s := StateOf(n, key);
    var offer := if c in s.offers then s.offers[c].(offered := true) else Offer(true, false, 0);
    SendConnectKeepsConnections(WithState(n, key, s.(offers := s.offers[c := offer])), key, order, ok);
  }

  lemma {:induction false} SendConnectKeepsConnections(n: Node, key: Key, order: seq<Client>, ok: set<Client>)
    ensures SendConnect(n, key, order, ok).connections == n.connections
  {
    if order != [] {
      SendConnectKeepsConnections(n, key, order[..|order| - 1], ok);
    }
  }

  /** A withdrawn offer empties the set while the connector stays subscribed. */
  lemma WithdrawnOfferLeavesAGap()
    ensures EnabledRun(INIT, CLEARED) && !AgreesAfter(CLEARED, 0, 0)
    ensures SubsOf(Run(INIT, CLEARED), 0) == map[] && CallLog(CLEARED, 0, 0) == [Subscribe(0)]
  {
    var n := ProviderOffers();
    var op := OfferMessage(2, 0, false, [], {});
    QuietThen(OFFERED, n, [Subscribe(0)], op, Step(n, op));
  }

  // Client 2 requests the key and connects, client 1 disconnects from the service, and client 2 subscribes.

  const WANTED := HC.SERVING.(interested := map[0 := {1, 2}])

  const SHARED := WANTED.(table := map[1 := [Ids(0, 1, 1, Provider)], 2 := [Ids(0, 2, 1, Provider)]], next := 3)

  const DEAF := SHARED.(states := map[0 := HC.OWN.(clientConnector := false)],
                        table := map[2 := [Ids(0, 2, 1, Provider)]])

  const JOINED := CONNECTED + [RequestMessage(2, 0, true, true)] + [ConnectServiceMessage(2, 0, 1, true)]

  const LEAVING := JOINED + [ConnectServiceMessage(1, 0, 1, false)]

  const UNHEARD := LEAVING + [SubscribeMessage(2, 2, 0, true)]

  lemma ConnectorIsRemoved()
    ensures HandleConnectService(SHARED, 1, 0, 1, false) == DEAF
  {
    assert FirstWithRemote([Ids(0, 1, 1, Provider)], 1) == Some(Ids(0, 1, 1, Provider));
    assert WithoutRemote([Ids(0, 1, 1, Provider)], 1) == [];
    assert After(map[], DropConnection(Endpoint(1, 1))) == map[];
    assert RemoveMapping(SHARED.table, 1, 1) == DEAF.table;
    assert ClearPendingOf(SHARED.pending, 0, 1) == map[];
    assert SHARED.states[0 := DEAF.states[0]] == DEAF.states;
  }

  lemma SecondClientIsConnected()
    ensures Called(JOINED, SHARED, [])
  {
    ClientIsConnected();
    assert InterestedIn(HC.SERVING, 0) + {2} == {1, 2};
    assert HC.SERVING.interested[0 := {1, 2}] == WANTED.interested;
    QuietThen(CONNECTED, HC.SERVING, [], RequestMessage(2, 0, true, true), WANTED);
    assert EntriesOf(WANTED.table, 2) + [Ids(0, 2, 1, Provider)] == [Ids(0, 2, 1, Provider)];
    assert WANTED.table[2 := [Ids(0, 2, 1, Provider)]] == SHARED.table;
    QuietThen(CONNECTED + [RequestMessage(2, 0, true, true)], WANTED, [], ConnectServiceMessage(2, 0, 1, true), SHARED);
  }

  lemma FirstClientDisconnects()
    ensures Called(LEAVING, DEAF, [])
  {
    SecondClientIsConnected();
    ConnectorIsRemoved();
    assert After(map[], DropConnection(Endpoint(1, 1))) == map[];
    QuietThen(JOINED, SHARED, [], ConnectServiceMessage(1, 0, 1, false), DEAF);
  }

  /** One client's Connect_service that ends its use removes the connector for all: the next subscription is not
      told. */
  lemma RemovedConnectorLeavesAGap()
    ensures EnabledRun(INIT, UNHEARD) && !AgreesAfter(UNHEARD, 0, 0)
    ensures SubsOf(Run(INIT, UNHEARD), 0) == map[0 := {Endpoint(2, 2)}] && CallLog(UNHEARD, 0, 0) == []
  {
    FirstClientDisconnects();
    var op := SubscribeMessage(2, 2, 0, true);
    assert FirstWithLocal([Ids(0, 2, 1, Provider)], 2) == Some(Ids(0, 2, 1, Provider));
    assert {} + {Endpoint(2, 2)} == {Endpoint(2, 2)};
    QuietThen(LEAVING, DEAF, [], op, Step(DEAF, op));
  }
}
