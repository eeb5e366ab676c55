/** A run in which one handle stands for two keys: an acknowledgement for one service frees a slot of
    another one while a peer still reads it. */
module HandleClash {
  import opened Prelude
  import opened ConnectionMetadata
  import opened EventSubscriptions
  import SM = SlotManager
  import opened AllocationTable
  import opened SlotLifetime
  import opened LiveRuns
  import B = Binding

  // Keys 0 and 1; client 1 reads event 0 of key 0, client 2 reads event 0 of key 1 and offers key 0 for a while.

  const OWN := B.ServiceState(true, map[], true, false, false, map[])

  const WAITING := B.INIT.(connections := {1})

  const REQUESTED := WAITING.(states := map[0 := OWN.(requested := false)], interested := map[0 := {1}], bridged := {0})

  const SERVED := REQUESTED.(states := map[0 := OWN], localOffers := map[0 := true])

  /** Client 2 arrives when the key is requested, and so is asked for it. */
  const AVAILABLE := SERVED.(connections := {1, 2})

  /** Client 1 is connected to key 0, which a local server provides. */
  const SERVING := AVAILABLE.(table := map[1 := [Ids(0, 1, 1, Provider)]], next := 2)

  const SUBSCRIBED := SERVING.(states := map[0 := OWN.(subs := map[0 := {Endpoint(1, 1)}])])

  /** Client 1 has lost interest in the key. */
  const UNUSED := SERVING.(table := map[], interested := map[0 := {}])

  const WITHDRAWN := UNUSED.(localOffers := map[0 := false])

  const REMOTE := OWN.(offers := map[2 := B.Offer(true, true, 2)])

  /** The local server is gone; client 2 offers key 0 and is asked with handle 2. */
  const ASKING := WITHDRAWN.(states := map[0 := REMOTE], pending := map[2 := B.Pending(0, 2)], next := 3,
                             sent := [B.Sent(2, 0, 2)])

  const CONSUMING := ASKING.(pending := map[], table := map[2 := [Ids(0, 1, 2, Consumer)]], accepted := {2})

  /** The server connector made for the reply pairs with the client connector. */
  const PAIRED := CONSUMING.(states := map[0 := REMOTE.(enabledConnector := true)], localOffers := map[0 := true])

  const ASKED := PAIRED.(states := PAIRED.states[1 := OWN.(requested := false)],
                         interested := map[0 := {}, 1 := {2}], bridged := {0, 1})

  const OFFERING := ASKED.(states := PAIRED.states[1 := OWN], localOffers := map[0 := true, 1 := true])

  /** Client 2 has connected to key 1 with its own handle 2. */
  const CLASHING := OFFERING.(table := map[2 := [Ids(0, 1, 2, Consumer), Ids(1, 3, 2, Provider)]], next := 4)

  const BOTH := CLASHING.(states := PAIRED.states[1 := OWN.(subs := map[0 := {Endpoint(2, 3)}])])

  /** Client 2 is gone, and with it its offer, its subscriptions and the server connector made for it. */
  const LEFT := BOTH.(connections := {1}, states := map[0 := OWN, 1 := OWN], interested := map[], table := map[])

  const REJOINED := LEFT.(interested := map[0 := {1}])

  const RETURNED := REJOINED.(table := map[1 := [Ids(0, 4, 2, Provider)]], next := 5)

  const BYTE: seq<Byte> := [0]

  const PUBLISHED := KeyMemory(1, BYTE, [1], [Allocation(Some(Ours), 1)], {})

  const FREED := KeyMemory(1, BYTE, [0], [FREE], {})

  const READER := Token(1, 1, BYTE, InFlight)

  const READING := READER.(stage := Held)

  const SECOND := Token(2, 2, BYTE, InFlight)

  // Key 0 becomes available to client 1.

  const ARRIVE := [Tables(B.AddClient(1))]

  const AFTER_ARRIVE := Live(System(WAITING, map[], map[]), {})

  lemma Arriving()
    ensures Leads(START, ARRIVE, AFTER_ARRIVE)
  {
    assert {} + {1} == {1};
    TableStep(INIT, {}, B.AddClient(1), WAITING, {});
  }

  const REQUEST := [Tables(B.RequestMessage(1, 0, true, true)), Tables(B.ServiceStateChange(0, true)),
                    Tables(B.AddClient(2))]

  const AFTER_REQUEST := Live(System(AVAILABLE, map[], map[]), {})

  lemma RequestIsServed()
    ensures B.HandleRequest(WAITING, 1, 0, true, true) == REQUESTED
    ensures B.ChangeServiceState(REQUESTED, 0, true) == SERVED
  {
    assert B.InterestedIn(WAITING, 0) + {1} == {1} && WAITING.bridged + {0} == {0};
  }

  lemma Requesting()
    ensures Leads(AFTER_ARRIVE, REQUEST, AFTER_REQUEST)
  {
    RequestIsServed();
    TableStep(System(WAITING, map[], map[]), {}, B.RequestMessage(1, 0, true, true), REQUESTED, {});
    TableStep(System(REQUESTED, map[], map[]), {}, B.ServiceStateChange(0, true), SERVED, {});
    assert {1} + {2} == {1, 2};
    TableStep(System(SERVED, map[], map[]), {}, B.AddClient(2), AVAILABLE, {});
    JoinThrice(AFTER_ARRIVE, [REQUEST[0]], Live(System(REQUESTED, map[], map[]), {}), [REQUEST[1]],
               Live(System(SERVED, map[], map[]), {}), [REQUEST[2]], AFTER_REQUEST);
    assert [REQUEST[0]] + [REQUEST[1]] + [REQUEST[2]] == REQUEST;
  }

  lemma Opens()
    ensures Reaches(ARRIVE + REQUEST, AFTER_REQUEST)
  {
    Arriving();
    Requesting();
    GoOn([], START, ARRIVE, AFTER_ARRIVE);
    assert [] + ARRIVE == ARRIVE;
    GoOn(ARRIVE, AFTER_ARRIVE, REQUEST, AFTER_REQUEST);
  }

  // Client 1 connects, subscribes, and receives a payload it keeps.

  const CONNECT := [Tables(B.ConnectServiceMessage(1, 0, 1, true))]

  const AFTER_CONNECT := Live(System(SERVING, map[], map[]), {})

  lemma Connecting()
    ensures Leads(AFTER_REQUEST, CONNECT, AFTER_CONNECT)
  {
    assert EntriesOf(AVAILABLE.table, 1) + [Ids(0, 1, 1, Provider)] == [Ids(0, 1, 1, Provider)];
    TableStep(System(AVAILABLE, map[], map[]), {}, B.ConnectServiceMessage(1, 0, 1, true), SERVING, {});
  }

  const SUBSCRIBE := [Tables(B.SubscribeMessage(1, 1, 0, true))]

  const AFTER_SUBSCRIBE := Live(System(SUBSCRIBED, map[], map[]), {(0, 0)})

  lemma Subscribing()
    ensures Leads(AFTER_CONNECT, SUBSCRIBE, AFTER_SUBSCRIBE)
  {
    assert FirstWithLocal([Ids(0, 1, 1, Provider)], 1) == Some(Ids(0, 1, 1, Provider));
    FirstSubscriber(SERVING, {}, 1, 1, 0);
    assert {} + {(0, 0)} == {(0, 0)};
    TableStep(System(SERVING, map[], map[]), {}, B.SubscribeMessage(1, 1, 0, true), SUBSCRIBED, {(0, 0)});
  }

  /** One byte published from a one-slot memory to one client. */
  function WithPublished(s: System, key: Key, c: Client, handle: Handle): System {
    s.(memory := s.memory[key := PUBLISHED], out := s.out[(key, 0) := multiset{Token(c, handle, BYTE, InFlight)}])
  }

  function WithWritten(s: System, key: Key): System {
    s.(memory := s.memory[key := KeyMemory(1, BYTE, [1], [], {0})])
  }

  function WithCreated(s: System, key: Key): System {
    s.(memory := s.memory[key := KeyMemory(1, BYTE, [0], [], {})])
  }

  ghost predicate ConnectedAs(s: System, key: Key, c: Client, handle: Handle) {
    && c in s.node.table && LastWithKey(s.node.table[c], key).Some?
    && s.node.table[c][LastWithKey(s.node.table[c], key).value].remote == handle
  }

  lemma PublishingOne(s: System, key: Key, c: Client, handle: Handle)
    requires key in s.memory && s.memory[key] == KeyMemory(1, BYTE, [1], [], {0}) && (key, 0) !in s.out
    requires ConnectedAs(s, key, c, handle)
    ensures Perform(s, Publish(key, 0, 1, {c})) == WithPublished(s, key, c, handle)
  {
    var table := s.node.table;
    assert Recipients(table, key, {c}) == {c};
    assert NewTokens(table, key, BYTE, {c}) == {Token(c, handle, BYTE, InFlight)} by {
      assert TokenFor(table, key, BYTE, c) == Token(c, handle, BYTE, InFlight);
    }
    assert multiset({Token(c, handle, BYTE, InFlight)}) == multiset{Token(c, handle, BYTE, InFlight)};
    assert Resize([], 1) == [FREE];
    assert [FREE][0 := Allocation(Some(Ours), 1)] == [Allocation(Some(Ours), 1)];
    assert Insert([1], [], 0, 1, Ours) == ([1], [Allocation(Some(Ours), 1)]);
    assert {0} - {0} == {};
    assert multiset{} + multiset{Token(c, handle, BYTE, InFlight)} == multiset{Token(c, handle, BYTE, InFlight)};
    assert BytesAt(s.memory[key], 0)[..1] == BYTE;
  }

  lemma CreatingOne(s: System, key: Key)
    ensures Perform(s, CreateMemory(key, 1, 1)) == WithCreated(s, key)
  {
    assert seq(1 * 1, _ => 0 as Byte) == BYTE && seq(1, _ => 0) == [0];
  }

  lemma AllocatingOne(s: System, key: Key)
    ensures Perform(WithCreated(s, key), AllocatePayload(key)) == WithWritten(s, key)
  {
    assert [0][0 := 1] == [1] && {} + {0} == {0};
    assert SM.Allocate([0]) == Ok(([1], 0));
    assert WithCreated(s, key).memory[key := KeyMemory(1, BYTE, [1], [], {0})] == WithWritten(s, key).memory;
  }

  function Publishing(key: Key, c: Client): seq<Step> {
    [CreateMemory(key, 1, 1), AllocatePayload(key), Publish(key, 0, 1, {c})]
  }

  lemma PreparingOne(s: System, heard: Heard, key: Key)
    requires Serves(Live(s, heard), key, false) && key !in s.memory
    ensures Leads(Live(s, heard), [CreateMemory(key, 1, 1), AllocatePayload(key)], Live(WithWritten(s, key), heard))
  {
    CreatingOne(s, key);
    AllocatingOne(s, key);
    StepTwice(Live(s, heard), CreateMemory(key, 1, 1), Live(WithCreated(s, key), heard), AllocatePayload(key),
              Live(WithWritten(s, key), heard));
  }

  lemma SendingOne(s: System, heard: Heard, key: Key, c: Client, handle: Handle)
    requires Serves(Live(s, heard), key, false) && (key, 0) !in s.out && ConnectedAs(s, key, c, handle)
    ensures Leads(Live(WithWritten(s, key), heard), [Publish(key, 0, 1, {c})],
                  Live(WithPublished(s, key, c, handle), heard))
  {
    PublishingOne(WithWritten(s, key), key, c, handle);
    assert WithWritten(s, key).memory[key := PUBLISHED] == s.memory[key := PUBLISHED];
    StepOnce(Live(WithWritten(s, key), heard), Publish(key, 0, 1, {c}), Live(WithPublished(s, key, c, handle), heard));
  }

  /** A server with a subscriber makes one payload and sends it. */
  lemma PublishOne(s: System, heard: Heard, key: Key, c: Client, handle: Handle)
    requires Serves(Live(s, heard), key, false) && key !in s.memory && (key, 0) !in s.out
    requires ConnectedAs(s, key, c, handle)
    ensures Leads(Live(s, heard), Publishing(key, c), Live(WithPublished(s, key, c, handle), heard))
  {
    PreparingOne(s, heard, key);
    SendingOne(s, heard, key, c, handle);
    Join(Live(s, heard), [CreateMemory(key, 1, 1), AllocatePayload(key)], Live(WithWritten(s, key), heard),
         [Publish(key, 0, 1, {c})], Live(WithPublished(s, key, c, handle), heard));
    assert [CreateMemory(key, 1, 1), AllocatePayload(key)] + [Publish(key, 0, 1, {c})] == Publishing(key, c);
  }

  /** A recipient's part in a publication moves on. */
  lemma Passing(s: System, heard: Heard, key: Key, t: Token)
    requires (key, 0) in s.out && s.out[(key, 0)] == multiset{t} && t.stage != Acking
    ensures var t' := t.(stage := if t.stage == InFlight then Held else Acking);
            var step := if t.stage == InFlight then Receive(key, 0, t) else Destroy(key, 0, t);
            Leads(Live(s, heard), [step], Live(s.(out := s.out[(key, 0) := multiset{t'}]), heard))
  {
    var t' := t.(stage := if t.stage == InFlight then Held else Acking);
    var step := if t.stage == InFlight then Receive(key, 0, t) else Destroy(key, 0, t);
    var less := Without(s, key, 0, t);
    assert Out(less, key, 0) == multiset{} && multiset{} + multiset{t'} == multiset{t'};
    assert less.out[(key, 0) := multiset{t'}] == s.out[(key, 0) := multiset{t'}];
    StepOnce(Live(s, heard), step, Live(s.(out := s.out[(key, 0) := multiset{t'}]), heard));
  }

  const READ := Publishing(0, 1) + [Receive(0, 0, READER)]

  const AFTER_READ := Live(System(SUBSCRIBED, MEMORY, HOLDING), {(0, 0)})

  const MEMORY: map<Key, KeyMemory> := map[0 := PUBLISHED]

  const HOLDING: map<(Key, SM.Slot), multiset<Token>> := map[(0, 0) := multiset{READING}]

  lemma Reading()
    ensures Leads(AFTER_SUBSCRIBE, READ,
                  AFTER_READ)
  {
    var s := System(SUBSCRIBED, map[], map[]);
    assert LastWithKey([Ids(0, 1, 1, Provider)], 0) == Some(0);
    assert (0, 0) in {(0, 0)};
    PublishOne(s, {(0, 0)}, 0, 1, 1);
    var sent := WithPublished(s, 0, 1, 1);
    assert sent.memory == MEMORY;
    Passing(sent, {(0, 0)}, 0, READER);
    assert sent.out[(0, 0) := multiset{READING}] == HOLDING;
    Join(Live(s, {(0, 0)}), Publishing(0, 1), Live(sent, {(0, 0)}), [Receive(0, 0, READER)],
         AFTER_READ);
  }

  // Client 1 loses interest in the service, and keeps the payload.

  const LOSE_INTEREST := [Tables(B.RequestMessage(1, 0, false, false))]

  const AFTER_LOSING := Live(System(UNUSED, MEMORY, HOLDING), {})

  lemma SubscriptionsAreDropped()
    ensures B.DropClientSubs(SUBSCRIBED.states, 1) == UNUSED.states
    ensures After(SUBSCRIBED.states[0].subs, DropClient(1)) == map[]
  {
    assert OfClient({Endpoint(1, 1)}, 1) == {Endpoint(1, 1)};
    assert After(SUBSCRIBED.states[0].subs, DropClient(1)) == map[];
  }

  lemma InterestIsLost()
    ensures B.HandleRequest(SUBSCRIBED, 1, 0, false, false) == UNUSED
  {
    SubscriptionsAreDropped();
    assert WithoutKey([Ids(0, 1, 1, Provider)], 0) == [];
    assert RemoveClientAndKey(SUBSCRIBED.table, 1, 0) == map[];
    assert B.ClearPendingOf(SUBSCRIBED.pending, 0, 1) == map[];
    assert B.InterestedIn(SUBSCRIBED, 0) - {1} == {};
    assert SUBSCRIBED.interested[0 := {}] == UNUSED.interested;
  }

  lemma LosingInterest()
    ensures Leads(AFTER_READ, LOSE_INTEREST, AFTER_LOSING)
  {
    InterestIsLost();
    SubscriptionsAreDropped();
    assert Hear(SUBSCRIBED, {(0, 0)}, B.RequestMessage(1, 0, false, false)) == {};
    TableStep(AFTER_READ.system, {(0, 0)}, B.RequestMessage(1, 0, false, false), UNUSED, {});
  }

  // The local server goes; client 2 offers the key and is asked for it.

  const ASK := [Tables(B.ServiceStateChange(0, false)), Tables(B.OfferMessage(2, 0, true, [2], {2}))]

  const AFTER_ASK := Live(System(ASKING, MEMORY, HOLDING), {})

  lemma ServiceIsWithdrawn()
    ensures B.ChangeServiceState(UNUSED, 0, false) == WITHDRAWN
  {
    assert RemoveService(map[], 0) == map[];
    assert UNUSED.localOffers[0 := false] == WITHDRAWN.localOffers && UNUSED.states[0 := OWN] == UNUSED.states;
  }

  lemma OfferIsTaken()
    ensures B.HandleOffer(WITHDRAWN, 2, 0, true, [2], {2}) == ASKING
  {
    var w := B.WithState(WITHDRAWN, 0, OWN.(offers := map[2 := B.Offer(true, false, 0)]));
    assert B.SendConnect(w, 0, [2][..0], {2}) == w;
    assert B.SendConnect(w, 0, [2], {2}) == B.SendOne(w, 0, 2, true);
    assert WITHDRAWN.sent + [B.Sent(2, 0, 2)] == [B.Sent(2, 0, 2)];
    assert w.states[0].offers[2 := B.Offer(true, true, 2)] == map[2 := B.Offer(true, true, 2)];
    assert w.states[0 := REMOTE] == ASKING.states;
    assert B.SendOne(w, 0, 2, true) == ASKING;
  }

  lemma Asking()
    ensures Leads(AFTER_LOSING, ASK, AFTER_ASK)
  {
    ServiceIsWithdrawn();
    OfferIsTaken();
    assert B.Visits([2], B.StateOf(WITHDRAWN, 0).offers.Keys + {2});
    TableStep(AFTER_LOSING.system, {}, B.ServiceStateChange(0, false), WITHDRAWN, {});
    TableStep(System(WITHDRAWN, MEMORY, HOLDING), {}, B.OfferMessage(2, 0, true, [2], {2}), ASKING, {});
    Join(AFTER_LOSING, [ASK[0]], Live(System(WITHDRAWN, MEMORY, HOLDING), {}), [ASK[1]], AFTER_ASK);
    assert [ASK[0]] + [ASK[1]] == ASK;
  }

  // Client 2 replies, and the server connector made for its reply is enabled.

  const PAIR := [Tables(B.ConnectServiceReplyMessage(2, 2, 1)), Tables(B.ServiceStateChange(0, true)),
                 Tables(B.ServerConnectorEnabled(0))]

  const AFTER_PAIR := Live(System(PAIRED, MEMORY, HOLDING), {})

  lemma ReplyIsTaken()
    ensures B.HandleConnectServiceReply(ASKING, 2, 2, 1) == CONSUMING
  {
    assert EntriesOf(map[], 2) + [Ids(0, 1, 2, Consumer)] == [Ids(0, 1, 2, Consumer)];
    assert Add(map[], 2, Ids(0, 1, 2, Consumer)) == map[2 := [Ids(0, 1, 2, Consumer)]];
    assert ASKING.pending - {2} == map[] && {} + {2} == {2};
  }

  lemma Replying()
    ensures Leads(AFTER_ASK, [PAIR[0]], Live(System(CONSUMING, MEMORY, HOLDING), {}))
  {
    ReplyIsTaken();
    assert ASKING.sent[0] == B.Sent(2, 0, 2);
    TableStep(System(ASKING, MEMORY, HOLDING), {}, B.ConnectServiceReplyMessage(2, 2, 1), CONSUMING, {});
  }

  lemma Pairing()
    ensures Leads(AFTER_ASK, PAIR, AFTER_PAIR)
  {
    var available := CONSUMING.(localOffers := map[0 := true]);
    Replying();
    assert CONSUMING.localOffers[0 := true] == map[0 := true] && CONSUMING.states[0 := REMOTE] == CONSUMING.states;
    TableStep(System(CONSUMING, MEMORY, HOLDING), {}, B.ServiceStateChange(0, true), available, {});
    assert available.states[0 := REMOTE.(enabledConnector := true)] == PAIRED.states;
    TableStep(System(available, MEMORY, HOLDING), {}, B.ServerConnectorEnabled(0), PAIRED, {});
    JoinThrice(AFTER_ASK, [PAIR[0]], Live(System(CONSUMING, MEMORY, HOLDING), {}), [PAIR[1]],
               Live(System(available, MEMORY, HOLDING), {}), [PAIR[2]], AFTER_PAIR);
    assert [PAIR[0]] + [PAIR[1]] + [PAIR[2]] == PAIR;
  }

  // Client 2 requests key 1, which a local server provides, and connects with the handle it was given for key 0.

  const CLASH := [Tables(B.RequestMessage(2, 1, true, true)), Tables(B.ServiceStateChange(1, true)),
                  Tables(B.ConnectServiceMessage(2, 1, 2, true))]

  const AFTER_CLASH := Live(System(CLASHING, MEMORY, HOLDING), {})

  lemma SecondRequestIsTaken()
    ensures B.HandleRequest(PAIRED, 2, 1, true, true) == ASKED
  {
    assert B.InterestedIn(PAIRED, 1) + {2} == {2} && PAIRED.bridged + {1} == {0, 1};
    assert PAIRED.interested[1 := {2}] == ASKED.interested;
  }

  lemma SecondKeyIsServed()
    ensures B.ChangeServiceState(ASKED, 1, true) == OFFERING
  {
    PutTwice(PAIRED.states, 1, OWN.(requested := false), OWN);
    assert ASKED.localOffers[1 := true] == OFFERING.localOffers;
  }

  lemma SecondIsMapped()
    ensures B.HandleConnectService(OFFERING, 2, 1, 2, true) == CLASHING
  {
    assert EntriesOf(OFFERING.table, 2) + [Ids(1, 3, 2, Provider)] == [Ids(0, 1, 2, Consumer), Ids(1, 3, 2, Provider)];
  }

  lemma SecondRequests()
    ensures Leads(AFTER_PAIR, [CLASH[0]], Live(System(ASKED, MEMORY, HOLDING), {}))
  {
    SecondRequestIsTaken();
    TableStep(System(PAIRED, MEMORY, HOLDING), {}, B.RequestMessage(2, 1, true, true), ASKED, {});
  }

  lemma SecondIsOffered()
    ensures Leads(Live(System(ASKED, MEMORY, HOLDING), {}), [CLASH[1]], Live(System(OFFERING, MEMORY, HOLDING), {}))
  {
    SecondKeyIsServed();
    TableStep(System(ASKED, MEMORY, HOLDING), {}, B.ServiceStateChange(1, true), OFFERING, {});
  }

  lemma Clashing()
    ensures Leads(AFTER_PAIR, CLASH, AFTER_CLASH)
  {
    SecondRequests();
    SecondIsOffered();
    SecondIsMapped();
    TableStep(System(OFFERING, MEMORY, HOLDING), {}, B.ConnectServiceMessage(2, 1, 2, true), CLASHING, {});
    JoinThrice(AFTER_PAIR, [CLASH[0]], Live(System(ASKED, MEMORY, HOLDING), {}), [CLASH[1]],
               Live(System(OFFERING, MEMORY, HOLDING), {}), [CLASH[2]], AFTER_CLASH);
    assert [CLASH[0]] + [CLASH[1]] + [CLASH[2]] == CLASH;
  }

  // Client 2 subscribes to key 1 and is sent a payload.

  const SEND := [Tables(B.SubscribeMessage(2, 3, 0, true))] + Publishing(1, 2)

  const AFTER_SEND := Live(System(BOTH, MEMORIES, SENT), {(1, 0)})

  const MEMORIES := MEMORY[1 := PUBLISHED]

  const SENT := HOLDING[(1, 0) := multiset{SECOND}]

  lemma SecondSubscribes()
    ensures Leads(AFTER_CLASH, [Tables(B.SubscribeMessage(2, 3, 0, true))],
                  Live(System(BOTH, MEMORY, HOLDING), {(1, 0)}))
  {
    var v := [Ids(0, 1, 2, Consumer), Ids(1, 3, 2, Provider)];
    assert v[1..] == [Ids(1, 3, 2, Provider)] && FirstWithLocal(v, 3) == Some(Ids(1, 3, 2, Provider));
    FirstSubscriber(CLASHING, {}, 2, 3, 0);
    assert {} + {(1, 0)} == {(1, 0)};
    TableStep(System(CLASHING, MEMORY, HOLDING), {}, B.SubscribeMessage(2, 3, 0, true), BOTH, {(1, 0)});
  }

  lemma Sending()
    ensures Leads(AFTER_CLASH, SEND, AFTER_SEND)
  {
    var s := System(BOTH, MEMORY, HOLDING);
    SecondSubscribes();
    assert (1, 0) in {(1, 0)};
    PublishOne(s, {(1, 0)}, 1, 2, 2);
    assert WithPublished(s, 1, 2, 2).memory == MEMORIES && WithPublished(s, 1, 2, 2).out == SENT;
    Join(AFTER_CLASH, [Tables(B.SubscribeMessage(2, 3, 0, true))], Live(s, {(1, 0)}),
         Publishing(1, 2), AFTER_SEND);
  }

  // Client 2 takes the payload of key 1, destroys it and acknowledges; the acknowledgement is taken for one of key 0.

  const RELEASE := [Receive(1, 0, SECOND), Destroy(1, 0, SECOND.(stage := Held)),
                    Acknowledge(1, 0, SECOND.(stage := Acking))]

  const AFTER_RELEASE := Live(System(BOTH, MISLED, ACKED), {(1, 0)})

  const MISLED := MEMORIES[0 := FREED]

  const ACKED := SENT[(1, 0) := multiset{}]

  /** An acknowledgement goes to the key of the first entry with its handle. */
  lemma AcknowledgedByKey(s: System, heard: Heard, t: Token)
    requires (1, 0) in s.out && s.out[(1, 0)] == multiset{t} && t.stage == Acking
    requires var found := FirstWithRemote(EntriesOf(s.node.table, t.client), t.handle);
             found.Some? && found.value.key == 0
    requires 0 in s.memory && s.memory[0] == PUBLISHED
    ensures Leads(Live(s, heard), [Acknowledge(1, 0, t)],
                  Live(s.(memory := s.memory[0 := FREED], out := s.out[(1, 0) := multiset{}]), heard))
  {
    assert [Allocation(Some(Ours), 1)][0 := FREE] == [FREE] && [1][0 := 0] == [0];
    assert Consume([1], [Allocation(Some(Ours), 1)], 0) == ([0], [FREE]);
    assert multiset{t} - multiset{t} == multiset{};
    StepOnce(Live(s, heard), Acknowledge(1, 0, t),
             Live(s.(memory := s.memory[0 := FREED], out := s.out[(1, 0) := multiset{}]), heard));
  }

  const TAKING := System(BOTH, MEMORIES, SENT[(1, 0) := multiset{SECOND.(stage := Held)}])

  const DESTROYED := System(BOTH, MEMORIES, SENT[(1, 0) := multiset{SECOND.(stage := Acking)}])

  lemma Taking()
    ensures Leads(AFTER_SEND, [RELEASE[0]], Live(TAKING, {(1, 0)}))
  {
    Passing(AFTER_SEND.system, {(1, 0)}, 1, SECOND);
  }

  lemma Destroying()
    ensures Leads(Live(TAKING, {(1, 0)}), [RELEASE[1]], Live(DESTROYED, {(1, 0)}))
  {
    PutTwice(SENT, (1, 0), multiset{SECOND.(stage := Held)}, multiset{SECOND.(stage := Acking)});
    Passing(TAKING, {(1, 0)}, 1, SECOND.(stage := Held));
  }

  lemma Acknowledging()
    ensures Leads(Live(DESTROYED, {(1, 0)}), [RELEASE[2]], AFTER_RELEASE)
  {
    PutTwice(SENT, (1, 0), multiset{SECOND.(stage := Acking)}, multiset{});
    assert FirstWithRemote(EntriesOf(BOTH.table, 2), 2) == Some(Ids(0, 1, 2, Consumer));
    AcknowledgedByKey(DESTROYED, {(1, 0)}, SECOND.(stage := Acking));
  }

  lemma Releasing()
    ensures Leads(AFTER_SEND, RELEASE, AFTER_RELEASE)
  {
    Taking();
    Destroying();
    Acknowledging();
    JoinThrice(AFTER_SEND, [RELEASE[0]], Live(TAKING, {(1, 0)}), [RELEASE[1]], Live(DESTROYED, {(1, 0)}), [RELEASE[2]],
               AFTER_RELEASE);
    assert [RELEASE[0]] + [RELEASE[1]] + [RELEASE[2]] == RELEASE;
  }

  // Client 2 disconnects, and the local server of key 0 is back.

  const LEAVE := [Tables(B.DropPeer(2)), Tables(B.ServiceStateChange(0, false)), Tables(B.ServiceStateChange(0, true))]

  const AFTER_LEAVE := Live(System(LEFT, MISLED, ACKED), {})

  lemma FirstKeyAfterLeaving()
    ensures B.WithoutOffer(BOTH.states[0].(subs := After(BOTH.states[0].subs, DropClient(2))), 2) == OWN
  {
    assert BOTH.states[0].offers - {2} == map[];
  }

  lemma SecondKeyAfterLeaving()
    ensures B.WithoutOffer(BOTH.states[1].(subs := After(BOTH.states[1].subs, DropClient(2))), 2) == OWN
  {
    assert OfClient({Endpoint(2, 3)}, 2) == {Endpoint(2, 3)};
    assert After(BOTH.states[1].subs, DropClient(2)) == map[];
  }

  lemma StatesAfterLeaving()
    ensures B.RemoveOffers(B.DropClientSubs(BOTH.states, 2), 2) == LEFT.states
  {
    FirstKeyAfterLeaving();
    SecondKeyAfterLeaving();
  }

  lemma InterestAfterLeaving()
    ensures B.Disinterest(BOTH.interested, 2) == LEFT.interested
  {
    assert {2} - {2} == {} && {} - {2} == {};
  }

  lemma SecondLeaves()
    ensures B.RemovePeer(BOTH, 2) == LEFT
  {
    StatesAfterLeaving();
    InterestAfterLeaving();
    assert {1, 2} - {2} == {1};
    assert RemoveClient(BOTH.table, 2) == map[];
    assert B.ClearPendingForClient(BOTH.pending, 2) == map[];
  }

  lemma SecondUnsubscribes()
    ensures Hear(BOTH, {(1, 0)}, B.DropPeer(2)) == {}
  {
    assert OfClient({Endpoint(2, 3)}, 2) == {Endpoint(2, 3)};
    assert After(BOTH.states[1].subs, DropClient(2)) == map[];
  }

  const GONE := LEFT.(localOffers := map[0 := false, 1 := true])

  lemma ServerChanges()
    ensures B.ChangeServiceState(LEFT, 0, false) == GONE && B.ChangeServiceState(GONE, 0, true) == LEFT
  {
    assert RemoveService(map[], 0) == map[];
    assert LEFT.localOffers[0 := false] == GONE.localOffers && GONE.localOffers[0 := true] == LEFT.localOffers;
    assert LEFT.states[0 := OWN] == LEFT.states;
  }

  lemma ServerReturns()
    ensures Leads(AFTER_LEAVE, [LEAVE[1], LEAVE[2]], AFTER_LEAVE)
  {
    ServerChanges();
    TableStep(System(LEFT, MISLED, ACKED), {}, B.ServiceStateChange(0, false), GONE, {});
    TableStep(System(GONE, MISLED, ACKED), {}, B.ServiceStateChange(0, true), LEFT, {});
    Join(AFTER_LEAVE, [LEAVE[1]], Live(System(GONE, MISLED, ACKED), {}), [LEAVE[2]], AFTER_LEAVE);
    assert [LEAVE[1]] + [LEAVE[2]] == [LEAVE[1], LEAVE[2]];
  }

  lemma Leaving()
    ensures Leads(AFTER_RELEASE, LEAVE, AFTER_LEAVE)
  {
    SecondLeaves();
    SecondUnsubscribes();
    TableStep(System(BOTH, MISLED, ACKED), {(1, 0)}, B.DropPeer(2), LEFT, {});
    ServerReturns();
    Join(AFTER_RELEASE, [LEAVE[0]], AFTER_LEAVE,
         [LEAVE[1], LEAVE[2]], AFTER_LEAVE);
    assert [LEAVE[0]] + [LEAVE[1], LEAVE[2]] == LEAVE;
  }

  // Client 1 connects and subscribes again, and the next payload gets the slot that it still reads.

  const RECONNECT := [Tables(B.RequestMessage(1, 0, true, true)), Tables(B.ConnectServiceMessage(1, 0, 2, true))]

  const AFTER_RECONNECT := Live(System(RETURNED, MISLED, ACKED), {})

  lemma FirstRequestsAgain()
    ensures B.HandleRequest(LEFT, 1, 0, true, true) == REJOINED
  {
    assert B.InterestedIn(LEFT, 0) + {1} == {1};
    assert LEFT.interested[0 := {1}] == REJOINED.interested;
  }

  lemma FirstIsMappedAgain()
    ensures B.HandleConnectService(REJOINED, 1, 0, 2, true) == RETURNED
  {
    assert EntriesOf(REJOINED.table, 1) + [Ids(0, 4, 2, Provider)] == [Ids(0, 4, 2, Provider)];
  }

  lemma Reconnecting()
    ensures Leads(AFTER_LEAVE, RECONNECT, AFTER_RECONNECT)
  {
    FirstRequestsAgain();
    FirstIsMappedAgain();
    TableStep(System(LEFT, MISLED, ACKED), {}, B.RequestMessage(1, 0, true, true), REJOINED, {});
    TableStep(System(REJOINED, MISLED, ACKED), {}, B.ConnectServiceMessage(1, 0, 2, true), RETURNED, {});
    Join(AFTER_LEAVE, [RECONNECT[0]], Live(System(REJOINED, MISLED, ACKED), {}), [RECONNECT[1]], AFTER_RECONNECT);
    assert [RECONNECT[0]] + [RECONNECT[1]] == RECONNECT;
  }

  const REUSE := [Tables(B.SubscribeMessage(1, 4, 0, true)), AllocatePayload(0), WritePayload(0, 0, [1])]

  const AFTER_REUSE := Live(FINAL, {(0, 0)})

  const AGAIN := RETURNED.(states := map[0 := OWN.(subs := map[0 := {Endpoint(1, 4)}]), 1 := OWN])

  lemma Resubscribing()
    ensures Leads(AFTER_RECONNECT, [REUSE[0]], Live(System(AGAIN, MISLED, ACKED), {(0, 0)}))
  {
    assert FirstWithLocal([Ids(0, 4, 2, Provider)], 4) == Some(Ids(0, 4, 2, Provider));
    FirstSubscriber(RETURNED, {}, 1, 4, 0);
    assert {} + {(0, 0)} == {(0, 0)};
    assert RETURNED.states[0 := OWN.(subs := map[0 := {Endpoint(1, 4)}])] == AGAIN.states;
    TableStep(System(RETURNED, MISLED, ACKED), {}, B.SubscribeMessage(1, 4, 0, true), AGAIN, {(0, 0)});
  }

  /** Client 1 holds a payload whose slot is not pending any more and whose bytes are not those it was sent. */
  ghost predicate Overwritten(s: System) {
    READING in Out(s, 0, 0) && !LifetimeAt(s, 0, 0) && 0 in s.memory && !ReadsCopy(s.memory[0], 0, READING.copy)
  }

  const TAKEN := KeyMemory(1, BYTE, [1], [FREE], {0})

  const REUSED := TAKEN.(bytes := [1])

  const FINAL := System(AGAIN, MISLED[0 := REUSED], ACKED)

  lemma Reallocating()
    ensures Leads(Live(System(AGAIN, MISLED, ACKED), {(0, 0)}), [REUSE[1]],
                  Live(System(AGAIN, MISLED[0 := TAKEN], ACKED), {(0, 0)}))
  {
    assert [0][0 := 1] == [1] && {} + {0} == {0};
    assert SM.Allocate([0]) == Ok(([1], 0));
    assert (0, 0) in {(0, 0)};
    StepOnce(Live(System(AGAIN, MISLED, ACKED), {(0, 0)}), REUSE[1],
             Live(System(AGAIN, MISLED[0 := TAKEN], ACKED), {(0, 0)}));
  }

  lemma Rewriting()
    ensures Leads(Live(System(AGAIN, MISLED[0 := TAKEN], ACKED), {(0, 0)}), [REUSE[2]], AFTER_REUSE)
  {
    assert SM.Write(BYTE, 1, 0, [1]) == [1];
    PutTwice(MISLED, 0, TAKEN, REUSED);
    StepOnce(Live(System(AGAIN, MISLED[0 := TAKEN], ACKED), {(0, 0)}), REUSE[2], AFTER_REUSE);
  }

  lemma Reusing()
    ensures Leads(AFTER_RECONNECT, REUSE, AFTER_REUSE)
  {
    Resubscribing();
    Reallocating();
    Rewriting();
    JoinThrice(AFTER_RECONNECT, [REUSE[0]], Live(System(AGAIN, MISLED, ACKED), {(0, 0)}),
               [REUSE[1]], Live(System(AGAIN, MISLED[0 := TAKEN], ACKED), {(0, 0)}), [REUSE[2]],
               AFTER_REUSE);
    assert [REUSE[0]] + [REUSE[1]] + [REUSE[2]] == REUSE;
  }

  lemma FinalIsOverwritten()
    ensures Overwritten(FINAL)
  {
    assert BytesAt(REUSED, 0) == [1];
    assert [1][..1] == [1] && [1] != BYTE;
  }

  // The whole run.

  const BEGINNING := ARRIVE + REQUEST + CONNECT + SUBSCRIBE + READ + LOSE_INTEREST + ASK

  lemma Begins()
    ensures Reaches(ARRIVE + REQUEST + CONNECT + SUBSCRIBE + READ, AFTER_READ)
  {
    Opens();
    Connecting();
    Subscribing();
    Reading();
    GoOn(ARRIVE + REQUEST, AFTER_REQUEST, CONNECT, AFTER_CONNECT);
    GoOn(ARRIVE + REQUEST + CONNECT, AFTER_CONNECT, SUBSCRIBE, AFTER_SUBSCRIBE);
    GoOn(ARRIVE + REQUEST + CONNECT + SUBSCRIBE, AFTER_SUBSCRIBE, READ, AFTER_READ);
  }

  lemma ProviderIsAsked(steps: seq<Step>)
    requires Reaches(steps, AFTER_READ)
    ensures Reaches(steps + LOSE_INTEREST + ASK, AFTER_ASK)
  {
    LosingInterest();
    Asking();
    GoOn(steps, AFTER_READ, LOSE_INTEREST, AFTER_LOSING);
    GoOn(steps + LOSE_INTEREST, AFTER_LOSING, ASK, AFTER_ASK);
  }

  lemma GoesOn(steps: seq<Step>)
    requires Reaches(steps, AFTER_ASK)
    ensures Reaches(steps + PAIR + CLASH + SEND, AFTER_SEND)
  {
    Pairing();
    Clashing();
    Sending();
    GoOn(steps, AFTER_ASK, PAIR, AFTER_PAIR);
    GoOn(steps + PAIR, AFTER_PAIR, CLASH, AFTER_CLASH);
    GoOn(steps + PAIR + CLASH, AFTER_CLASH, SEND,
         AFTER_SEND);
  }

  lemma Ends(steps: seq<Step>)
    requires Reaches(steps, AFTER_SEND)
    ensures Reaches(steps + RELEASE + LEAVE + RECONNECT + REUSE, AFTER_REUSE)
  {
    Releasing();
    Leaving();
    Reconnecting();
    Reusing();
    GoOn(steps, AFTER_SEND, RELEASE, AFTER_RELEASE);
    GoOn(steps + RELEASE, AFTER_RELEASE, LEAVE, AFTER_LEAVE);
    GoOn(steps + RELEASE + LEAVE, AFTER_LEAVE, RECONNECT,
         AFTER_RECONNECT);
    GoOn(steps + RELEASE + LEAVE + RECONNECT, AFTER_RECONNECT, REUSE, AFTER_REUSE);
  }

  const CLASHING_RUN := BEGINNING + PAIR + CLASH + SEND + RELEASE + LEAVE + RECONNECT + REUSE

  lemma NothingIsForwarded()
    ensures Unforwarded(CLASHING_RUN)
  {
    assert Unforwarded(BEGINNING) && Unforwarded(PAIR + CLASH + SEND);
    assert Unforwarded(RELEASE + LEAVE + RECONNECT + REUSE);
    assert CLASHING_RUN == BEGINNING + (PAIR + CLASH + SEND) + (RELEASE + LEAVE + RECONNECT + REUSE);
  }

  /** A run in which every payload is made and sent by a server with a subscriber and none of a peer is sent on, and
      after which a client reads bytes that were never published to it. */
  lemma ClashingHandlesFreeASlotInUse()
    ensures LiveRun(CLASHING_RUN) && Unforwarded(CLASHING_RUN) && PossibleRun(INIT, CLASHING_RUN)
    ensures Overwritten(Run(INIT, CLASHING_RUN))
  {
    Begins();
    ProviderIsAsked(ARRIVE + REQUEST + CONNECT + SUBSCRIBE + READ);
    GoesOn(BEGINNING);
    Ends(BEGINNING + PAIR + CLASH + SEND);
    FinalIsOverwritten();
    NothingIsForwarded();
    LiveRunsArePossible(CLASHING_RUN);
  }
}
