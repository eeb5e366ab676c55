/** A run in which an update received for a key is sent on to the clients of that key: they look up the slot number of
    another binding's memory in the memory of this one. */
module ForwardedPayload {
  import opened Prelude
  import opened ConnectionMetadata
  import opened EventSubscriptions
  import opened AllocationTable
  import opened SlotLifetime
  import opened LiveRuns
  import opened HandleClash
  import B = Binding

  // Client 1 is connected to key 0; then its local server is gone, and client 2 offers the key.

  const UNSERVED := SERVING.(table := map[], localOffers := map[0 := false])

  const OFFERED := UNSERVED.(states := map[0 := OWN.(offers := map[2 := B.Offer(true, true, 2)])],
                             pending := map[2 := B.Pending(0, 2)], next := 3, sent := [B.Sent(2, 0, 2)])

  const FIND := [Tables(B.ServiceStateChange(0, false)), Tables(B.OfferMessage(2, 0, true, [2], {2}))]

  const AFTER_FIND := Live(System(OFFERED, map[], map[]), {})

  lemma OfferIsFound()
    ensures B.HandleOffer(UNSERVED, 2, 0, true, [2], {2}) == OFFERED
  {
    var w := B.WithState(UNSERVED, 0, OWN.(offers := map[2 := B.Offer(true, false, 0)]));
    assert B.SendConnect(w, 0, [2][..0], {2}) == w;
    assert B.SendConnect(w, 0, [2], {2}) == B.SendOne(w, 0, 2, true);
    assert UNSERVED.sent + [B.Sent(2, 0, 2)] == [B.Sent(2, 0, 2)];
    assert w.states[0].offers[2 := B.Offer(true, true, 2)] == map[2 := B.Offer(true, true, 2)];
    assert w.states[0 := OFFERED.states[0]] == OFFERED.states;
  }

  lemma ServiceIsLost()
    ensures B.ChangeServiceState(SERVING, 0, false) == UNSERVED
  {
    assert WithoutKey([Ids(0, 1, 1, Provider)], 0) == [];
    assert RemoveService(SERVING.table, 0) == map[];
    assert SERVING.localOffers[0 := false] == UNSERVED.localOffers && SERVING.states[0 := OWN] == SERVING.states;
  }

  lemma Finding()
    ensures Leads(AFTER_CONNECT, FIND, AFTER_FIND)
  {
    OfferIsFound();
    ServiceIsLost();
    assert B.Visits([2], B.StateOf(UNSERVED, 0).offers.Keys + {2});
    StepTwice(AFTER_CONNECT, FIND[0], Live(System(UNSERVED, map[], map[]), {}), FIND[1], AFTER_FIND);
    assert [FIND[0], FIND[1]] == FIND;
  }

  // Client 2 replies, and the server connector made for its reply pairs with the client connector made for client 1.

  const ACCEPTED := OFFERED.(pending := map[], table := map[2 := [Ids(0, 1, 2, Consumer)]], accepted := {2})

  const LOOPED := ACCEPTED.(states := map[0 := OFFERED.states[0].(enabledConnector := true)],
                            localOffers := map[0 := true])

  const LOOP := [Tables(B.ConnectServiceReplyMessage(2, 2, 1)), Tables(B.ServiceStateChange(0, true)),
                 Tables(B.ServerConnectorEnabled(0))]

  const AFTER_LOOP := Live(System(LOOPED, map[], map[]), {})

  lemma ReplyIsAccepted()
    ensures B.HandleConnectServiceReply(OFFERED, 2, 2, 1) == ACCEPTED
  {
    assert EntriesOf(map[], 2) + [Ids(0, 1, 2, Consumer)] == [Ids(0, 1, 2, Consumer)];
    assert Add(map[], 2, Ids(0, 1, 2, Consumer)) == map[2 := [Ids(0, 1, 2, Consumer)]];
    assert OFFERED.pending - {2} == map[] && {} + {2} == {2};
  }

  lemma Looping()
    ensures Leads(AFTER_FIND, LOOP, AFTER_LOOP)
  {
    var available := ACCEPTED.(localOffers := map[0 := true]);
    ReplyIsAccepted();
    assert OFFERED.sent[0] == B.Sent(2, 0, 2);
    TableStep(System(OFFERED, map[], map[]), {}, B.ConnectServiceReplyMessage(2, 2, 1), ACCEPTED, {});
    assert ACCEPTED.localOffers[0 := true] == map[0 := true];
    assert ACCEPTED.states[0 := OFFERED.states[0]] == ACCEPTED.states;
    TableStep(System(ACCEPTED, map[], map[]), {}, B.ServiceStateChange(0, true), available, {});
    assert available.states[0 := LOOPED.states[0]] == LOOPED.states;
    TableStep(System(available, map[], map[]), {}, B.ServerConnectorEnabled(0), LOOPED, {});
    JoinThrice(AFTER_FIND, [LOOP[0]], Live(System(ACCEPTED, map[], map[]), {}), [LOOP[1]],
               Live(System(available, map[], map[]), {}), [LOOP[2]], AFTER_LOOP);
    assert [LOOP[0]] + [LOOP[1]] + [LOOP[2]] == LOOP;
  }

  // Client 1 connects again and subscribes: the subscription reaches client 2.

  const JOINED := LOOPED.(table := map[1 := [Ids(0, 3, 2, Provider)], 2 := [Ids(0, 1, 2, Consumer)]], next := 4)

  const LISTENING := JOINED.(states := map[0 := LOOPED.states[0].(subs := map[0 := {Endpoint(1, 3)}])])

  const LISTEN := [Tables(B.ConnectServiceMessage(1, 0, 2, true)), Tables(B.SubscribeMessage(1, 3, 0, true))]

  const AFTER_LISTEN := Live(System(LISTENING, map[], map[]), {(0, 0)})

  lemma Listening()
    ensures Leads(AFTER_LOOP, LISTEN, AFTER_LISTEN)
  {
    assert EntriesOf(LOOPED.table, 1) + [Ids(0, 3, 2, Provider)] == [Ids(0, 3, 2, Provider)];
    assert LOOPED.table[1 := [Ids(0, 3, 2, Provider)]] == JOINED.table;
    TableStep(System(LOOPED, map[], map[]), {}, B.ConnectServiceMessage(1, 0, 2, true), JOINED, {});
    assert FirstWithLocal([Ids(0, 3, 2, Provider)], 3) == Some(Ids(0, 3, 2, Provider));
    FirstSubscriber(JOINED, {}, 1, 3, 0);
    assert {} + {(0, 0)} == {(0, 0)};
    assert JOINED.states[0 := LISTENING.states[0]] == LISTENING.states;
    TableStep(System(JOINED, map[], map[]), {}, B.SubscribeMessage(1, 3, 0, true), LISTENING, {(0, 0)});
    Join(AFTER_LOOP, [LISTEN[0]], Live(System(JOINED, map[], map[]), {}), [LISTEN[1]], AFTER_LISTEN);
    assert [LISTEN[0]] + [LISTEN[1]] == LISTEN;
  }

  // An update from client 2 is sent on, and client 1 takes it.

  const PASSED_ON := Token(1, 2, [1], InFlight)

  const FORWARD := Forward(0, 0, [1], {1, 2})

  const PASS := [CreateMemory(0, 1, 1), FORWARD, Receive(0, 0, PASSED_ON)]

  const READY := WithCreated(AFTER_LISTEN.system, 0)

  const PASSED := Perform(READY, FORWARD)

  const AFTER_PASS := Live(Perform(PASSED, PASS[2]), {(0, 0)})

  lemma PassedOnIsOut()
    ensures PASSED_ON in Out(PASSED, 0, 0) && 0 in PASSED.memory && PASSED.memory[0].size == 1
    ensures PASSED.memory[0].bytes == BYTE && PASSED.node == LISTENING
  {
    var table := LISTENING.table;
    ForwardEffect(READY, 0, 0, [1], {1, 2});
    assert LastWithKey([Ids(0, 3, 2, Provider)], 0) == Some(0);
    assert 1 in Recipients(table, 0, {1, 2}) && TokenFor(table, 0, [1], 1) == PASSED_ON;
    assert PASSED_ON in NewTokens(table, 0, [1], {1, 2});
  }

  lemma Preparing()
    ensures Leads(AFTER_LISTEN, [PASS[0], PASS[1]], Live(PASSED, {(0, 0)}))
  {
    CreatingOne(AFTER_LISTEN.system, 0);
    assert (0, 0) in {(0, 0)};
    StepTwice(AFTER_LISTEN, PASS[0], Live(READY, {(0, 0)}), PASS[1], Live(PASSED, {(0, 0)}));
  }

  lemma PassingOn()
    ensures Leads(AFTER_LISTEN, PASS, AFTER_PASS)
  {
    Preparing();
    PassedOnIsOut();
    StepOnce(Live(PASSED, {(0, 0)}), PASS[2], AFTER_PASS);
    Join(AFTER_LISTEN, [PASS[0], PASS[1]], Live(PASSED, {(0, 0)}), [PASS[2]], AFTER_PASS);
    assert [PASS[0], PASS[1]] + [PASS[2]] == PASS;
  }

  /** Client 1 holds a payload and reads other bytes than those that were sent on to it. */
  ghost predicate Misread(s: System) {
    var t := PASSED_ON.(stage := Held);
    t in Out(s, 0, 0) && 0 in s.memory && !ReadsCopy(s.memory[0], 0, t.copy)
  }

  lemma TakenIsMisread(s: System)
    requires PASSED_ON in Out(s, 0, 0) && 0 in s.memory && s.memory[0].size == 1 && s.memory[0].bytes == BYTE
    ensures var s' := Perform(s, Receive(0, 0, PASSED_ON)); s'.node == s.node && Misread(s')
  {
    assert BytesAt(s.memory[0], 0) == BYTE && BYTE[..1] == BYTE;
  }

  lemma PassedOnIsMisread()
    ensures AFTER_PASS.system.node == LISTENING && Misread(AFTER_PASS.system)
  {
    PassedOnIsOut();
    TakenIsMisread(PASSED);
  }

  const FORWARDING_RUN := ARRIVE + REQUEST + CONNECT + FIND + LOOP + LISTEN + PASS

  lemma Forwards()
    ensures Reaches(FORWARDING_RUN, AFTER_PASS)
  {
    Opens();
    Connecting();
    Finding();
    Looping();
    Listening();
    PassingOn();
    GoOn(ARRIVE + REQUEST, AFTER_REQUEST, CONNECT, AFTER_CONNECT);
    GoOn(ARRIVE + REQUEST + CONNECT, AFTER_CONNECT, FIND, AFTER_FIND);
    GoOn(ARRIVE + REQUEST + CONNECT + FIND, AFTER_FIND, LOOP, AFTER_LOOP);
    GoOn(ARRIVE + REQUEST + CONNECT + FIND + LOOP, AFTER_LOOP, LISTEN, AFTER_LISTEN);
    GoOn(ARRIVE + REQUEST + CONNECT + FIND + LOOP + LISTEN, AFTER_LISTEN, PASS, AFTER_PASS);
  }

  /** Every Connect_service in `steps` is for key 0. */
  predicate FirstKeyOnly(steps: seq<Step>) {
    forall i :: 0 <= i < |steps| && steps[i].Tables? && steps[i].op.ConnectServiceMessage? ==> steps[i].op.key == 0
  }

  lemma OnlyFirstKey()
    ensures FirstKeyOnly(FORWARDING_RUN)
  {
    assert FirstKeyOnly(ARRIVE + REQUEST + CONNECT + FIND) && FirstKeyOnly(LOOP + LISTEN + PASS);
    assert FORWARDING_RUN == (ARRIVE + REQUEST + CONNECT + FIND) + (LOOP + LISTEN + PASS);
  }

  /** A run in which every handle stands for one key and after which a client reads bytes that were never sent to it. */
  lemma ForwardedPayloadIsMisread()
    ensures LiveRun(FORWARDING_RUN) && PossibleRun(INIT, FORWARDING_RUN)
    ensures OneKeyPerHandle(Run(INIT, FORWARDING_RUN), FORWARDING_RUN) && Misread(Run(INIT, FORWARDING_RUN))
  {
    Forwards();
    LiveRunsArePossible(FORWARDING_RUN);
    EndIsMisread(FORWARDING_RUN, Run(INIT, FORWARDING_RUN));
  }

  lemma EndIsMisread(steps: seq<Step>, s: System)
    requires steps == FORWARDING_RUN && s == AFTER_PASS.system
    ensures OneKeyPerHandle(s, steps) && Misread(s)
  {
    OnlyFirstKey();
    PassedOnIsMisread();
    OneKeyOnly(steps, s);
  }

  lemma OneKeyOnly(steps: seq<Step>, s: System)
    requires FirstKeyOnly(steps) && s.node.sent == [B.Sent(2, 0, 2)]
    ensures OneKeyPerHandle(s, steps)
  {
  }
}
