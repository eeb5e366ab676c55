/** The run of HandleClash with the peers' own lookups: the second peer has dropped its mapping of the first service,
    and its message about that could not be sent. */
module ConsumerClash {
  import opened Prelude
  import opened ConnectionMetadata
  import opened SlotLifetime
  import opened LiveRuns
  import opened HandleClash
  import opened Consumers
  import B = Binding

  function Lifted(steps: seq<Step>): seq<WorldStep> {
    if steps == [] then [] else Lifted(steps[..|steps| - 1]) + [Here(steps[|steps| - 1])]
  }

  /** Every update is taken by a peer that finds a mapping of a service it consumes. */
  predicate TakenByConsumers(ws: seq<WorldStep>) {
    ws == [] ||
    var before, w := ws[..|ws| - 1], ws[|ws| - 1];
    TakenByConsumers(before) && (w.Here? ==> Taken(before, w.step))
  }

  predicate Taken(ws: seq<WorldStep>, step: Step) {
    step.Receive? ==> Takes(PeerTable(ws, step.token.client), step.token.handle)
  }

  /** A run of the whole world, with this binding's state and the mappings of the two peers at its end. */
  ghost predicate World(ws: seq<WorldStep>, l: Live, first: seq<PeerEntry>, second: seq<PeerEntry>) {
    && PossibleWorld(ws) && TakenByConsumers(ws) && Reaches(StepsOf(ws), l)
    && PeerTable(ws, 1) == first && PeerTable(ws, 2) == second
  }

  ghost predicate Continued(ws: seq<WorldStep>, more: seq<Step>) {
    && PossibleWorld(ws + Lifted(more)) && TakenByConsumers(ws + Lifted(more))
    && StepsOf(ws + Lifted(more)) == StepsOf(ws) + more
    && forall c: Client :: PeerTable(ws + Lifted(more), c) == PeerTable(ws, c)
  }

  lemma HereStep(ws: seq<WorldStep>, step: Step)
    requires PossibleWorld(ws) && TakenByConsumers(ws) && Possible(StateAt(ws), step) && Taken(ws, step)
    ensures PossibleWorld(ws + [Here(step)]) && TakenByConsumers(ws + [Here(step)])
    ensures StepsOf(ws + [Here(step)]) == StepsOf(ws) + [step]
    ensures forall c: Client :: PeerTable(ws + [Here(step)], c) == PeerTable(ws, c)
  {
    assert (ws + [Here(step)])[..|ws + [Here(step)]| - 1] == ws;
  }

  lemma LiftedPush(ws: seq<WorldStep>, steps: seq<Step>, last: Step)
    ensures ws + Lifted(steps + [last]) == (ws + Lifted(steps)) + [Here(last)]
  {
    assert (steps + [last])[..|steps + [last]| - 1] == steps;
  }

  lemma StillTaken(ws: seq<WorldStep>, more: seq<Step>, last: Step)
    requires Continued(ws, more) && Possible(Run(INIT, StepsOf(ws) + more), last) && Taken(ws, last)
    ensures Taken(ws + Lifted(more), last) && Possible(StateAt(ws + Lifted(more)), last)
  {
    assert last.Receive? ==> PeerTable(ws + Lifted(more), last.token.client) == PeerTable(ws, last.token.client);
  }

  lemma ContinuedBy(ws: seq<WorldStep>, more: seq<Step>, last: Step, all: seq<WorldStep>)
    requires Continued(ws, more) && all == ws + Lifted(more) && Taken(all, last) && Possible(StateAt(all), last)
    ensures PossibleWorld(all + [Here(last)]) && TakenByConsumers(all + [Here(last)])
    ensures StepsOf(all + [Here(last)]) == StepsOf(ws) + more + [last]
    ensures forall c: Client :: PeerTable(all + [Here(last)], c) == PeerTable(ws, c)
  {
    HereStep(all, last);
  }

  lemma ContinueOnce(ws: seq<WorldStep>, more: seq<Step>, last: Step)
    requires Continued(ws, more) && Possible(Run(INIT, StepsOf(ws) + more), last) && Taken(ws, last)
    ensures Continued(ws, more + [last])
  {
    StillTaken(ws, more, last);
    ContinuedBy(ws, more, last, ws + Lifted(more));
    LiftedPush(ws, more, last);
    assert StepsOf(ws) + more + [last] == StepsOf(ws) + (more + [last]);
  }

  lemma PrefixIsPossible(steps: seq<Step>, more: seq<Step>, last: Step)
    requires PossibleRun(INIT, steps + (more + [last]))
    ensures PossibleRun(INIT, steps + more) && Possible(Run(INIT, steps + more), last)
  {
    var all := steps + (more + [last]);
    assert all[..|all| - 1] == steps + more;
  }

  /** A run of this side goes on in the world as long as the peers take what they are sent. */
  lemma {:induction false} Continue(ws: seq<WorldStep>, more: seq<Step>)
    requires PossibleWorld(ws) && TakenByConsumers(ws) && PossibleRun(INIT, StepsOf(ws) + more)
    requires forall i :: 0 <= i < |more| ==> Taken(ws, more[i])
    ensures Continued(ws, more)
    decreases |more|
  {
    if more == [] {
      assert ws + Lifted(more) == ws && StepsOf(ws) + more == StepsOf(ws);
    } else {
      var shorter, last := more[..|more| - 1], more[|more| - 1];
      assert more == shorter + [last];
      PrefixIsPossible(StepsOf(ws), shorter, last);
      Continue(ws, shorter);
      ContinueOnce(ws, shorter, last);
    }
  }

  lemma Go(ws: seq<WorldStep>, l: Live, first: seq<PeerEntry>, second: seq<PeerEntry>, more: seq<Step>, l': Live)
    requires World(ws, l, first, second) && Leads(l, more, l')
    requires forall i :: 0 <= i < |more| ==> Taken(ws, more[i])
    ensures World(ws + Lifted(more), l', first, second) && StepsOf(ws + Lifted(more)) == StepsOf(ws) + more
  {
    GoOn(StepsOf(ws), l, more, l');
    LiveRunsArePossible(StepsOf(ws) + more);
    Continue(ws, more);
  }

  lemma PeerStep(ws: seq<WorldStep>, w: WorldStep)
    requires PossibleWorld(ws) && TakenByConsumers(ws) && !w.Here? && StepOk(ws, w)
    ensures PossibleWorld(ws + [w]) && TakenByConsumers(ws + [w]) && StepsOf(ws + [w]) == StepsOf(ws)
    ensures forall c: Client :: c != w.client ==> PeerTable(ws + [w], c) == PeerTable(ws, c)
    ensures PeerTable(ws + [w], w.client) ==
            if w.PeerMaps? then PeerTable(ws, w.client) + [w.entry] else Dropped(PeerTable(ws, w.client), w.entry)
  {
    assert (ws + [w])[..|ws + [w]| - 1] == ws;
  }

  // The first peer's mappings of key 0, and the second peer's of keys 0 and 1.

  const OLD := PeerEntry(1, 0, Consumer)

  const NEW := PeerEntry(2, 0, Consumer)

  const PROVIDED := PeerEntry(2, 0, Provider)

  const CONSUMED := PeerEntry(2, 1, Consumer)

  lemma FirstArrives() returns (ws: seq<WorldStep>)
    ensures World(ws, AFTER_ARRIVE, [], [])
  {
    Arriving();
    Go([], START, [], [], ARRIVE, AFTER_ARRIVE);
    ws := [] + Lifted(ARRIVE);
  }

  lemma FirstRequests(ws: seq<WorldStep>) returns (longer: seq<WorldStep>)
    requires World(ws, AFTER_ARRIVE, [], [])
    ensures World(longer, AFTER_REQUEST, [], [])
  {
    Requesting();
    Go(ws, AFTER_ARRIVE, [], [], REQUEST, AFTER_REQUEST);
    longer := ws + Lifted(REQUEST);
  }

  lemma FirstMaps(ws: seq<WorldStep>) returns (longer: seq<WorldStep>)
    requires World(ws, AFTER_REQUEST, [], [])
    ensures World(longer, AFTER_CONNECT, [OLD], [])
  {
    Connecting();
    Go(ws, AFTER_REQUEST, [], [], CONNECT, AFTER_CONNECT);
    longer := ws + Lifted(CONNECT);
    assert CONNECT[0] in StepsOf(longer);
    PeerStep(longer, PeerMaps(1, OLD));
    longer := longer + [PeerMaps(1, OLD)];
  }

  lemma FirstSubscribes(ws: seq<WorldStep>) returns (longer: seq<WorldStep>)
    requires World(ws, AFTER_CONNECT, [OLD], [])
    ensures World(longer, AFTER_SUBSCRIBE, [OLD], [])
  {
    Subscribing();
    Go(ws, AFTER_CONNECT, [OLD], [], SUBSCRIBE, AFTER_SUBSCRIBE);
    longer := ws + Lifted(SUBSCRIBE);
  }

  lemma FirstReads(ws: seq<WorldStep>) returns (longer: seq<WorldStep>)
    requires World(ws, AFTER_SUBSCRIBE, [OLD], [])
    ensures World(longer, AFTER_READ, [OLD], [])
  {
    Reading();
    assert Takes([OLD], READER.handle);
    Go(ws, AFTER_SUBSCRIBE, [OLD], [], READ, AFTER_READ);
    longer := ws + Lifted(READ);
  }

  lemma FirstLosesInterest(ws: seq<WorldStep>) returns (longer: seq<WorldStep>)
    requires World(ws, AFTER_READ, [OLD], [])
    ensures World(longer, AFTER_LOSING, [], [])
  {
    PeerStep(ws, PeerUnmaps(1, OLD));
    longer := ws + [PeerUnmaps(1, OLD)];
    assert Dropped([OLD], OLD) == [];
    LosingInterest();
    Go(longer, AFTER_READ, [], [], LOSE_INTEREST, AFTER_LOSING);
    longer := longer + Lifted(LOSE_INTEREST);
  }

  lemma SecondIsAsked(ws: seq<WorldStep>) returns (longer: seq<WorldStep>)
    requires World(ws, AFTER_LOSING, [], [])
    ensures World(longer, AFTER_ASK, [], [PROVIDED])
  {
    Asking();
    Go(ws, AFTER_LOSING, [], [], ASK, AFTER_ASK);
    longer := ws + Lifted(ASK);
    LiveRunsArePossible(StepsOf(longer));
    assert ASKING.sent[0] == B.Sent(2, 0, 2);
    PeerStep(longer, PeerMaps(2, PROVIDED));
    longer := longer + [PeerMaps(2, PROVIDED)];
  }

  lemma SecondReplies(ws: seq<WorldStep>) returns (longer: seq<WorldStep>)
    requires World(ws, AFTER_ASK, [], [PROVIDED])
    ensures World(longer, AFTER_PAIR, [], [PROVIDED])
  {
    Pairing();
    Go(ws, AFTER_ASK, [], [PROVIDED], PAIR, AFTER_PAIR);
    longer := ws + Lifted(PAIR);
  }

  lemma SecondConnects(ws: seq<WorldStep>) returns (longer: seq<WorldStep>)
    requires World(ws, AFTER_PAIR, [], [PROVIDED])
    ensures World(longer, AFTER_CLASH, [], [PROVIDED, CONSUMED])
  {
    Clashing();
    Go(ws, AFTER_PAIR, [], [PROVIDED], CLASH, AFTER_CLASH);
    longer := ws + Lifted(CLASH);
    assert CLASH[2] in StepsOf(longer);
    PeerStep(longer, PeerMaps(2, CONSUMED));
    longer := longer + [PeerMaps(2, CONSUMED)];
  }

  lemma BothAreConnected() returns (ws: seq<WorldStep>)
    ensures World(ws, AFTER_CLASH, [], [PROVIDED, CONSUMED])
  {
    ws := FirstArrives();
    ws := FirstRequests(ws);
    ws := FirstMaps(ws);
    ws := FirstSubscribes(ws);
    ws := FirstReads(ws);
    ws := FirstLosesInterest(ws);
    ws := SecondIsAsked(ws);
    ws := SecondReplies(ws);
    ws := SecondConnects(ws);
  }

  lemma SecondIsSent() returns (ws: seq<WorldStep>)
    ensures World(ws, AFTER_SEND, [], [PROVIDED, CONSUMED])
  {
    ws := BothAreConnected();
    Sending();
    Go(ws, AFTER_CLASH, [], [PROVIDED, CONSUMED], SEND, AFTER_SEND);
    ws := ws + Lifted(SEND);
  }

  /** While the second peer has both mappings, its lookup for the update of key 1 stops at the one of key 0, a service
      it provides itself: it does not take the update. */
  lemma ClashingHandleLosesTheUpdate() returns (ws: seq<WorldStep>)
    ensures PossibleWorld(ws) && TakenByConsumers(ws) && LiveRun(StepsOf(ws)) && SECOND in Out(StateAt(ws), 1, 0)
    ensures CONSUMED in PeerTable(ws, SECOND.client) && CONSUMED.handle == SECOND.handle
    ensures Finds(PeerTable(ws, SECOND.client), SECOND.handle) == Some(PROVIDED)
    ensures !Takes(PeerTable(ws, SECOND.client), SECOND.handle)
  {
    ws := SecondIsSent();
    LiveRunsArePossible(StepsOf(ws));
  }

  lemma SecondDrops(ws: seq<WorldStep>) returns (longer: seq<WorldStep>)
    requires World(ws, AFTER_SEND, [], [PROVIDED, CONSUMED])
    ensures World(longer, AFTER_SEND, [], [CONSUMED])
  {
    PeerStep(ws, PeerUnmaps(2, PROVIDED));
    assert [PROVIDED, CONSUMED][1..] == [CONSUMED];
    assert Dropped([CONSUMED], PROVIDED) == [CONSUMED];
    longer := ws + [PeerUnmaps(2, PROVIDED)];
  }

  lemma SecondReleases(ws: seq<WorldStep>) returns (longer: seq<WorldStep>)
    requires World(ws, AFTER_SEND, [], [CONSUMED])
    ensures World(longer, AFTER_RELEASE, [], [CONSUMED])
  {
    Releasing();
    assert Takes([CONSUMED], SECOND.handle);
    Go(ws, AFTER_SEND, [], [CONSUMED], RELEASE, AFTER_RELEASE);
    longer := ws + Lifted(RELEASE);
  }

  lemma SecondLeavesWorld(ws: seq<WorldStep>) returns (longer: seq<WorldStep>)
    requires World(ws, AFTER_RELEASE, [], [CONSUMED])
    ensures World(longer, AFTER_LEAVE, [], [CONSUMED])
  {
    Leaving();
    Go(ws, AFTER_RELEASE, [], [CONSUMED], LEAVE, AFTER_LEAVE);
    longer := ws + Lifted(LEAVE);
  }

  lemma FirstReturns(ws: seq<WorldStep>) returns (longer: seq<WorldStep>)
    requires World(ws, AFTER_LEAVE, [], [CONSUMED])
    ensures World(longer, AFTER_RECONNECT, [NEW], [CONSUMED])
  {
    Reconnecting();
    Go(ws, AFTER_LEAVE, [], [CONSUMED], RECONNECT, AFTER_RECONNECT);
    longer := ws + Lifted(RECONNECT);
    assert RECONNECT[1] in StepsOf(longer);
    PeerStep(longer, PeerMaps(1, NEW));
    longer := longer + [PeerMaps(1, NEW)];
  }

  lemma SlotIsReused(ws: seq<WorldStep>) returns (longer: seq<WorldStep>)
    requires World(ws, AFTER_RECONNECT, [NEW], [CONSUMED])
    ensures World(longer, AFTER_REUSE, [NEW], [CONSUMED])
  {
    Reusing();
    Go(ws, AFTER_RECONNECT, [NEW], [CONSUMED], REUSE, AFTER_REUSE);
    longer := ws + Lifted(REUSE);
  }

  /** Once it has dropped that mapping, it takes the update of key 1, and its acknowledgement frees a slot that the
      first peer still reads. */
  lemma PeersOverwriteASlotInUse() returns (ws: seq<WorldStep>)
    ensures PossibleWorld(ws) && TakenByConsumers(ws) && LiveRun(StepsOf(ws)) && Overwritten(StateAt(ws))
  {
    ws := SecondIsSent();
    ws := SecondDrops(ws);
    ws := SecondReleases(ws);
    ws := SecondLeavesWorld(ws);
    ws := FirstReturns(ws);
    ws := SlotIsReused(ws);
    LiveRunsArePossible(StepsOf(ws));
    FinalIsOverwritten();
  }
}
