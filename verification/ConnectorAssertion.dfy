/** When the server's assertion that it has no client yet can fail: a client connector that is being
    destroyed with a connect in flight, and a second one that connects meanwhile. */
module ConnectorAssertion {
  import opened Prelude
  import opened Connectors
  import opened ConnectorSafety
  import opened ConnectorRuns

  /** Two clients with tokens are never both in the record. */
  lemma OneInRecord(s: State, c: ClientId, d: ClientId)
    requires ClientsOk(s) && c in s.clients && d in s.clients && c != d
    requires s.clients[c].tokens > 0 && s.clients[d].tokens > 0
    ensures s.clients[c].life.Gone? || s.clients[d].life.Gone?
  {
    assert ClientOk(s, c) && ClientOk(s, d);
  }

  /** The server has the client of another connector than `c`, and the destructor of one of the two waits. */
  ghost predicate Clashes(s: State, c: ClientId) {
    exists d :: d in s.clients && d != c && SlotIsOf(s, d) && (s.clients[d].life.Gone? || Waits(s, c))
  }

  predicate Waits(s: State, c: ClientId) {
    c in s.clients && s.clients[c].life.Gone?
  }

  lemma OccupiedIsClash(s: State, t: Tid)
    requires Inv(s) && Can(s, ReceiveConnect(t))
    ensures s.slot.Some? <==> Clashes(s, s.calls[t].client)
  {
    assert ActivityOk(s, s.calls[t]);
    if s.slot.Some? {
      var d := s.conns[s.slot.value].client;
      SlotIsThere(s);
      assert SlotIsOf(s, d);
      OneInRecord(s, s.calls[t].client, d);
    }
  }

  lemma AbortsWhenOccupied(s: State, t: Tid)
    requires Can(s, ReceiveConnect(t))
    ensures Do(s, ReceiveConnect(t)).aborted <==> ServerOwns(s.phase) && s.slot.Some?
  {
  }

  /** The connect of thread `t` can go on, and meets a stored client exactly when that is of another connector
      and one of the two has left the record with its destructor still waiting. */
  ghost predicate FailsOnClash(s: State, t: Tid) {
    && Can(s, ReceiveConnect(t))
    && (Do(s, ReceiveConnect(t)).aborted <==> ServerOwns(s.phase) && Clashes(s, s.calls[t].client))
  }

  lemma ConnectAborts(s: State, t: Tid)
    requires Inv(s) && Reached(s, ReceiveConnect(t))
    ensures FailsOnClash(s, t)
  {
    ReachedIsSound(s, ReceiveConnect(t));
    OccupiedIsClash(s, t);
    AbortsWhenOccupied(s, t);
  }

  lemma AssertionFailsIff(steps: seq<Step>, t: Tid)
    requires Possible(steps) && Reached(After(steps), ReceiveConnect(t))
    ensures FailsOnClash(After(steps), t)
  {
    var s := After(steps);
    assert Inv(s) by { RunsKeepInv(steps); }
    ConnectAborts(s, t);
  }

  // The condition under which it never fails.

  /** No client connector is created while the destructor of an earlier one is still waiting. */
  ghost predicate Orderly(steps: seq<Step>)
    requires Possible(steps)
    decreases |steps|
  {
    steps == [] ||
    (Orderly(steps[..|steps| - 1]) && (steps[|steps| - 1].CreateClient? ==> NoneWaits(After(steps[..|steps| - 1]))))
  }

  ghost predicate NoneWaits(s: State) {
    forall c :: c in s.clients ==> !s.clients[c].life.Gone?
  }

  ghost predicate OneLive(s: State) {
    forall c, d :: c in s.clients && d in s.clients && !s.clients[c].life.Freed? && !s.clients[d].life.Freed? ==> c == d
  }

  ghost predicate LivesEnd(s: State, s': State) {
    s'.clients.Keys == s.clients.Keys &&
    forall c :: c in s.clients && s.clients[c].life.Freed? ==> s'.clients[c].life.Freed?
  }

  lemma ConnectLivesEnd(s: State, step: Step)
    requires Can(s, step) && IsConnectStep(step) && !step.CreateClient?
    ensures LivesEnd(s, Do(s, step))
  {
  }

  lemma CallLivesEnd(s: State, step: Step)
    requires Can(s, step) && IsCallStep(step)
    requires step.FinishRemove? && s.calls[step.t].next.ThenDestroy? && s.calls[step.t].next.client in s.clients ==>
               !s.clients[s.calls[step.t].next.client].life.Freed?
    ensures LivesEnd(s, Do(s, step))
  {
  }

  predicate IsLifeStep(step: Step) {
    step.BeginDestroy? || step.UnregisterClient? || step.FreeClient?
  }

  lemma DestroyLivesEnd(s: State, step: Step)
    requires Can(s, step) && IsLifeStep(step)
    ensures LivesEnd(s, Do(s, step))
  {
  }

  lemma TellLivesEnd(s: State, t: Tid)
    requires Can(s, TellReset(t))
    ensures LivesEnd(s, Do(s, TellReset(t)))
  {
  }

  lemma DisableLivesEnd(s: State, step: Step)
    requires Can(s, step) && IsEndStep(step)
    requires !IsLifeStep(step) && !step.TellReset?
    ensures LivesEnd(s, Do(s, step))
  {
  }

  lemma CreateKeepsOneLive(s: State, step: Step)
    requires ClientsOk(s) && OneLive(s) && NoneWaits(s) && Can(s, step) && step.CreateClient?
    ensures OneLive(Do(s, step))
  {
    forall c | c in s.clients ensures s.clients[c].life.Freed? {
      assert ClientOk(s, c);
    }
  }

  lemma StepKeepsOneLive(s: State, step: Step)
    requires Inv(s) && OneLive(s) && Can(s, step) && (step.CreateClient? ==> NoneWaits(s))
    ensures OneLive(Do(s, step))
  {
    if step.CreateClient? {
      CreateKeepsOneLive(s, step);
    } else if IsConnectStep(step) {
      ConnectLivesEnd(s, step);
    } else if IsCallStep(step) {
      if step.FinishRemove? { assert ActivityOk(s, s.calls[step.t]); }
      CallLivesEnd(s, step);
    } else if IsLifeStep(step) {
      DestroyLivesEnd(s, step);
    } else if step.TellReset? {
      TellLivesEnd(s, step.t);
    } else {
      DisableLivesEnd(s, step);
    }
  }

  lemma ConnectsDoNotAbort(s: State, step: Step)
    requires Can(s, step) && IsConnectStep(step) && !step.ReceiveConnect?
    ensures !Do(s, step).aborted
  {
  }

  lemma CallsDoNotAbort(s: State, step: Step)
    requires Can(s, step) && IsCallStep(step)
    ensures !Do(s, step).aborted
  {
  }

  lemma LivesDoNotAbort(s: State, step: Step)
    requires Can(s, step) && (IsLifeStep(step) || step.TellReset?)
    ensures !Do(s, step).aborted
  {
  }

  lemma DisableDoesNotAbort(s: State, step: Step)
    requires Can(s, step) && IsEndStep(step) && !IsLifeStep(step) && !step.TellReset?
    ensures !Do(s, step).aborted
  {
  }

  lemma OneLiveHasNoRival(s: State, t: Tid)
    requires Inv(s) && OneLive(s) && Can(s, ReceiveConnect(t))
    ensures s.slot.None?
  {
    assert ActivityOk(s, s.calls[t]);
    TokensMeanNotFreed(s, s.calls[t].client);
    if s.slot.Some? {
      SlotIsThere(s);
      TokensMeanNotFreed(s, s.conns[s.slot.value].client);
    }
  }

  lemma OneLiveDoesNotAbort(s: State, step: Step)
    requires Inv(s) && OneLive(s) && Can(s, step)
    ensures !Do(s, step).aborted
  {
    if step.ReceiveConnect? {
      OneLiveHasNoRival(s, step.t);
      AbortsWhenOccupied(s, step.t);
    } else if IsConnectStep(step) {
      ConnectsDoNotAbort(s, step);
    } else if IsCallStep(step) {
      CallsDoNotAbort(s, step);
    } else if IsLifeStep(step) || step.TellReset? {
      LivesDoNotAbort(s, step);
    } else {
      DisableDoesNotAbort(s, step);
    }
  }

  /** In an orderly run the assertion never fails. */
  lemma {:induction false} OrderlyRunsNeverAbort(steps: seq<Step>)
    requires Possible(steps) && Orderly(steps)
    ensures OneLive(After(steps)) && !After(steps).aborted
    decreases |steps|
  {
    if steps != [] {
      var before, step := steps[..|steps| - 1], steps[|steps| - 1];
      OrderlyRunsNeverAbort(before);
      RunsKeepInv(before);
      StepKeepsOneLive(After(before), step);
      OneLiveDoesNotAbort(After(before), step);
    }
  }

  // A run in which it fails.

  const S3 := State(map[0 := Client(Alive, None, [], 2)], map[], 0, map[0 := Connecting(0)], Some(0), On, None,
                    map[], 3, 1, {}, Some(0), false)

  const S5 := State(map[0 := Client(Gone, None, [], 1)], map[], 0, map[0 := Connecting(0)], None, On, None,
                    map[], 3, 1, {}, Some(0), false)

  const S6 := State(map[0 := Client(Gone, None, [], 1), 1 := Client(Alive, None, [], 1)], map[], 0,
                    map[0 := Connecting(0), 1 := Indicating(1)], Some(1), On, None, map[], 4, 1, {1}, Some(0), false)

  const S7 := State(map[0 := Client(Gone, None, [], 2), 1 := Client(Alive, None, [], 1)],
                    map[0 := Connection(0, 1, false, false)], 1, map[0 := Connected(0, 0), 1 := Indicating(1)],
                    Some(1), On, Some(0), map[], 4, 2, {1}, Some(0), false)

  const S1 := State(map[0 := Client(Alive, None, [], 1)], map[], 0, map[], Some(0), Off, None,
                    map[], 0, 0, {}, None, false)

  const S2 := State(map[0 := Client(Alive, None, [], 1)], map[], 0, map[0 := Indicating(0)], Some(0), On, None,
                    map[], 3, 1, {}, Some(0), false)

  const S4 := State(map[0 := Client(Reset, None, [], 1)], map[], 0, map[0 := Connecting(0)], Some(0), On, None,
                    map[], 3, 1, {}, Some(0), false)

  lemma FirstSteps()
    ensures Can(INIT, CreateClient(0, 0, true)) && Do(INIT, CreateClient(0, 0, true)) == S1
    ensures Can(S1, EnableServer(0, true)) && Do(S1, EnableServer(0, true)) == S2
    ensures Can(S2, LockWeak(0)) && Do(S2, LockWeak(0)) == S3
  {
  }

  lemma GoingSteps()
    ensures Can(S3, BeginDestroy(0, 1)) && Do(S3, BeginDestroy(0, 1)) == S4
    ensures Can(S4, UnregisterClient(0)) && Do(S4, UnregisterClient(0)) == S5
  {
  }

  /** The first client is there before the server: the thread in enable() indicates the server to it. */
  lemma FirstConnects()
    ensures var run := [CreateClient(0, 0, true), EnableServer(0, true), LockWeak(0)];
            Possible(run) && After(run) == S3
  {
    var run := [CreateClient(0, 0, true), EnableServer(0, true), LockWeak(0)];
    FirstSteps();
    Extend([], run[0]);
    assert [] + [run[0]] == run[..1];
    Extend(run[..1], run[1]);
    assert run[..1] + [run[1]] == run[..2];
    Extend(run[..2], run[2]);
    assert run[..2] + [run[2]] == run;
  }

  lemma FirstGoes(run: seq<Step>)
    requires Possible(run) && After(run) == S3
    ensures var all := run + [BeginDestroy(0, 1), UnregisterClient(0)]; Possible(all) && After(all) == S5
  {
    GoingSteps();
    Extend(run, BeginDestroy(0, 1));
    Extend(run + [BeginDestroy(0, 1)], UnregisterClient(0));
    assert run + [BeginDestroy(0, 1)] + [UnregisterClient(0)] == run + [BeginDestroy(0, 1), UnregisterClient(0)];
  }

  lemma SecondComes(run: seq<Step>)
    requires Possible(run) && After(run) == S5
    ensures Possible(run + [CreateClient(1, 1, true)]) && After(run + [CreateClient(1, 1, true)]) == S6
  {
    Extend(run, CreateClient(1, 1, true));
  }

  lemma FirstIsStored(run: seq<Step>)
    requires Possible(run) && After(run) == S6
    ensures Possible(run + [ReceiveConnect(0)]) && After(run + [ReceiveConnect(0)]) == S7
  {
    Extend(run, ReceiveConnect(0));
  }

  lemma SecondMeetsFirst(run: seq<Step>)
    requires Possible(run) && After(run) == S7
    ensures var all := run + [LockWeak(1), ReceiveConnect(1)]; Possible(all) && After(all).aborted
  {
    Extend(run, LockWeak(1));
    Extend(run + [LockWeak(1)], ReceiveConnect(1));
    assert run + [LockWeak(1)] + [ReceiveConnect(1)] == run + [LockWeak(1), ReceiveConnect(1)];
  }

  /** Without the condition there is a run in which the assertion fails. */
  lemma AConnectInFlightFailsTheAssertion() returns (steps: seq<Step>)
    ensures Possible(steps) && After(steps).aborted
  {
    FirstConnects();
    steps := [CreateClient(0, 0, true), EnableServer(0, true), LockWeak(0)];
    FirstGoes(steps);
    steps := steps + [BeginDestroy(0, 1), UnregisterClient(0)];
    SecondComes(steps);
    steps := steps + [CreateClient(1, 1, true)];
    FirstIsStored(steps);
    steps := steps + [ReceiveConnect(0)];
    SecondMeetsFirst(steps);
    steps := steps + [LockWeak(1), ReceiveConnect(1)];
  }
}
