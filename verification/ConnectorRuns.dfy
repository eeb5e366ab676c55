/** What holds in every run of the connectors. */
module ConnectorRuns {
  import opened Prelude
  import opened Connectors
  import opened ConnectorSafety
  import ConnectorSteps
  import ConnectorLives
  import ConnectorEnds

  // Every step keeps the invariant.

  lemma ReceiveKeeps(s: State, t: Tid)
    requires Inv(s) && Can(s, ReceiveConnect(t))
    ensures Inv(Do(s, ReceiveConnect(t)))
  {
    if !ServerOwns(s.phase) {
      ConnectorSteps.RefusedConnectKeeps(s, t);
    } else if s.slot.Some? {
      ConnectorLives.AbortKeeps(s);
    } else {
      ConnectorLives.AcceptKeeps(s, t);
    }
  }

  lemma SetServerKeeps(s: State, t: Tid)
    requires Inv(s) && Can(s, SetServer(t))
    ensures Inv(Do(s, SetServer(t)))
  {
    if s.clients[s.calls[t].client].life.Alive? {
      ConnectorLives.SetKeeps(s, t);
    } else {
      ConnectorSteps.RefusedServerKeeps(s, t);
    }
  }

  lemma NotifyKeeps(s: State)
    requires Inv(s) && Can(s, DisableNotify)
    ensures Inv(Do(s, DisableNotify))
  {
    if s.slot.Some? {
      ConnectorEnds.NotifyKeeps(s);
    } else {
      ConnectorEnds.DisableKeeps(s, DisableNotify);
    }
  }

  predicate IsConnectStep(step: Step) {
    step.CreateClient? || step.EnableServer? || step.LockWeak? || step.ReceiveConnect? || step.SetServer? ||
    step.Announce? || step.DropReturn? || step.LeaveIndication?
  }

  predicate IsCallStep(step: Step) {
    step.StartCall? || step.StoreMark? || step.ClearMark? || step.EndCall? || step.StartSend? || step.EndSend? ||
    step.ClearEvents? || step.FinishRemove?
  }

  predicate IsEndStep(step: Step) {
    step.BeginDestroy? || step.UnregisterClient? || step.FreeClient? || step.DisableUnregister? || step.DisableReset? ||
    step.DisableNotify? || step.TellReset? || step.TellCallback? || step.TellDone? || step.DisableDone?
  }

  lemma ConnectStepKeeps(s: State, step: Step)
    requires Inv(s) && Can(s, step) && IsConnectStep(step)
    ensures Inv(Do(s, step))
  {
    match step
    case CreateClient(c, t, compatible) => ConnectorLives.CreateKeeps(s, c, t, compatible);
    case EnableServer(t, compatible) => ConnectorLives.EnableKeeps(s, t, compatible);
    case LockWeak(t) => ConnectorSteps.LockKeeps(s, t);
    case ReceiveConnect(t) => ReceiveKeeps(s, t);
    case SetServer(t) => SetServerKeeps(s, t);
    case Announce(t) => ConnectorLives.AnnounceKeeps(s, t);
    case DropReturn(t) => ConnectorSteps.DropKeeps(s, t);
    case LeaveIndication(t) => ConnectorSteps.LeaveKeeps(s, t);
  }

  lemma CallStepKeeps(s: State, step: Step)
    requires Inv(s) && Can(s, step) && IsCallStep(step)
    ensures Inv(Do(s, step))
  {
    match step
    case StartCall(c, t) => ConnectorSteps.StartCallKeeps(s, c, t);
    case StoreMark(t, mark) => ConnectorSteps.StoreMarkKeeps(s, t, mark);
    case ClearMark(t, mark) => ConnectorSteps.ClearMarkKeeps(s, t, mark);
    case EndCall(t) => ConnectorSteps.EndCallKeeps(s, t);
    case StartSend(t) => ConnectorSteps.StartSendKeeps(s, t);
    case EndSend(t) => ConnectorSteps.EndSendKeeps(s, t);
    case ClearEvents(t) => ConnectorSteps.ClearEventsKeeps(s, t);
    case FinishRemove(t) => ConnectorEnds.FinishRemoveKeeps(s, t);
  }

  lemma LifeStepKeeps(s: State, step: Step)
    requires Inv(s) && Can(s, step) && (step.BeginDestroy? || step.UnregisterClient? || step.FreeClient?)
    ensures Inv(Do(s, step))
  {
    match step
    case BeginDestroy(c, t) => ConnectorEnds.DestroyKeeps(s, c, t);
    case UnregisterClient(c) => ConnectorEnds.UnregisterClientKeeps(s, c);
    case FreeClient(c) => ConnectorEnds.FreeClientKeeps(s, c);
  }

  lemma DisableStepKeeps(s: State, step: Step)
    requires Inv(s) && Can(s, step)
    requires step.DisableUnregister? || step.DisableReset? || step.DisableNotify? || step.DisableDone?
    ensures Inv(Do(s, step))
  {
    if step.DisableNotify? { NotifyKeeps(s); } else { ConnectorEnds.DisableKeeps(s, step); }
  }

  lemma TellStepKeeps(s: State, step: Step)
    requires Inv(s) && Can(s, step) && (step.TellReset? || step.TellCallback? || step.TellDone?)
    ensures Inv(Do(s, step))
  {
    match step
    case TellReset(t) => ConnectorEnds.TellResetKeeps(s, t);
    case TellCallback => ConnectorEnds.CallbackKeeps(s);
    case TellDone => ConnectorEnds.DoneKeeps(s);
  }

  lemma EndStepKeeps(s: State, step: Step)
    requires Inv(s) && Can(s, step) && IsEndStep(step)
    ensures Inv(Do(s, step))
  {
    if step.BeginDestroy? || step.UnregisterClient? || step.FreeClient? {
      LifeStepKeeps(s, step);
    } else if step.TellReset? || step.TellCallback? || step.TellDone? {
      TellStepKeeps(s, step);
    } else {
      DisableStepKeeps(s, step);
    }
  }

  lemma StepKeeps(s: State, step: Step)
    requires Inv(s) && Can(s, step)
    ensures Inv(Do(s, step))
  {
    if IsConnectStep(step) {
      ConnectStepKeeps(s, step);
    } else if IsCallStep(step) {
      CallStepKeeps(s, step);
    } else {
      EndStepKeeps(s, step);
    }
  }

  // Runs.

  /** Every step is one the program has reached and for which everything it needs is there. */
  predicate Possible(steps: seq<Step>)
    decreases |steps|, 0
  {
    steps == [] ||
    (Possible(steps[..|steps| - 1]) && Can(After(steps[..|steps| - 1]), steps[|steps| - 1]))
  }

  function After(steps: seq<Step>): State
    requires Possible(steps)
    decreases |steps|, 1
  {
    if steps == [] then INIT else Do(After(steps[..|steps| - 1]), steps[|steps| - 1])
  }

  lemma InitOk()
    ensures Inv(INIT)
  {
    assert Listeners(INIT.calls) == {};
  }

  lemma {:induction false} RunsKeepInv(steps: seq<Step>)
    requires Possible(steps)
    ensures Inv(After(steps))
    decreases |steps|
  {
    if steps == [] {
      InitOk();
    } else {
      RunsKeepInv(steps[..|steps| - 1]);
      StepKeeps(After(steps[..|steps| - 1]), steps[|steps| - 1]);
    }
  }

  lemma Extend(steps: seq<Step>, step: Step)
    requires Possible(steps) && Can(After(steps), step)
    ensures Possible(steps + [step]) && After(steps + [step]) == Do(After(steps), step)
  {
    assert (steps + [step])[..|steps + [step]| - 1] == steps;
  }

  /** No run reaches a step that lacks an object or drops a token nobody holds. */
  lemma NoStepLacksAToken(steps: seq<Step>, step: Step)
    requires Possible(steps) && Reached(After(steps), step)
    ensures Possible(steps + [step])
  {
    RunsKeepInv(steps);
    ReachedIsSound(After(steps), step);
    Extend(steps, step);
  }

  /** Every client connector is told available, not available, available, and so on. */
  lemma StateChangesAlternate(steps: seq<Step>, c: ClientId)
    requires Possible(steps) && c in After(steps).clients
    ensures Alternates(After(steps).clients[c].log, Available)
  {
    RunsKeepInv(steps);
    assert ClientOk(After(steps), c);
  }

  /** Some endpoint to the client connector exists. */
  predicate HasEndpoint(s: State, c: ClientId) {
    SlotIsOf(s, c) || Tells(s.phase, c) || exists t :: t in s.calls && HeldClient(s.calls[t]) == Some(c)
  }

  lemma EndpointHasToken(s: State, c: ClientId)
    requires Inv(s) && HasEndpoint(s, c)
    ensures c in s.clients && s.clients[c].tokens > 0
  {
    if t :| t in s.calls && HeldClient(s.calls[t]) == Some(c) {
      assert ActivityOk(s, s.calls[t]);
      HolderCounts(s, t);
    } else {
      assert ClientOk(s, c);
    }
  }

  /** An endpoint to a client connector exists only while that connector does. */
  lemma EndpointsAreToLiveClients(steps: seq<Step>, c: ClientId)
    requires Possible(steps) && HasEndpoint(After(steps), c)
    ensures c in After(steps).clients && !After(steps).clients[c].life.Freed?
  {
    RunsKeepInv(steps);
    EndpointHasToken(After(steps), c);
    TokensMeanNotFreed(After(steps), c);
  }

  /** Some endpoint to the server's connection exists. */
  ghost predicate HasServerEndpoint(s: State, k: Conn) {
    ServerIs(s, k) || exists t :: t in s.calls && HeldConn(s.calls[t]) == Some(k)
  }

  lemma ServerEndpointIsOnSlot(s: State, k: Conn)
    requires Inv(s) && HasServerEndpoint(s, k)
    ensures s.slot == Some(k) && !s.phase.Off?
  {
    if t :| t in s.calls && HeldConn(s.calls[t]) == Some(k) {
      assert ActivityOk(s, s.calls[t]);
    } else {
      assert ClientOk(s, s.conns[k].client);
    }
  }

  /** An endpoint to the server exists only while the server has the connection and is not disabled. */
  lemma EndpointsAreToALiveServer(steps: seq<Step>, k: Conn)
    requires Possible(steps) && HasServerEndpoint(After(steps), k)
    ensures After(steps).slot == Some(k) && !After(steps).phase.Off?
  {
    var s := After(steps);
    assert Inv(s) by { RunsKeepInv(steps); }
    ServerEndpointIsOnSlot(s, k);
  }

  /** A client pointer stored for an event points to the connection that the server has. */
  lemma StoredPointersAreLive(steps: seq<Step>, mark: Mark)
    requires Possible(steps) && mark in After(steps).marks
    ensures var s := After(steps); s.slot == Some(s.marks[mark]) && s.marks[mark] in s.conns
  {
    RunsKeepInv(steps);
  }

  // Waits end.

  /** No call is in flight and disable() is not in the middle of telling a client. */
  predicate Quiet(s: State) {
    s.calls == map[] && !(s.phase.Telling? || s.phase.TellWait? || s.phase.Told? || s.phase.Notified?)
  }

  /** Once all calls have returned, a destructor that has dropped its token and its endpoint and left the
      record finds no token: neither side's tokens keep the other's alive. */
  lemma NoOwnershipCycle(s: State, c: ClientId)
    requires Inv(s) && Quiet(s) && c in s.clients && !s.clients[c].life.Alive?
    ensures s.clients[c].tokens == 0
  {
    assert ClientOk(s, c);
    assert ClientThreads(s.calls, c) == {};
    if s.slot.Some? {
      assert ConnOk(s, s.slot.value);
      assert ConnThreads(s.calls, s.slot.value) == {};
    }
  }
}
