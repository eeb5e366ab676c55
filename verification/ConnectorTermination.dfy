/** Teardown of the connectors ends: a measure that every step which starts nothing new reduces, and such a
    step in every state in which something is still in flight. */
module ConnectorTermination {
  import opened Prelude
  import opened Connectors
  import opened ConnectorSafety
  import opened ConnectorRuns
  import opened ConnectorEnds

  // The measure.

  /** How many more steps the thread takes at most. */
  function StepsLeft(a: Activity): nat {
    match a
    case Indicating(_) => 10
    case Connecting(_) => 9
    case Connected(_, _) => 8
    case Announcing(_, _) => 7
    case Leaving(_, _) => 6
    case Left(_) => 3
    case Calling(_) => 3
    case Sending(_) => 1
    case Removing(_, cleared, next) => (if next.ThenLeave? then 3 else 0) + (if cleared then 1 else 2)
  }

  function PhasesLeft(p: Phase): nat {
    match p
    case Unregistered => 7
    case Stopping => 6
    case Telling(_, _) => 5
    case TellWait(_, _) => 4
    case Told(_, _) => 3
    case Notified(_, _) => 2
    case Draining => 1
    case _ => 0
  }

  function LifeLeft(x: Client): nat {
    match x.life
    case Resetting => 3
    case Reset => 2
    case Gone => 1
    case _ => 0
  }

  ghost function Measure(s: State): nat {
    One(!s.aborted) + 10 * PhasesLeft(s.phase) + Total(s.calls, StepsLeft) + Total(s.clients, LifeLeft)
  }

  /** The step starts nothing new. */
  predicate Finishes(step: Step) {
    !step.CreateClient? && !step.EnableServer? && !step.StartCall? && !step.StartSend? && !step.StoreMark? &&
    !step.ClearMark? && !step.BeginDestroy? && !step.DisableUnregister?
  }

  /** What a step may do to the measured parts: lives never go back, and thread `t` alone moves. */
  ghost predicate Descends(s: State, s': State, t: Tid) {
    && s'.calls - {t} == s.calls - {t}
    && s'.clients.Keys == s.clients.Keys
    && (forall c :: c in s.clients ==> LifeLeft(s'.clients[c]) <= LifeLeft(s.clients[c]))
    && (s'.aborted == s.aborted || s'.aborted)
    && var before, after := LeftAt(s, t), LeftAt(s', t);
       (before == after && PhasesLeft(s'.phase) == PhasesLeft(s.phase) && s'.aborted && !s.aborted) ||
       (before > after && PhasesLeft(s'.phase) <= PhasesLeft(s.phase)) ||
       (after < before + 10 && PhasesLeft(s'.phase) < PhasesLeft(s.phase)) ||
       (before == after && PhasesLeft(s'.phase) == PhasesLeft(s.phase) &&
        exists c :: c in s.clients && LifeLeft(s'.clients[c]) < LifeLeft(s.clients[c]))
  }

  function LeftAt(s: State, t: Tid): nat {
    if t in s.calls then StepsLeft(s.calls[t]) else 0
  }

  lemma TotalAt(s: State, t: Tid)
    ensures Total(s.calls, StepsLeft) == LeftAt(s, t) + Total(s.calls - {t}, StepsLeft)
  {
    if t in s.calls {
      TotalTake(s.calls, StepsLeft, t);
    } else {
      assert s.calls - {t} == s.calls;
    }
  }

  lemma {:induction false} TotalLess(m: map<ClientId, Client>, n: map<ClientId, Client>)
    requires m.Keys == n.Keys && forall c :: c in m ==> LifeLeft(n[c]) <= LifeLeft(m[c])
    ensures Total(n, LifeLeft) <= Total(m, LifeLeft)
    ensures (exists c :: c in m && LifeLeft(n[c]) < LifeLeft(m[c])) ==> Total(n, LifeLeft) < Total(m, LifeLeft)
    decreases |m|
  {
    if m == map[] {
      assert n == map[];
    } else {
      var k :| k in m;
      if c :| c in m && LifeLeft(n[c]) < LifeLeft(m[c]) { k := c; }
      assert (m - {k}).Keys == m.Keys - {k};
      TotalTake(m, LifeLeft, k);
      TotalTake(n, LifeLeft, k);
      TotalLess(m - {k}, n - {k});
    }
  }

  lemma DescendsReduces(s: State, s': State, t: Tid)
    requires Descends(s, s', t)
    ensures Measure(s') < Measure(s)
  {
    TotalAt(s, t);
    TotalAt(s', t);
    TotalLess(s.clients, s'.clients);
  }

  /** The thread of a step, or an unused one. */
  function ThreadOf(step: Step): Tid {
    match step
    case LockWeak(t) => t
    case ReceiveConnect(t) => t
    case SetServer(t) => t
    case Announce(t) => t
    case DropReturn(t) => t
    case LeaveIndication(t) => t
    case EndCall(t) => t
    case EndSend(t) => t
    case ClearEvents(t) => t
    case FinishRemove(t) => t
    case TellReset(t) => t
    case _ => 0
  }

  lemma LockDescends(s: State, t: Tid)
    requires Can(s, LockWeak(t))
    ensures Descends(s, Do(s, LockWeak(t)), t)
  {
  }

  lemma ReceiveDescends(s: State, t: Tid)
    requires Can(s, ReceiveConnect(t))
    ensures Descends(s, Do(s, ReceiveConnect(t)), t)
  {
  }

  lemma AnnouncingDescends(s: State, step: Step)
    requires Can(s, step) && (step.SetServer? || step.Announce?)
    ensures Descends(s, Do(s, step), ThreadOf(step))
  {
  }

  lemma ReturningDescends(s: State, step: Step)
    requires Can(s, step) && (step.LeaveIndication? || step.EndSend?)
    ensures Descends(s, Do(s, step), ThreadOf(step))
  {
  }

  lemma DroppingDescends(s: State, step: Step)
    requires Can(s, step) && (step.DropReturn? || step.EndCall?)
    ensures Descends(s, Do(s, step), ThreadOf(step))
  {
  }

  lemma ClearingDescends(s: State, t: Tid)
    requires Can(s, ClearEvents(t))
    ensures Descends(s, Do(s, ClearEvents(t)), t)
  {
  }

  lemma RemovalDescends(s: State, s': State, t: Tid)
    requires t in s.calls && s.calls[t].Removing? && s.calls[t].cleared && s.calls[t].conn in s.conns
    requires Removed(s, s', t) && s'.aborted == s.aborted
    requires s.calls[t].next.ThenTell? ==> s.phase.TellWait?
    requires forall c :: c in s.clients && s.calls[t].next == ThenDestroy(c) ==> s.clients[c].life.Resetting?
    ensures Descends(s, s', t)
  {
    forall c | c in s.clients ensures LifeLeft(s'.clients[c]) <= LifeLeft(s.clients[c]) {
      assert RemovedClient(s, s', t, c);
    }
  }

  lemma ClientDescends(s: State, step: Step)
    requires Can(s, step) && (step.UnregisterClient? || step.FreeClient?)
    ensures Descends(s, Do(s, step), ThreadOf(step))
  {
    assert step.c in s.clients && LifeLeft(Do(s, step).clients[step.c]) < LifeLeft(s.clients[step.c]);
  }

  lemma PhaseDescends(s: State, s': State)
    requires s'.calls == s.calls && s'.clients.Keys == s.clients.Keys && s'.aborted == s.aborted
    requires forall c :: c in s.clients ==> s'.clients[c].life == s.clients[c].life
    requires PhasesLeft(s'.phase) < PhasesLeft(s.phase)
    ensures Descends(s, s', 0)
  {
  }

  lemma DisableDescends(s: State, step: Step)
    requires Can(s, step)
    requires step.DisableReset? || step.DisableNotify? || step.TellCallback? || step.TellDone? || step.DisableDone?
    ensures Descends(s, Do(s, step), ThreadOf(step))
  {
    PhaseDescends(s, Do(s, step));
  }

  lemma ResetDescends(s: State, t: Tid)
    requires Can(s, TellReset(t))
    ensures Descends(s, Do(s, TellReset(t)), t)
  {
  }

  /** Every step that starts nothing new reduces the measure. */
  lemma FinishingReduces(s: State, step: Step)
    requires Inv(s) && Can(s, step) && Finishes(step)
    ensures Measure(Do(s, step)) < Measure(s)
  {
    if step.LockWeak? {
      LockDescends(s, step.t);
    } else if step.ReceiveConnect? {
      ReceiveDescends(s, step.t);
    } else if step.SetServer? || step.Announce? {
      AnnouncingDescends(s, step);
    } else if step.DropReturn? || step.LeaveIndication? || step.EndCall? || step.EndSend? {
      if step.DropReturn? || step.EndCall? {
        DroppingDescends(s, step);
      } else {
        ReturningDescends(s, step);
      }
    } else if step.ClearEvents? {
      ClearingDescends(s, step.t);
    } else if step.FinishRemove? {
      assert ActivityOk(s, s.calls[step.t]);
      FinishRemoves(s, step.t);
      RemovalDescends(s, Do(s, step), step.t);
    } else if step.UnregisterClient? || step.FreeClient? {
      ClientDescends(s, step);
    } else if step.TellReset? {
      ResetDescends(s, step.t);
    } else {
      DisableDescends(s, step);
    }
    DescendsReduces(s, Do(s, step), ThreadOf(step));
  }

  // Something can always be finished.

  /** A client whose destructor drops the last token of its connection has a thread doing that. */
  ghost predicate ResettingOk(s: State) {
    forall c :: c in s.clients && s.clients[c].life.Resetting? ==> Destroys(s, c)
  }

  ghost predicate Destroys(s: State, c: ClientId) {
    exists t :: t in s.calls && DestroysIn(s.calls[t], c)
  }

  predicate DestroysIn(a: Activity, c: ClientId) {
    a.Removing? && a.next == ThenDestroy(c)
  }

  /** The step leaves every thread that destroys a client at it, and makes no other client Resetting. */
  ghost predicate KeepsDestroyers(s: State, s': State) {
    && (forall t, c :: t in s.calls && DestroysIn(s.calls[t], c) ==> t in s'.calls && DestroysIn(s'.calls[t], c))
    && (forall c :: c in s'.clients && s'.clients[c].life.Resetting? ==>
          (c in s.clients && s.clients[c].life.Resetting?) || Destroys(s', c))
  }

  lemma KeptDestroyers(s: State, s': State)
    requires ResettingOk(s) && KeepsDestroyers(s, s')
    ensures ResettingOk(s')
  {
    forall c | c in s'.clients && s'.clients[c].life.Resetting? ensures Destroys(s', c) {
      if c in s.clients && s.clients[c].life.Resetting? {
        var t :| t in s.calls && DestroysIn(s.calls[t], c);
        assert t in s'.calls && DestroysIn(s'.calls[t], c);
      }
    }
  }

  predicate IsEarly(step: Step) {
    step.CreateClient? || step.EnableServer? || step.LockWeak? || step.ReceiveConnect?
  }

  lemma StartKeepsDestroyers(s: State, step: Step)
    requires Can(s, step) && (step.CreateClient? || step.EnableServer?)
    ensures KeepsDestroyers(s, Do(s, step))
  {
  }

  lemma EarlyStepKeepsDestroyers(s: State, step: Step)
    requires Can(s, step) && (step.LockWeak? || step.ReceiveConnect?)
    ensures KeepsDestroyers(s, Do(s, step))
  {
  }

  lemma ConnectStepKeepsDestroyers(s: State, step: Step)
    requires Can(s, step) && IsConnectStep(step) && !IsEarly(step)
    ensures KeepsDestroyers(s, Do(s, step))
  {
  }

  lemma CallStepKeepsDestroyers(s: State, step: Step)
    requires Can(s, step) && IsCallStep(step) && !step.FinishRemove?
    ensures KeepsDestroyers(s, Do(s, step))
  {
  }

  lemma EndStepKeepsDestroyers(s: State, step: Step)
    requires Can(s, step) && IsEndStep(step) && !step.BeginDestroy? && !step.TellReset?
    ensures KeepsDestroyers(s, Do(s, step))
  {
  }

  lemma TellResetKeepsDestroyers(s: State, t: Tid)
    requires Can(s, TellReset(t))
    ensures KeepsDestroyers(s, Do(s, TellReset(t)))
  {
  }

  lemma DestroyKeepsDestroyers(s: State, c: ClientId, t: Tid)
    requires Can(s, BeginDestroy(c, t))
    ensures KeepsDestroyers(s, Do(s, BeginDestroy(c, t)))
  {
    var s' := Do(s, BeginDestroy(c, t));
    if s'.clients[c].life.Resetting? {
      assert t in s'.calls && DestroysIn(s'.calls[t], c);
    }
  }

  lemma RemovalKeepsResetting(s: State, t: Tid)
    requires ResettingOk(s) && Unique(s) && Can(s, FinishRemove(t))
    ensures ResettingOk(Do(s, FinishRemove(t)))
  {
    forall c | c in s.clients && s.clients[c].life.Resetting? ensures s.calls[t].next == ThenDestroy(c) {
      var u :| u in s.calls && DestroysIn(s.calls[u], c);
      assert u == t;
    }
  }

  lemma StepKeepsResetting(s: State, step: Step)
    requires Inv(s) && ResettingOk(s) && Can(s, step)
    ensures ResettingOk(Do(s, step))
  {
    if step.FinishRemove? {
      RemovalKeepsResetting(s, step.t);
    } else {
      if step.CreateClient? || step.EnableServer? {
        StartKeepsDestroyers(s, step);
      } else if IsEarly(step) {
        EarlyStepKeepsDestroyers(s, step);
      } else if IsConnectStep(step) {
        ConnectStepKeepsDestroyers(s, step);
      } else if IsCallStep(step) {
        CallStepKeepsDestroyers(s, step);
      } else if step.BeginDestroy? {
        DestroyKeepsDestroyers(s, step.c, step.t);
      } else if step.TellReset? {
        TellResetKeepsDestroyers(s, step.t);
      } else {
        EndStepKeepsDestroyers(s, step);
      }
      KeptDestroyers(s, Do(s, step));
    }
  }

  lemma {:induction false} RunsKeepResetting(steps: seq<Step>)
    requires Possible(steps)
    ensures ResettingOk(After(steps))
    decreases |steps|
  {
    if steps != [] {
      var before := steps[..|steps| - 1];
      RunsKeepResetting(before);
      RunsKeepInv(before);
      StepKeepsResetting(After(before), steps[|steps| - 1]);
    }
  }

  /** The step that takes a thread onwards. */
  function NextStep(a: Activity, t: Tid): Step {
    match a
    case Indicating(_) => LockWeak(t)
    case Connecting(_) => ReceiveConnect(t)
    case Connected(_, _) => SetServer(t)
    case Announcing(_, _) => Announce(t)
    case Leaving(_, _) => DropReturn(t)
    case Left(_) => LeaveIndication(t)
    case Calling(_) => EndCall(t)
    case Sending(_) => EndSend(t)
    case Removing(_, cleared, _) => if cleared then FinishRemove(t) else ClearEvents(t)
  }

  /** A mutex of a client connector is held across a callback only by a thread that removes a connection. */
  lemma LockIsOfARemover(s: State, c: ClientId) returns (t: Tid)
    requires Inv(s) && ResettingOk(s) && Locked(s, c)
    ensures t in s.calls && s.calls[t].Removing?
  {
    if c in s.clients && s.clients[c].life.Resetting? {
      t :| t in s.calls && DestroysIn(s.calls[t], c);
    } else {
      t :| t in s.calls && s.calls[t].Removing?;
    }
  }

  /** A call in flight goes on unless it waits for a mutex, and a removal never waits for one. */
  lemma CallsAreNotBlocked(s: State, t: Tid)
    requires Inv(s) && !s.aborted && t in s.calls
    requires s.calls[t].Connected? ==> !Locked(s, s.calls[t].client)
    ensures Can(s, NextStep(s.calls[t], t)) && Finishes(NextStep(s.calls[t], t))
  {
    ReachedIsSound(s, NextStep(s.calls[t], t));
  }

  /** Some call in flight can always go on. */
  lemma SomeCallGoesOn(s: State) returns (t: Tid)
    requires Inv(s) && ResettingOk(s) && !s.aborted && s.calls != map[]
    ensures t in s.calls && Can(s, NextStep(s.calls[t], t)) && Finishes(NextStep(s.calls[t], t))
  {
    t :| t in s.calls;
    if s.calls[t].Connected? && Locked(s, s.calls[t].client) {
      t := LockIsOfARemover(s, s.calls[t].client);
    }
    CallsAreNotBlocked(s, t);
  }

  function PhaseStep(p: Phase): Step {
    match p
    case Unregistered => DisableReset
    case Stopping => DisableNotify
    case Telling(_, _) => TellReset(0)
    case Told(_, _) => TellCallback
    case Notified(_, _) => TellDone
    case _ => DisableDone
  }

  /** With no call in flight nothing is being removed and no listen endpoint is left. */
  lemma NothingInFlight(s: State)
    requires Inv(s) && s.calls == map[]
    ensures !s.phase.TellWait?
    ensures s.phase.Stopping? ==> s.stopTokens == 0
    ensures s.phase.Draining? ==> s.allTokens == 0
  {
    assert Listeners(s.calls) == {};
    if s.slot.Some? {
      assert ConnOk(s, s.slot.value);
      assert ConnThreads(s.calls, s.slot.value) == {};
    }
  }

  lemma NobodyLocks(s: State)
    requires Inv(s) && ResettingOk(s) && s.calls == map[]
    ensures forall c :: !Locked(s, c)
  {
    NothingInFlight(s);
    forall c | c in s.clients ensures !s.clients[c].life.Resetting? {
      assert !Destroys(s, c);
    }
  }

  lemma DisableIsNotBlocked(s: State)
    requires Inv(s) && ResettingOk(s) && !s.aborted && s.calls == map[] && PhasesLeft(s.phase) > 0
    ensures Can(s, PhaseStep(s.phase)) && Finishes(PhaseStep(s.phase))
  {
    NothingInFlight(s);
    NobodyLocks(s);
    ReachedIsSound(s, PhaseStep(s.phase));
  }

  function LifeStep(x: Client, c: ClientId): Step {
    if x.life.Reset? then UnregisterClient(c) else FreeClient(c)
  }

  lemma DestructorIsNotBlocked(s: State, c: ClientId)
    requires Inv(s) && ResettingOk(s) && !s.aborted && s.calls == map[] && PhasesLeft(s.phase) == 0
    requires c in s.clients && LifeLeft(s.clients[c]) > 0
    ensures Can(s, LifeStep(s.clients[c], c)) && Finishes(LifeStep(s.clients[c], c))
  {
    NoOwnershipCycle(s, c);
  }

  /** No call is in flight, disable() is not running and no client connector is being destroyed. */
  predicate Settled(s: State) {
    s.calls == map[] && PhasesLeft(s.phase) == 0 && forall c :: c in s.clients ==> LifeLeft(s.clients[c]) == 0
  }

  /** As long as something is in flight, some step can finish a part of it. */
  lemma NeverStuck(s: State) returns (step: Step)
    requires Inv(s) && ResettingOk(s) && !s.aborted && !Settled(s)
    ensures Can(s, step) && Finishes(step)
  {
    if s.calls != map[] {
      var t := SomeCallGoesOn(s);
      step := NextStep(s.calls[t], t);
    } else if PhasesLeft(s.phase) > 0 {
      DisableIsNotBlocked(s);
      step := PhaseStep(s.phase);
    } else {
      var c :| c in s.clients && LifeLeft(s.clients[c]) > 0;
      DestructorIsNotBlocked(s, c);
      step := LifeStep(s.clients[c], c);
    }
  }

  /** `steps` can be taken from `s` and start nothing new. */
  ghost predicate FinishRun(s: State, steps: seq<Step>)
    decreases |steps|
  {
    steps == [] || (Can(s, steps[0]) && Finishes(steps[0]) && FinishRun(Do(s, steps[0]), steps[1..]))
  }

  lemma {:induction false} FinishRunsAreBounded(s: State, steps: seq<Step>)
    requires Inv(s) && FinishRun(s, steps)
    ensures |steps| <= Measure(s)
    decreases |steps|
  {
    if steps != [] {
      FinishingReduces(s, steps[0]);
      StepKeeps(s, steps[0]);
      FinishRunsAreBounded(Do(s, steps[0]), steps[1..]);
    }
  }

  /** After any run, whatever is in flight is over after at most `Measure` further steps, in any order. */
  lemma TeardownIsBounded(steps: seq<Step>, more: seq<Step>)
    requires Possible(steps) && FinishRun(After(steps), more)
    ensures |more| <= Measure(After(steps))
  {
    RunsKeepInv(steps);
    FinishRunsAreBounded(After(steps), more);
  }

  /** After any run, as long as a call, disable() or a destructor is in flight, some step can go on with it. */
  lemma TeardownIsNeverStuck(steps: seq<Step>) returns (step: Step)
    requires Possible(steps) && !After(steps).aborted && !Settled(After(steps))
    ensures Possible(steps + [step]) && Finishes(step)
  {
    RunsKeepInv(steps);
    RunsKeepResetting(steps);
    step := NeverStuck(After(steps));
    Extend(steps, step);
  }

  // Destruction and disable() can start once the calls that made the objects have returned.

  ghost predicate Indicates(s: State, c: ClientId) {
    exists t :: t in s.calls && Indicated(s.calls[t]) == Some(c)
  }

  /** A call that creates or enables is marked as running by the indication it makes. */
  predicate Runs(s: State, c: ClientId) {
    c in s.creating || s.enabling == Some(c)
  }

  ghost predicate CallersOk(s: State) {
    forall c {:trigger Runs(s, c)} :: Runs(s, c) ==> Indicates(s, c)
  }

  /** The step leaves the indications of calls that still run, and marks a call only with an indication. */
  ghost predicate KeepsCallers(s: State, s': State) {
    && (forall t, c :: t in s.calls && Indicated(s.calls[t]) == Some(c) && Runs(s', c) ==>
          t in s'.calls && Indicated(s'.calls[t]) == Some(c))
    && (forall c {:trigger Runs(s', c)} :: Runs(s', c) ==> Runs(s, c) || Indicates(s', c))
  }

  lemma KeptCallers(s: State, s': State)
    requires CallersOk(s) && KeepsCallers(s, s')
    ensures CallersOk(s')
  {
    forall c: ClientId | Runs(s', c) ensures Indicates(s', c) {
      if Runs(s, c) {
        var t :| t in s.calls && Indicated(s.calls[t]) == Some(c);
        assert t in s'.calls && Indicated(s'.calls[t]) == Some(c);
      }
    }
  }

  lemma StartKeepsCallers(s: State, step: Step)
    requires Can(s, step) && (step.CreateClient? || step.EnableServer?)
    ensures KeepsCallers(s, Do(s, step))
  {
    var s' := Do(s, step);
    if step.t in s'.calls { assert Indicated(s'.calls[step.t]).Some?; }
  }

  lemma ConnectKeepsCallers(s: State, step: Step)
    requires Can(s, step) && (step.LockWeak? || step.ReceiveConnect? || step.SetServer?)
    ensures KeepsCallers(s, Do(s, step))
  {
  }

  lemma ReturnKeepsCallers(s: State, step: Step)
    requires Can(s, step) && (step.Announce? || step.DropReturn? || step.LeaveIndication?)
    ensures KeepsCallers(s, Do(s, step))
  {
  }

  predicate IsCall(step: Step) {
    step.StartCall? || step.StoreMark? || step.ClearMark? || step.EndCall?
  }

  lemma CallKeepsCallers(s: State, step: Step)
    requires Can(s, step) && IsCall(step)
    ensures KeepsCallers(s, Do(s, step))
  {
  }

  lemma SendKeepsCallers(s: State, step: Step)
    requires Can(s, step) && IsCallStep(step) && !IsCall(step) && !step.FinishRemove?
    ensures KeepsCallers(s, Do(s, step))
  {
  }

  lemma RemovalKeepsCallers(s: State, t: Tid)
    requires Can(s, FinishRemove(t))
    ensures KeepsCallers(s, Do(s, FinishRemove(t)))
  {
  }

  predicate IsDisableStep(step: Step) {
    step.DisableUnregister? || step.DisableReset? || step.DisableNotify? || step.TellCallback? || step.TellDone? ||
    step.DisableDone?
  }

  lemma DisableKeepsCallers(s: State, step: Step)
    requires Can(s, step) && IsDisableStep(step)
    ensures KeepsCallers(s, Do(s, step))
  {
  }

  lemma DestroyKeepsCallers(s: State, step: Step)
    requires Can(s, step) && IsEndStep(step) && !IsDisableStep(step)
    ensures KeepsCallers(s, Do(s, step))
  {
  }

  lemma {:induction false} RunsKeepCallers(steps: seq<Step>)
    requires Possible(steps)
    ensures CallersOk(After(steps))
    decreases |steps|
  {
    if steps != [] {
      var s, step := After(steps[..|steps| - 1]), steps[|steps| - 1];
      RunsKeepCallers(steps[..|steps| - 1]);
      StepKeepsCallers(s, step);
    }
  }

  lemma StepKeepsCallers(s: State, step: Step)
    requires CallersOk(s) && Can(s, step)
    ensures CallersOk(Do(s, step))
  {
    if step.CreateClient? || step.EnableServer? {
      StartKeepsCallers(s, step);
    } else if step.LockWeak? || step.ReceiveConnect? || step.SetServer? {
      ConnectKeepsCallers(s, step);
    } else if IsConnectStep(step) {
      ReturnKeepsCallers(s, step);
    } else if IsCall(step) {
      CallKeepsCallers(s, step);
    } else if step.FinishRemove? {
      RemovalKeepsCallers(s, step.t);
    } else if IsCallStep(step) {
      SendKeepsCallers(s, step);
    } else if IsDisableStep(step) {
      DisableKeepsCallers(s, step);
    } else {
      DestroyKeepsCallers(s, step);
    }
    KeptCallers(s, Do(s, step));
  }

  lemma NoCallRuns(s: State)
    requires CallersOk(s) && s.calls == map[]
    ensures s.creating == {} && s.enabling == None
  {
    forall c: ClientId ensures !Runs(s, c) { assert !Indicates(s, c); }
    if c :| c in s.creating { assert Runs(s, c); }
    if s.enabling.Some? { assert Runs(s, s.enabling.value); }
  }

  /** The state in which nothing keeps a destructor or disable() from starting. */
  ghost predicate AllReturned(s: State) {
    s.calls == map[] && s.creating == {} && s.enabling == None && forall c: ClientId :: !Locked(s, c)
  }

  lemma SettledCallersReturned(steps: seq<Step>)
    requires Possible(steps) && After(steps).calls == map[]
    ensures After(steps).creating == {} && After(steps).enabling == None
  {
    RunsKeepCallers(steps);
    NoCallRuns(After(steps));
  }

  lemma SettledLocksNothing(steps: seq<Step>)
    requires Possible(steps) && After(steps).calls == map[]
    ensures forall c: ClientId :: !Locked(After(steps), c)
  {
    RunsKeepInv(steps);
    RunsKeepResetting(steps);
    NobodyLocks(After(steps));
  }

  lemma DestructorCanStart(s: State, c: ClientId, t: Tid)
    requires AllReturned(s) && !s.aborted && c in s.clients && s.clients[c].life.Alive?
    ensures Reached(s, BeginDestroy(c, t))
  {
  }

  lemma DisableCanStart(s: State)
    requires AllReturned(s) && !s.aborted && s.phase.On?
    ensures Reached(s, DisableUnregister)
  {
  }

  /** When nothing is in flight, every living client connector can be destroyed and an enabled server disabled. */
  lemma SettledObjectsCanGo(steps: seq<Step>, c: ClientId, t: Tid)
    requires Possible(steps) && !After(steps).aborted && Settled(After(steps))
    ensures c in After(steps).clients && After(steps).clients[c].life.Alive? ==> Possible(steps + [BeginDestroy(c, t)])
    ensures After(steps).phase.On? ==> Possible(steps + [DisableUnregister])
  {
    SettledCallersReturned(steps);
    SettledLocksNothing(steps);
    if c in After(steps).clients && After(steps).clients[c].life.Alive? {
      DestructorCanStart(After(steps), c, t);
      NoStepLacksAToken(steps, BeginDestroy(c, t));
    }
    if After(steps).phase.On? {
      DisableCanStart(After(steps));
      NoStepLacksAToken(steps, DisableUnregister);
    }
  }
}
