/** When a client connector and the server connector find each other, and what the client is told of it. */
module ConnectorMeetings {
  import opened Prelude
  import opened Connectors
  import opened ConnectorSafety
  import opened ConnectorRuns

  // What a step leaves alone.

  predicate IsThread(step: Step, u: Tid) {
    match step
    case UnregisterClient(_) => false
    case FreeClient(_) => false
    case DisableUnregister => false
    case DisableReset => false
    case DisableNotify => false
    case TellCallback => false
    case TellDone => false
    case DisableDone => false
    case _ => step.t == u
  }

  lemma DropConnLeaves(s: State, t: Tid, k: Conn, next: Next, a: Option<Activity>)
    requires k in s.conns && s.conns[k].tokens > 0
    ensures var d := DropConn(s, t, k, next, a);
            && d.clients == s.clients && d.phase == s.phase && d.aborted == s.aborted && d.marks == s.marks
            && (forall u: Tid :: u != t ==> Now(d.calls, u) == Now(s.calls, u))
            && Now(d.calls, t) == if d.conns[k].tokens == 0 then Some(Removing(k, false, next)) else a
  {
  }

  lemma ConnectStepLeavesThreads(s: State, step: Step, u: Tid)
    requires Can(s, step) && IsConnectStep(step) && !IsThread(step, u)
    ensures Now(Do(s, step).calls, u) == Now(s.calls, u)
  {
    if step.DropReturn? {
      var t := step.t;
      DropConnLeaves(s, t, s.calls[t].conn, ThenLeave(s.calls[t].client), Some(Left(s.calls[t].client)));
    }
  }

  lemma CallStepLeavesThreads(s: State, step: Step, u: Tid)
    requires Can(s, step) && IsCallStep(step) && !IsThread(step, u)
    ensures Now(Do(s, step).calls, u) == Now(s.calls, u)
  {
    if step.EndCall? {
      DropConnLeaves(s, step.t, s.calls[step.t].conn, ThenReturn, None);
    }
  }

  lemma DestroyLeaves(s: State, c: ClientId, t: Tid)
    requires Can(s, BeginDestroy(c, t))
    ensures var d := Do(s, BeginDestroy(c, t));
            && (forall u: Tid :: u != t ==> Now(d.calls, u) == Now(s.calls, u))
            && (t in d.calls ==> d.calls[t].Removing?)
            && d.clients.Keys == s.clients.Keys && d.phase == s.phase && d.aborted == s.aborted
            && (forall x :: x in s.clients ==> d.clients[x].log == s.clients[x].log)
            && (forall x :: x in s.clients && x != c ==> d.clients[x] == s.clients[x])
            && !d.clients[c].life.Alive? && d.marks == s.marks
  {
    if s.clients[c].server.Some? {
      var r := WithServer(AddClient(s, c, -1), c, None);
      DropConnLeaves(r, t, s.clients[c].server.value, ThenDestroy(c), None);
    }
  }

  lemma TellResetLeaves(s: State, t: Tid)
    requires Can(s, TellReset(t))
    ensures var d := Do(s, TellReset(t));
            && (forall u: Tid :: u != t ==> Now(d.calls, u) == Now(s.calls, u))
            && d.clients.Keys == s.clients.Keys
            && (forall x :: x in s.clients ==> d.clients[x].log == s.clients[x].log)
            && d.marks == s.marks
  {
    if s.clients[s.phase.client].server.Some? {
      DropConnLeaves(WithServer(s, s.phase.client, None), t, s.clients[s.phase.client].server.value,
                     ThenTell(s.phase.client), None);
    }
  }

  /** Every thread goes on where it was, whatever the others do. */
  lemma OtherThreadsGoOn(s: State, step: Step, u: Tid)
    requires Can(s, step) && !IsThread(step, u)
    ensures Now(Do(s, step).calls, u) == Now(s.calls, u)
  {
    if IsConnectStep(step) {
      ConnectStepLeavesThreads(s, step, u);
    } else if IsCallStep(step) {
      CallStepLeavesThreads(s, step, u);
    } else if step.BeginDestroy? {
      DestroyLeaves(s, step.c, step.t);
    } else if step.TellReset? {
      TellResetLeaves(s, step.t);
    }
  }

  /** The callbacks a step makes. */
  function NotesOf(s: State, step: Step, c: ClientId): seq<Note> {
    if step.Announce? && step.t in s.calls && s.calls[step.t].Announcing? && s.calls[step.t].client == c then
      [Available]
    else if step.TellCallback? && s.phase.Told? && s.phase.client == c then [NotAvailable]
    else []
  }

  ghost predicate LogGrows(s: State, s': State, c: ClientId, notes: seq<Note>)
    requires c in s.clients
  {
    c in s'.clients && s'.clients[c].log == s.clients[c].log + notes
  }

  lemma ConnectStepCallsBack(s: State, step: Step, c: ClientId)
    requires Can(s, step) && IsConnectStep(step) && c in s.clients
    ensures LogGrows(s, Do(s, step), c, NotesOf(s, step, c))
  {
    if step.DropReturn? {
      var t := step.t;
      DropConnLeaves(s, t, s.calls[t].conn, ThenLeave(s.calls[t].client), Some(Left(s.calls[t].client)));
    }
  }

  lemma CallStepCallsBack(s: State, step: Step, c: ClientId)
    requires Can(s, step) && IsCallStep(step) && c in s.clients
    ensures LogGrows(s, Do(s, step), c, [])
  {
    if step.EndCall? {
      DropConnLeaves(s, step.t, s.calls[step.t].conn, ThenReturn, None);
    }
  }

  /** A client is called back by the thread that has just given it its server, and by disable(), and by nobody else. */
  lemma OnlyTheseCallBack(s: State, step: Step, c: ClientId)
    requires Can(s, step) && c in s.clients
    ensures c in Do(s, step).clients && Do(s, step).clients[c].log == s.clients[c].log + NotesOf(s, step, c)
  {
    if IsConnectStep(step) {
      ConnectStepCallsBack(s, step, c);
    } else if IsCallStep(step) {
      CallStepCallsBack(s, step, c);
    } else if step.BeginDestroy? {
      DestroyLeaves(s, step.c, step.t);
    } else if step.TellReset? {
      TellResetLeaves(s, step.t);
    }
  }

  /** A call into the server, or out of it, keeps the other side alive from its start on. */
  lemma CallsHoldTheOtherSide(s: State, step: Step)
    requires Can(s, step) && (step.StartCall? || step.StartSend?)
    ensures var now := Now(Do(s, step).calls, step.t);
            && (step.StartCall? ==> now.Some? && HeldConn(now.value) == s.clients[step.c].server)
            && (step.StartSend? ==> now.Some? && HeldClient(now.value) == Some(s.conns[s.slot.value].client))
  {
  }

  // The client pointers stored per event.

  ghost predicate Points(s: State, mark: Mark, k: Conn) {
    mark in s.marks && s.marks[mark] == k
  }

  ghost predicate Stores(s: State, step: Step, mark: Mark, k: Conn) {
    step.StoreMark? && step.mark == mark && step.t in s.calls && s.calls[step.t].Calling? && s.calls[step.t].conn == k
  }

  predicate Erases(step: Step, mark: Mark) {
    ((step.StoreMark? || step.ClearMark?) && step.mark == mark) || step.ClearEvents? || step.DisableReset?
  }

  predicate ChangesMarks(step: Step) {
    step.StoreMark? || step.ClearMark? || step.ClearEvents? || step.DisableReset?
  }

  lemma ConnectStepKeepsMarks(s: State, step: Step)
    requires Can(s, step) && IsConnectStep(step)
    ensures Do(s, step).marks == s.marks
  {
    if step.DropReturn? {
      var t := step.t;
      DropConnLeaves(s, t, s.calls[t].conn, ThenLeave(s.calls[t].client), Some(Left(s.calls[t].client)));
    }
  }

  lemma StepKeepsMarks(s: State, step: Step)
    requires Can(s, step) && !ChangesMarks(step)
    ensures Do(s, step).marks == s.marks
  {
    if IsConnectStep(step) {
      ConnectStepKeepsMarks(s, step);
    } else if step.EndCall? {
      DropConnLeaves(s, step.t, s.calls[step.t].conn, ThenReturn, None);
    } else if step.BeginDestroy? {
      DestroyLeaves(s, step.c, step.t);
    } else if step.TellReset? {
      TellResetLeaves(s, step.t);
    }
  }

  lemma StepPoints(s: State, step: Step, mark: Mark, k: Conn)
    requires Can(s, step)
    ensures Points(Do(s, step), mark, k) <==> Stores(s, step, mark, k) || (Points(s, mark, k) && !Erases(step, mark))
  {
    if !ChangesMarks(step) {
      StepKeepsMarks(s, step);
    }
  }

  lemma {:induction false} PrefixIsPossible(steps: seq<Step>, t: nat)
    requires Possible(steps) && t <= |steps|
    ensures Possible(steps[..t])
    ensures t < |steps| ==> Can(After(steps[..t]), steps[t]) && Possible(steps[..t + 1])
    ensures t < |steps| ==> After(steps[..t + 1]) == Do(After(steps[..t]), steps[t])
    decreases |steps| - t
  {
    if t == |steps| {
      assert steps[..t] == steps;
    } else {
      PrefixIsPossible(steps, t + 1);
      assert steps[..t + 1][..t] == steps[..t];
    }
  }

  ghost function PointsAt(steps: seq<Step>, mark: Mark, k: Conn): nat -> bool {
    (t: nat) => t <= |steps| && Possible(steps[..t]) && Points(After(steps[..t]), mark, k)
  }

  ghost function StoresAt(steps: seq<Step>, mark: Mark, k: Conn): nat -> bool {
    (t: nat) => t < |steps| && Possible(steps[..t]) && Stores(After(steps[..t]), steps[t], mark, k)
  }

  ghost function ErasesAt(steps: seq<Step>, mark: Mark): nat -> bool {
    (t: nat) => t < |steps| && Erases(steps[t], mark)
  }

  lemma PointsNext(steps: seq<Step>, mark: Mark, k: Conn, t: nat)
    requires Possible(steps) && t < |steps|
    ensures FollowsAt(t, PointsAt(steps, mark, k), StoresAt(steps, mark, k), ErasesAt(steps, mark))
  {
    PrefixIsPossible(steps, t);
    StepPoints(After(steps[..t]), steps[t], mark, k);
  }

  lemma PointsAlong(steps: seq<Step>, mark: Mark, k: Conn)
    requires Possible(steps)
    ensures Follows(|steps|, PointsAt(steps, mark, k), StoresAt(steps, mark, k), ErasesAt(steps, mark))
  {
    forall t: nat | t < |steps|
      ensures FollowsAt(t, PointsAt(steps, mark, k), StoresAt(steps, mark, k), ErasesAt(steps, mark))
    {
      PointsNext(steps, mark, k, t);
    }
  }

  lemma PointsAtEnds(steps: seq<Step>, mark: Mark, k: Conn)
    requires Possible(steps)
    ensures !PointsAt(steps, mark, k)(0) && (PointsAt(steps, mark, k)(|steps|) <==> Points(After(steps), mark, k))
  {
    assert steps[..0] == [] && steps[..|steps|] == steps;
  }

  /** In every run a client pointer is stored exactly when a call over that connection stored it, and neither it nor all
      of them were replaced or cleared since. */
  lemma PointersAreHistory(steps: seq<Step>, mark: Mark, k: Conn)
    requires Possible(steps)
    ensures Points(After(steps), mark, k) <==>
            KeptSincePut(|steps|, StoresAt(steps, mark, k), ErasesAt(steps, mark))
  {
    PointsAtEnds(steps, mark, k);
    PointsAlong(steps, mark, k);
    InIffPutAndKept(|steps|, PointsAt(steps, mark, k), StoresAt(steps, mark, k), ErasesAt(steps, mark));
  }

  // Meeting.

  /** The client was created with a compatible version while the server was registered, or the server was enabled with a
      compatible version while the client was registered. */
  function Meets(steps: seq<Step>, c: ClientId): bool
    requires Possible(steps)
  {
    if steps == [] then false
    else MeetsNow(After(steps[..|steps| - 1]), steps[|steps| - 1], c, Meets(steps[..|steps| - 1], c))
  }

  function MeetsNow(s: State, step: Step, c: ClientId, before: bool): bool {
    match step
    case CreateClient(d, _, compatible) => if d == c then s.phase.On? && compatible else before
    case EnableServer(_, compatible) => if s.record == Some(c) then compatible else before
    case _ => before
  }

  /** The thread is on its way to give the client its server. */
  predicate Brings(a: Activity, c: ClientId) {
    (a.Indicating? || a.Connecting? || a.Connected?) && a.client == c
  }

  predicate UnderWay(calls: map<Tid, Activity>, c: ClientId) {
    exists t :: t in calls && Brings(calls[t], c)
  }

  /** While the server is not disabled, a client that is alive has its server, or will have it, exactly when they
      met. */
  ghost predicate MeetingOk(s: State, c: ClientId, met: bool) {
    c in s.clients && s.clients[c].life.Alive? && ServerOwns(s.phase) && !s.aborted ==>
      (met <==> s.clients[c].server.Some? || UnderWay(s.calls, c))
  }

  lemma UnderWayElsewhere(calls: map<Tid, Activity>, calls': map<Tid, Activity>, t: Tid, c: ClientId)
    requires forall u :: u != t ==> (u in calls <==> u in calls') && (u in calls ==> calls[u] == calls'[u])
    requires (t in calls && Brings(calls[t], c)) <==> (t in calls' && Brings(calls'[t], c))
    ensures UnderWay(calls, c) <==> UnderWay(calls', c)
  {
    if u :| u in calls && Brings(calls[u], c) {
      assert u in calls' && Brings(calls'[u], c);
    }
    if u :| u in calls' && Brings(calls'[u], c) {
      assert u in calls && Brings(calls[u], c);
    }
  }

  lemma NobodyIndicatesWhenOff(s: State, c: ClientId)
    requires Inv(s) && !ServerOwns(s.phase) && !s.phase.Stopping?
    ensures !UnderWay(s.calls, c)
  {
    forall t | t in s.calls ensures !Listens(s.calls[t]) {
      assert t !in Listeners(s.calls);
    }
  }

  lemma CreatingMeets(s: State, d: ClientId, t: Tid, compatible: bool, c: ClientId, met: bool)
    requires Inv(s) && Can(s, CreateClient(d, t, compatible)) && MeetingOk(s, c, met)
    ensures MeetingOk(Do(s, CreateClient(d, t, compatible)), c, MeetsNow(s, CreateClient(d, t, compatible), c, met))
  {
    var s' := Do(s, CreateClient(d, t, compatible));
    if d == c {
      forall u | u in s.calls ensures !Brings(s.calls[u], c) {
        assert ActivityOk(s, s.calls[u]);
      }
      if s.phase.On? && compatible {
        assert t in s'.calls && Brings(s'.calls[t], c);
      }
    } else if c in s.clients {
      assert ClientOk(s, c);
    }
  }

  lemma EnablingMeets(s: State, t: Tid, compatible: bool, c: ClientId, met: bool)
    requires Inv(s) && Can(s, EnableServer(t, compatible))
    ensures MeetingOk(Do(s, EnableServer(t, compatible)), c, MeetsNow(s, EnableServer(t, compatible), c, met))
  {
    var s' := Do(s, EnableServer(t, compatible));
    if c in s.clients && s.clients[c].life.Alive? {
      assert ClientOk(s, c);
      NobodyIndicatesWhenOff(s, c);
      if compatible {
        assert t in s'.calls && Brings(s'.calls[t], c);
      }
    }
  }

  lemma LockingMeets(s: State, t: Tid, c: ClientId, met: bool)
    requires Inv(s) && Can(s, LockWeak(t)) && MeetingOk(s, c, met)
    ensures MeetingOk(Do(s, LockWeak(t)), c, met)
  {
    var s' := Do(s, LockWeak(t));
    if c in s.clients && s.clients[c].life.Alive? {
      assert ClientOk(s, c);
      UnderWayElsewhere(s.calls, s'.calls, t, c);
    }
  }

  lemma ReceivingMeets(s: State, t: Tid, c: ClientId, met: bool)
    requires Inv(s) && Can(s, ReceiveConnect(t)) && MeetingOk(s, c, met)
    ensures MeetingOk(Do(s, ReceiveConnect(t)), c, met)
  {
    var s' := Do(s, ReceiveConnect(t));
    if ServerOwns(s.phase) && s.slot.None? {
      UnderWayElsewhere(s.calls, s'.calls, t, c);
    }
  }

  lemma SettingMeets(s: State, t: Tid, c: ClientId, met: bool)
    requires Inv(s) && Can(s, SetServer(t)) && MeetingOk(s, c, met)
    ensures MeetingOk(Do(s, SetServer(t)), c, met)
  {
    var s' := Do(s, SetServer(t));
    if s.calls[t].client == c {
      assert Brings(s.calls[t], c);
    } else {
      UnderWayElsewhere(s.calls, s'.calls, t, c);
    }
  }

  predicate IsThreadStep(step: Step) {
    step.Announce? || step.DropReturn? || step.LeaveIndication? || step.StartCall? || step.EndCall? ||
    step.StartSend? || step.EndSend? || step.ClearEvents? || step.FinishRemove?
  }

  /** The step of thread `t` leaves the client with the server it had, and the thread brings it none. */
  ghost predicate KeepsServer(s: State, d: State, t: Tid, c: ClientId)
    requires c in s.clients
  {
    && c in d.clients && d.clients[c].server == s.clients[c].server
    && d.phase == s.phase && d.aborted == s.aborted
    && (d.clients[c].life.Alive? <==> s.clients[c].life.Alive?)
    && (t in d.calls ==> !Brings(d.calls[t], c))
    && (t in s.calls ==> !Brings(s.calls[t], c))
  }

  lemma LettingGoKeepsServer(s: State, step: Step, c: ClientId)
    requires Can(s, step) && (step.EndCall? || step.DropReturn?) && c in s.clients
    ensures KeepsServer(s, Do(s, step), step.t, c)
  {
    var t := step.t;
    if step.EndCall? {
      DropConnLeaves(s, t, s.calls[t].conn, ThenReturn, None);
    } else {
      DropConnLeaves(s, t, s.calls[t].conn, ThenLeave(s.calls[t].client), Some(Left(s.calls[t].client)));
    }
  }

  lemma ThreadStepKeepsServer(s: State, step: Step, c: ClientId)
    requires Can(s, step) && IsThreadStep(step) && c in s.clients && (step.FinishRemove? ==> ServerOwns(s.phase))
    requires step.FinishRemove? ==> ActivityOk(s, s.calls[step.t])
    ensures KeepsServer(s, Do(s, step), step.t, c)
  {
    if step.EndCall? || step.DropReturn? {
      LettingGoKeepsServer(s, step, c);
    }
  }

  lemma SameThreads(calls: map<Tid, Activity>, calls': map<Tid, Activity>, t: Tid)
    requires forall u: Tid :: u != t ==> Now(calls', u) == Now(calls, u)
    ensures forall u: Tid :: u != t ==> (u in calls <==> u in calls') && (u in calls ==> calls[u] == calls'[u])
  {
    forall u: Tid | u != t ensures (u in calls <==> u in calls') && (u in calls ==> calls[u] == calls'[u]) {
      assert Now(calls', u) == Now(calls, u);
    }
  }

  lemma ThreadStepMeets(s: State, step: Step, c: ClientId, met: bool)
    requires Inv(s) && Can(s, step) && IsThreadStep(step) && MeetingOk(s, c, met)
    ensures MeetingOk(Do(s, step), c, met)
  {
    var d := Do(s, step);
    OwningStays(s, step);
    if c in s.clients && ServerOwns(d.phase) {
      forall u: Tid | u != step.t ensures Now(d.calls, u) == Now(s.calls, u) {
        OtherThreadsGoOn(s, step, u);
      }
      SameThreads(s.calls, d.calls, step.t);
      ThreadStepKeepsServer(s, step, c);
      UnderWayElsewhere(s.calls, d.calls, step.t, c);
    } else if c !in s.clients {
      ThreadStepMakesNoClient(s, step, c);
    }
  }

  lemma OwningStays(s: State, step: Step)
    requires Inv(s) && Can(s, step) && IsThreadStep(step)
    ensures ServerOwns(Do(s, step).phase) ==> ServerOwns(s.phase)
    ensures step.FinishRemove? ==> ActivityOk(s, s.calls[step.t])
  {
    if step.EndCall? {
      DropConnLeaves(s, step.t, s.calls[step.t].conn, ThenReturn, None);
    } else if step.DropReturn? {
      var t := step.t;
      DropConnLeaves(s, t, s.calls[t].conn, ThenLeave(s.calls[t].client), Some(Left(s.calls[t].client)));
    }
  }

  lemma ThreadStepMakesNoClient(s: State, step: Step, c: ClientId)
    requires Can(s, step) && IsThreadStep(step) && c !in s.clients
    ensures c !in Do(s, step).clients
  {
    if step.EndCall? {
      DropConnLeaves(s, step.t, s.calls[step.t].conn, ThenReturn, None);
    } else if step.DropReturn? {
      var t := step.t;
      DropConnLeaves(s, t, s.calls[t].conn, ThenLeave(s.calls[t].client), Some(Left(s.calls[t].client)));
    }
  }

  lemma DestroyingMeets(s: State, d: ClientId, t: Tid, c: ClientId, met: bool)
    requires Inv(s) && Can(s, BeginDestroy(d, t)) && MeetingOk(s, c, met)
    ensures MeetingOk(Do(s, BeginDestroy(d, t)), c, met)
  {
    var s' := Do(s, BeginDestroy(d, t));
    DestroyLeaves(s, d, t);
    if c in s.clients && d != c {
      SameThreads(s.calls, s'.calls, t);
      UnderWayElsewhere(s.calls, s'.calls, t, c);
    }
  }

  predicate IsPlainStep(step: Step) {
    step.StoreMark? || step.ClearMark? || step.UnregisterClient? || step.FreeClient? || step.DisableUnregister? ||
    step.DisableReset? || step.DisableNotify? || step.TellReset? || step.TellCallback? || step.TellDone? ||
    step.DisableDone?
  }

  lemma PlainStepMeets(s: State, step: Step, c: ClientId, met: bool)
    requires Inv(s) && Can(s, step) && IsPlainStep(step) && MeetingOk(s, c, met)
    ensures MeetingOk(Do(s, step), c, met)
  {
  }

  lemma StepMeets(s: State, step: Step, c: ClientId, met: bool)
    requires Inv(s) && Can(s, step) && MeetingOk(s, c, met)
    ensures MeetingOk(Do(s, step), c, MeetsNow(s, step, c, met))
  {
    if step.CreateClient? {
      CreatingMeets(s, step.c, step.t, step.compatible, c, met);
    } else if step.EnableServer? {
      EnablingMeets(s, step.t, step.compatible, c, met);
    } else if step.LockWeak? {
      LockingMeets(s, step.t, c, met);
    } else if step.ReceiveConnect? {
      ReceivingMeets(s, step.t, c, met);
    } else if step.SetServer? {
      SettingMeets(s, step.t, c, met);
    } else if step.BeginDestroy? {
      DestroyingMeets(s, step.c, step.t, c, met);
    } else if IsThreadStep(step) {
      ThreadStepMeets(s, step, c, met);
    } else {
      PlainStepMeets(s, step, c, met);
    }
  }

  lemma {:induction false} RunsMeet(steps: seq<Step>, c: ClientId)
    requires Possible(steps)
    ensures MeetingOk(After(steps), c, Meets(steps, c))
  {
    if steps != [] {
      var before := steps[..|steps| - 1];
      RunsMeet(before, c);
      RunsKeepInv(before);
      StepMeets(After(before), steps[|steps| - 1], c, Meets(before, c));
    }
  }

  /** No thread runs the server-update callback of the client. */
  ghost predicate Settled(s: State, c: ClientId) {
    forall t :: t in s.calls ==> Indicated(s.calls[t]) != Some(c)
  }

  lemma NothingIsUnderWay(s: State, c: ClientId)
    requires Settled(s, c)
    ensures !UnderWay(s.calls, c)
  {
    forall t | t in s.calls ensures !Brings(s.calls[t], c) {
      assert Indicated(s.calls[t]) != Some(c);
    }
  }

  lemma TheConnectedAreTold(s: State, c: ClientId)
    requires Inv(s) && c in s.clients && s.clients[c].life.Alive? && ServerOwns(s.phase) && Settled(s, c)
    ensures Up(s.clients[c].log) <==> s.clients[c].server.Some?
    ensures Alternates(s.clients[c].log, Available)
  {
    assert ClientOk(s, c);
  }

  /** In every run, once no callback of a living client is under way and the server is not being disabled, the client
      has a server, and was last told that the service is available, exactly when they met with compatible versions. */
  lemma MeetingConnects(steps: seq<Step>, c: ClientId)
    requires Possible(steps)
    requires var s := After(steps);
             && c in s.clients && s.clients[c].life.Alive? && ServerOwns(s.phase) && !s.aborted && Settled(s, c)
    ensures var x := After(steps).clients[c];
            && (x.server.Some? <==> Meets(steps, c))
            && (x.log != [] && x.log[|x.log| - 1] == Available <==> Meets(steps, c))
  {
    var s := After(steps);
    assert MeetingOk(s, c, Meets(steps, c)) by { RunsMeet(steps, c); }
    NothingIsUnderWay(s, c);
    assert Inv(s) by { RunsKeepInv(steps); }
    TheConnectedAreTold(s, c);
    LastNote(s.clients[c].log);
  }

  lemma LastNote(log: seq<Note>)
    requires Alternates(log, Available)
    ensures Up(log) <==> log != [] && log[|log| - 1] == Available
  {
    if log != [] {
      assert log[|log| - 1] == Available <==> (|log| - 1) % 2 == 0;
    }
  }

  /** In every run, once the server is disabled, every living client has lost it and was last told that the service is
      not available, if it was ever told that it is. */
  lemma DisablingTellsEveryClient(steps: seq<Step>, c: ClientId)
    requires Possible(steps) && c in After(steps).clients && After(steps).clients[c].life.Alive?
    requires After(steps).phase.Off?
    ensures var x := After(steps).clients[c];
            x.server.None? && (x.log == [] || x.log[|x.log| - 1] == NotAvailable)
  {
    RunsKeepInv(steps);
    OffMeansTold(After(steps), c);
    LastNote(After(steps).clients[c].log);
  }

  lemma OffMeansTold(s: State, c: ClientId)
    requires Inv(s) && s.phase.Off? && c in s.clients && s.clients[c].life.Alive?
    ensures s.clients[c].server.None? && !Up(s.clients[c].log) && Alternates(s.clients[c].log, Available)
  {
    assert ClientOk(s, c);
  }

}
