/** What every interleaving of the connectors keeps. */
module ConnectorSafety {
  import opened Prelude
  import opened Connectors

  // Counting threads.

  function Now(calls: map<Tid, Activity>, t: Tid): Option<Activity> {
    if t in calls then Some(calls[t]) else None
  }

  function Update(calls: map<Tid, Activity>, t: Tid, a: Option<Activity>): map<Tid, Activity> {
    if a.Some? then calls[t := a.value] else calls - {t}
  }

  predicate ClientIn(a: Option<Activity>, c: ClientId) {
    a.Some? && HeldClient(a.value) == Some(c)
  }

  predicate ConnIn(a: Option<Activity>, k: Conn) {
    a.Some? && HeldConn(a.value) == Some(k)
  }

  predicate ListensIn(a: Option<Activity>) {
    a.Some? && Listens(a.value)
  }

  lemma UpdateElsewhere(calls: map<Tid, Activity>, t: Tid, a: Option<Activity>)
    ensures forall u :: u != t ==> Now(Update(calls, t, a), u) == Now(calls, u)
    ensures Now(Update(calls, t, a), t) == a
  {
  }

  lemma ClientThreadCount(calls: map<Tid, Activity>, t: Tid, a: Option<Activity>, c: ClientId)
    ensures |ClientThreads(Update(calls, t, a), c)| ==
            |ClientThreads(calls, c)| - One(ClientIn(Now(calls, t), c)) + One(ClientIn(a, c))
  {
    UpdateElsewhere(calls, t, a);
    forall u: Tid ensures u in ClientThreads(calls, c) <==> ClientIn(Now(calls, u), c) { }
    forall u: Tid ensures u in ClientThreads(Update(calls, t, a), c) <==> ClientIn(Now(Update(calls, t, a), u), c) { }
    CountOne(ClientThreads(calls, c), ClientThreads(Update(calls, t, a), c), t,
             ClientIn(Now(calls, t), c), ClientIn(a, c));
  }

  lemma ConnThreadCount(calls: map<Tid, Activity>, t: Tid, a: Option<Activity>, k: Conn)
    ensures |ConnThreads(Update(calls, t, a), k)| ==
            |ConnThreads(calls, k)| - One(ConnIn(Now(calls, t), k)) + One(ConnIn(a, k))
  {
    UpdateElsewhere(calls, t, a);
    forall u: Tid ensures u in ConnThreads(calls, k) <==> ConnIn(Now(calls, u), k) { }
    forall u: Tid ensures u in ConnThreads(Update(calls, t, a), k) <==> ConnIn(Now(Update(calls, t, a), u), k) { }
    CountOne(ConnThreads(calls, k), ConnThreads(Update(calls, t, a), k), t, ConnIn(Now(calls, t), k), ConnIn(a, k));
  }

  lemma ListenerCount(calls: map<Tid, Activity>, t: Tid, a: Option<Activity>)
    ensures |Listeners(Update(calls, t, a))| ==
            |Listeners(calls)| - One(ListensIn(Now(calls, t))) + One(ListensIn(a))
  {
    UpdateElsewhere(calls, t, a);
    forall u: Tid ensures u in Listeners(calls) <==> ListensIn(Now(calls, u)) { }
    forall u: Tid ensures u in Listeners(Update(calls, t, a)) <==> ListensIn(Now(Update(calls, t, a), u)) { }
    CountOne(Listeners(calls), Listeners(Update(calls, t, a)), t, ListensIn(Now(calls, t)), ListensIn(a));
  }

  // The invariant, object by object.

  /** The last callback said available. */
  predicate Up(log: seq<Note>) {
    |log| % 2 == 1
  }

  predicate InRecord(life: Life) {
    life.Alive? || life.Resetting? || life.Reset?
  }

  /** Each count is the number of owners plus the number of threads that hold a copy. */
  ghost predicate ClientCount(s: State, c: ClientId)
    requires c in s.clients
  {
    s.clients[c].tokens ==
      One(s.clients[c].life.Alive?) + One(SlotIsOf(s, c)) + One(Tells(s.phase, c)) + |ClientThreads(s.calls, c)|
  }

  ghost predicate ClientOk(s: State, c: ClientId)
    requires c in s.clients
  {
    var x := s.clients[c];
    && ClientCount(s, c)
    && (x.server.Some? ==> s.slot == x.server && SlotIsOf(s, c) && x.life.Alive?)
    && (s.record == Some(c) <==> InRecord(x.life))
    && (x.life.Freed? ==> x.tokens == 0)
    && Alternates(x.log, Available)
    && (Up(x.log) && x.life.Alive? ==>
          x.server.Some? || ((s.phase.TellWait? || s.phase.Told?) && s.phase.client == c))
  }

  ghost predicate ConnOk(s: State, k: Conn)
    requires k in s.conns
  {
    k < s.next && s.conns[k].tokens == One(ServerIs(s, k)) + |ConnThreads(s.calls, k)|
  }

  ghost predicate OnSlot(s: State, c: ClientId, k: Conn) {
    s.slot == Some(k) && k in s.conns && s.conns[k].client == c && c in s.clients
  }

  ghost predicate ActivityOk(s: State, a: Activity) {
    match a
    case Indicating(c) => c in s.clients && !SlotIsOf(s, c)
    case Connecting(c) => c in s.clients && !SlotIsOf(s, c)
    case Connected(c, k) =>
      OnSlot(s, c, k) && s.clients[c].server.None? && s.conns[k].tokens == 1 && !s.conns[k].announced
    case Announcing(c, k) =>
      OnSlot(s, c, k) && (s.clients[c].life.Alive? ==> s.clients[c].server == Some(k)) &&
      !s.conns[k].announced && !Up(s.clients[c].log)
    case Leaving(c, k) =>
      OnSlot(s, c, k) && (s.conns[k].announced || (s.conns[k].tokens == 1 && !s.clients[c].life.Alive?))
    case Left(c) => c in s.clients && (SlotIsOf(s, c) ==> s.conns[s.slot.value].announced)
    case Calling(k) => s.slot == Some(k) && k in s.conns
    case Sending(c) => c in s.clients
    case Removing(k, cleared, next) =>
      && s.slot == Some(k) && k in s.conns && s.conns[k].tokens == 0
      && (cleared ==> s.marks == map[]) && NextOk(s, next, k)
  }

  ghost predicate NextOk(s: State, next: Next, k: Conn)
    requires k in s.conns
  {
    match next
    case ThenLeave(c) => c in s.clients && s.conns[k].client == c && !s.phase.TellWait?
    case ThenReturn => !s.phase.TellWait?
    case ThenDestroy(c) => c in s.clients && s.clients[c].life.Resetting? && !s.phase.TellWait?
    case ThenTell(c) => s.phase == TellWait(c, k)
  }

  ghost predicate SlotOk(s: State) {
    s.slot.Some? ==>
      var k := s.slot.value;
      && k in s.conns && s.conns[k].client in s.clients
      && (s.conns[k].tokens > 0 || exists t :: t in s.calls && s.calls[t].Removing?)
      && (!s.conns[k].announced ==> exists t :: t in s.calls && Indicated(s.calls[t]) == Some(s.conns[k].client))
      && (s.conns[k].announced && !s.conns[k].told ==> Up(s.clients[s.conns[k].client].log))
      && (s.phase.On? || s.phase.Unregistered? || s.phase.Stopping? ==> !s.conns[k].told)
  }

  ghost predicate PhaseOk(s: State) {
    && s.stopTokens == One(ServerOwns(s.phase)) + One(s.phase.On?) + |Listeners(s.calls)|
    && s.allTokens == One(ServerOwns(s.phase)) + One(s.slot.Some?)
    && (!ServerOwns(s.phase) && !s.phase.Stopping? ==> s.stopTokens == 0)
    && (s.phase.Off? ==> s.allTokens == 0)
    && (s.phase.Telling? || s.phase.TellWait? || s.phase.Told? || s.phase.Notified? ==>
          s.phase.client in s.clients && s.phase.conn in s.conns && s.conns[s.phase.conn].client == s.phase.client &&
          (s.slot.Some? ==> s.slot == Some(s.phase.conn)))
    && (s.phase.Telling? || s.phase.TellWait? || s.phase.Told? ==>
          Up(s.clients[s.phase.client].log) && s.conns[s.phase.conn].announced && !s.conns[s.phase.conn].told)
    && (s.phase.TellWait? || s.phase.Told? || s.phase.Notified? || s.phase.Draining? ==>
          s.slot.Some? ==> !ServerIs(s, s.slot.value))
    && (s.phase.TellWait? ==> s.slot.Some? && s.conns[s.phase.conn].tokens == 0)
  }

  /** Both threads run a callback of the same client. */
  predicate SameIndication(a: Activity, b: Activity) {
    Listens(a) && Indicated(a) == Indicated(b)
  }

  ghost predicate Unique(s: State) {
    && (forall t, t' :: t in s.calls && t' in s.calls && s.calls[t].Removing? && s.calls[t'].Removing? ==> t == t')
    && (forall t, t' :: t in s.calls && t' in s.calls && SameIndication(s.calls[t], s.calls[t']) ==> t == t')
  }

  /** A client pointer stored for an event points to the connection the server has. */
  ghost predicate MarksOk(s: State) {
    forall m :: m in s.marks ==> s.slot == Some(s.marks[m])
  }

  ghost predicate ClientsOk(s: State) {
    && (forall c {:trigger ClientOk(s, c)} :: c in s.clients ==> ClientOk(s, c))
    && (s.record.Some? ==> s.record.value in s.clients)
  }

  ghost predicate ConnsOk(s: State) {
    forall k {:trigger ConnOk(s, k)} :: k in s.conns ==> ConnOk(s, k)
  }

  ghost predicate ActivitiesOk(s: State) {
    forall t {:trigger ActivityOk(s, s.calls[t])} :: t in s.calls ==> ActivityOk(s, s.calls[t])
  }

  ghost predicate Inv(s: State) {
    ClientsOk(s) && ConnsOk(s) && ActivitiesOk(s) && SlotOk(s) && PhaseOk(s) && Unique(s) && MarksOk(s)
  }

  // Consequences used by many steps.

  lemma HolderCounts(s: State, t: Tid)
    requires ClientsOk(s) && ConnsOk(s) && PhaseOk(s) && t in s.calls
    ensures HeldClient(s.calls[t]).Some? && HeldClient(s.calls[t]).value in s.clients ==>
              s.clients[HeldClient(s.calls[t]).value].tokens > 0
    ensures HeldConn(s.calls[t]).Some? && HeldConn(s.calls[t]).value in s.conns ==>
              s.conns[HeldConn(s.calls[t]).value].tokens > 0
    ensures Listens(s.calls[t]) ==> s.stopTokens > 0 && (ServerOwns(s.phase) || s.phase.Stopping?)
  {
    var c, k := HeldClient(s.calls[t]), HeldConn(s.calls[t]);
    if c.Some? && c.value in s.clients {
      assert t in ClientThreads(s.calls, c.value) && ClientOk(s, c.value);
    }
    if k.Some? && k.value in s.conns {
      assert t in ConnThreads(s.calls, k.value) && ConnOk(s, k.value);
    }
    if Listens(s.calls[t]) {
      assert t in Listeners(s.calls);
    }
  }

  lemma ThreadStepIsSound(s: State, step: Step)
    requires Inv(s) && Reached(s, step)
    requires step.LockWeak? || step.ReceiveConnect? || step.SetServer? || step.Announce? || step.DropReturn? ||
             step.LeaveIndication? || step.StoreMark? || step.EndCall? || step.EndSend?
    ensures Sound(s, step)
  {
    assert ActivityOk(s, s.calls[step.t]);
    HolderCounts(s, step.t);
  }

  lemma SlotIsThere(s: State)
    requires Inv(s) && s.slot.Some?
    ensures s.slot.value in s.conns && ClientThere(s, s.conns[s.slot.value].client) && s.allTokens > 0
  {
    assert ClientOk(s, s.conns[s.slot.value].client);
  }

  lemma ServerIsThere(s: State, c: ClientId)
    requires Inv(s) && c in s.clients && s.clients[c].server.Some?
    ensures s.slot == s.clients[c].server && ConnThere(s, s.slot.value)
  {
    assert ClientOk(s, c);
    assert ServerIs(s, s.slot.value) && ConnOk(s, s.slot.value);
  }

  lemma TokenOfTold(s: State)
    requires Inv(s) && (s.phase.Telling? || s.phase.Told? || s.phase.Notified?)
    ensures ClientThere(s, s.phase.client)
  {
    assert ClientOk(s, s.phase.client);
  }

  predicate IsPhaseStep(step: Step) {
    step.EnableServer? || step.DisableUnregister? || step.DisableReset? || step.CreateClient? || step.ClearMark? ||
    step.ClearEvents? || step.UnregisterClient? || step.FreeClient? || step.DisableDone?
  }

  lemma PhaseStepIsSound(s: State, step: Step)
    requires PhaseOk(s) && Reached(s, step) && IsPhaseStep(step)
    ensures Sound(s, step)
  {
  }

  lemma ObjectStepIsSound(s: State, step: Step)
    requires Inv(s) && Reached(s, step)
    requires step.StartCall? || step.StartSend? || step.FinishRemove? || step.BeginDestroy?
    ensures Sound(s, step)
  {
    if step.StartCall? {
      ServerIsThere(s, step.c);
    } else if step.StartSend? {
      SlotIsThere(s);
    } else if step.FinishRemove? {
      assert ActivityOk(s, s.calls[step.t]);
      SlotIsThere(s);
    } else {
      assert ClientOk(s, step.c);
      if s.clients[step.c].server.Some? { ServerIsThere(s, step.c); }
    }
  }

  lemma TellStepIsSound(s: State, step: Step)
    requires Inv(s) && Reached(s, step)
    requires step.DisableNotify? || step.TellReset? || step.TellCallback? || step.TellDone?
    ensures Sound(s, step)
  {
    if step.DisableNotify? {
      if s.slot.Some? { SlotIsThere(s); }
    } else {
      TokenOfTold(s);
      if step.TellReset? && s.clients[s.phase.client].server.Some? { ServerIsThere(s, s.phase.client); }
    }
  }

  /** In every state of the invariant a step that is reached finds everything it needs. */
  lemma ReachedIsSound(s: State, step: Step)
    requires Inv(s) && Reached(s, step)
    ensures Sound(s, step)
  {
    if IsPhaseStep(step) {
      PhaseStepIsSound(s, step);
    } else if step.StartCall? || step.StartSend? || step.FinishRemove? || step.BeginDestroy? {
      ObjectStepIsSound(s, step);
    } else if step.DisableNotify? || step.TellReset? || step.TellCallback? || step.TellDone? {
      TellStepIsSound(s, step);
    } else {
      ThreadStepIsSound(s, step);
    }
  }

  // Threads that come, go on or go, and the tokens they take and drop with it.

  /** `s'` is `s` with thread `t` at `a`, and with every token count following the holders. */
  ghost predicate Moved(s: State, s': State, t: Tid, a: Option<Activity>) {
    && s'.calls == Update(s.calls, t, a)
    && s'.clients.Keys == s.clients.Keys && s'.conns.Keys == s.conns.Keys
    && (forall c :: c in s.clients ==>
          && s'.clients[c] == s.clients[c].(tokens := s'.clients[c].tokens)
          && s'.clients[c].tokens == s.clients[c].tokens - One(ClientIn(Now(s.calls, t), c)) + One(ClientIn(a, c)))
    && (forall k :: k in s.conns ==>
          && s'.conns[k] == s.conns[k].(tokens := s'.conns[k].tokens)
          && s'.conns[k].tokens == s.conns[k].tokens - One(ConnIn(Now(s.calls, t), k)) + One(ConnIn(a, k)))
    && s'.stopTokens == s.stopTokens - One(ListensIn(Now(s.calls, t))) + One(ListensIn(a))
    && s'.next == s.next && s'.record == s.record && s'.phase == s.phase && s'.slot == s.slot && s'.marks == s.marks
    && s'.allTokens == s.allTokens
  }

  lemma MoveClients(s: State, s': State, t: Tid, a: Option<Activity>)
    requires ClientsOk(s) && Moved(s, s', t, a)
    requires forall c :: c in s.clients && s.clients[c].life.Freed? ==> !ClientIn(a, c)
    ensures ClientsOk(s')
  {
    forall c | c in s'.clients ensures ClientOk(s', c) {
      assert ClientOk(s, c);
      ClientThreadCount(s.calls, t, a, c);
    }
  }

  lemma MoveConns(s: State, s': State, t: Tid, a: Option<Activity>)
    requires ConnsOk(s) && Moved(s, s', t, a)
    ensures ConnsOk(s')
  {
    forall k | k in s'.conns ensures ConnOk(s', k) {
      assert ConnOk(s, k);
      ConnThreadCount(s.calls, t, a, k);
      assert ServerIs(s', k) == ServerIs(s, k);
    }
  }

  /** The activity relies on the exact number of tokens of the connection. */
  ghost predicate Sensitive(s: State, a: Activity, k: Conn) {
    (a.Connected? && a.conn == k) || (a.Removing? && a.conn == k) ||
    (a.Leaving? && a.conn == k && k in s.conns && !s.conns[k].announced)
  }

  ghost predicate Undisturbed(s: State, t: Tid, a: Option<Activity>) {
    forall u, k :: u in s.calls && u != t && k in s.conns && Sensitive(s, s.calls[u], k) ==>
      ConnIn(Now(s.calls, t), k) == ConnIn(a, k)
  }

  lemma MoveActivities(s: State, s': State, t: Tid, a: Option<Activity>)
    requires ActivitiesOk(s) && Moved(s, s', t, a) && Undisturbed(s, t, a)
    requires a.Some? ==> ActivityOk(s', a.value)
    ensures ActivitiesOk(s')
  {
    forall u | u in s'.calls ensures ActivityOk(s', s'.calls[u]) {
      if u != t {
        assert ActivityOk(s, s.calls[u]);
      }
    }
  }

  /** If thread `t` was the one removing or indicating, it still is. */
  ghost predicate Continues(before: Option<Activity>, a: Option<Activity>) {
    before.Some? ==>
      && (before.value.Removing? ==> a.Some? && a.value.Removing?)
      && (Listens(before.value) ==> a.Some? && Indicated(a.value) == Indicated(before.value))
  }

  /** The slot does not need thread `t` any more, or `t` goes on. */
  ghost predicate SlotLetsGo(s: State, t: Tid, a: Option<Activity>) {
    s.slot.Some? && Now(s.calls, t).Some? ==>
      Continues(Now(s.calls, t), a) ||
      (!s.calls[t].Removing? &&
       (s.slot.value in s.conns && !s.conns[s.slot.value].announced ==>
          Indicated(s.calls[t]) != Some(s.conns[s.slot.value].client)))
  }

  ghost predicate SlotKept(s: State, s': State, a: Option<Activity>) {
    s.slot.Some? && s.slot.value in s.conns && s.slot.value in s'.conns && s.conns[s.slot.value].tokens > 0 ==>
      s'.conns[s.slot.value].tokens > 0 || (a.Some? && a.value.Removing?)
  }

  lemma MoveSlot(s: State, s': State, t: Tid, a: Option<Activity>)
    requires SlotOk(s) && Moved(s, s', t, a) && SlotLetsGo(s, t, a) && SlotKept(s, s', a)
    ensures SlotOk(s')
  {
    if s.slot.Some? {
      var k := s.slot.value;
      if s'.conns[k].tokens == 0 && s.conns[k].tokens == 0 {
        var u :| u in s.calls && s.calls[u].Removing?;
        assert u in s'.calls && s'.calls[u].Removing?;
      } else if s'.conns[k].tokens == 0 {
        assert t in s'.calls && s'.calls[t].Removing?;
      }
      if !s.conns[k].announced {
        var u :| u in s.calls && Indicated(s.calls[u]) == Some(s.conns[k].client);
        assert u in s'.calls && Indicated(s'.calls[u]) == Some(s'.conns[k].client);
      }
    }
  }

  lemma MovePhase(s: State, s': State, t: Tid, a: Option<Activity>)
    requires PhaseOk(s) && Moved(s, s', t, a)
    requires ListensIn(a) ==> ServerOwns(s.phase) || s.phase.Stopping?
    requires SlotOk(s) && (s.phase.TellWait? ==> !ConnIn(a, s.phase.conn))
    ensures PhaseOk(s')
  {
    ListenerCount(s.calls, t, a);
    if s.slot.Some? {
      assert ServerIs(s', s.slot.value) == ServerIs(s, s.slot.value);
    }
  }

  /** No other thread removes, or runs a callback of the same client. */
  ghost predicate Alone(s: State, t: Tid, a: Option<Activity>) {
    a.Some? ==>
      forall u :: u in s.calls && u != t ==>
        && (a.value.Removing? ==> !s.calls[u].Removing?)
        && (Listens(a.value) ==> Indicated(s.calls[u]) != Indicated(a.value))
  }

  lemma MoveUnique(s: State, s': State, t: Tid, a: Option<Activity>)
    requires Unique(s) && Moved(s, s', t, a) && Alone(s, t, a)
    ensures Unique(s')
  {
  }

  ghost predicate NotFreed(s: State, a: Option<Activity>) {
    a.Some? && HeldClient(a.value).Some? && HeldClient(a.value).value in s.clients ==>
      !s.clients[HeldClient(a.value).value].life.Freed?
  }

  lemma MoveKeeps(s: State, s': State, t: Tid, a: Option<Activity>)
    requires Inv(s) && Moved(s, s', t, a)
    requires NotFreed(s, a) && Undisturbed(s, t, a) && SlotLetsGo(s, t, a) && SlotKept(s, s', a) && Alone(s, t, a)
    requires a.Some? ==> ActivityOk(s', a.value)
    requires ListensIn(a) ==> ServerOwns(s.phase) || s.phase.Stopping?
    requires s.phase.TellWait? ==> !ConnIn(a, s.phase.conn)
    ensures Inv(s')
  {
    MoveClients(s, s', t, a);
    MoveConns(s, s', t, a);
    MoveActivities(s, s', t, a);
    MoveSlot(s, s', t, a);
    MovePhase(s, s', t, a);
    MoveUnique(s, s', t, a);
  }

  // Facts about holders.

  lemma {:induction false} SubsetCount(a: set<Tid>, b: set<Tid>)
    requires a <= b
    ensures |a| <= |b|
  {
    if a != {} {
      var t :| t in a;
      SubsetCount(a - {t}, b - {t});
    }
  }

  lemma HolderUndisturbed(s: State, t: Tid, k: Conn)
    requires ConnsOk(s) && ActivitiesOk(s) && t in s.calls && HeldConn(s.calls[t]) == Some(k) && k in s.conns
    ensures forall u :: u in s.calls && u != t ==> !Sensitive(s, s.calls[u], k)
  {
    assert ConnOk(s, k) && t in ConnThreads(s.calls, k);
    forall u | u in s.calls && u != t ensures !Sensitive(s, s.calls[u], k) {
      assert ActivityOk(s, s.calls[u]);
      if HeldConn(s.calls[u]) == Some(k) {
        assert |{t, u}| == 2;
        SubsetCount({t, u}, ConnThreads(s.calls, k));
      }
    }
  }

  lemma ServerUndisturbed(s: State, k: Conn)
    requires ClientsOk(s) && ConnsOk(s) && ActivitiesOk(s) && ServerIs(s, k)
    ensures forall u :: u in s.calls ==> !Sensitive(s, s.calls[u], k)
  {
    assert ConnOk(s, k);
    assert ClientOk(s, s.conns[k].client);
    forall u | u in s.calls ensures !Sensitive(s, s.calls[u], k) {
      assert ActivityOk(s, s.calls[u]);
    }
  }

  /** A connection with a token is not being removed. */
  lemma HeldIsNotRemoved(s: State)
    requires ActivitiesOk(s) && s.slot.Some? && s.slot.value in s.conns && s.conns[s.slot.value].tokens > 0
    ensures forall u :: u in s.calls ==> !s.calls[u].Removing?
  {
    forall u | u in s.calls ensures !s.calls[u].Removing? {
      assert ActivityOk(s, s.calls[u]);
    }
  }

  lemma TokensMeanNotFreed(s: State, c: ClientId)
    requires ClientsOk(s) && c in s.clients && s.clients[c].tokens > 0
    ensures !s.clients[c].life.Freed?
  {
    assert ClientOk(s, c);
  }
}
