/** The steps that remove a connection, destroy a client and disable the server keep the invariant. */
module ConnectorEnds {
  import opened Prelude
  import opened Connectors
  import opened ConnectorSafety

  // remove_client.

  /** Nothing but the removing thread relies on a connection without tokens. */
  lemma RemovedIsUnused(s: State, t: Tid)
    requires Inv(s) && Can(s, FinishRemove(t))
    ensures s.marks == map[] && s.slot == Some(s.calls[t].conn)
    ensures forall c :: c in s.clients ==> s.clients[c].server.None?
    ensures forall u :: u in s.calls && u != t ==> HeldConn(s.calls[u]).None? && !s.calls[u].Removing?
  {
    assert ActivityOk(s, s.calls[t]);
    var k := s.calls[t].conn;
    assert ConnOk(s, k);
    assert !ServerIs(s, k) && ConnThreads(s.calls, k) == {};
    forall c | c in s.clients ensures s.clients[c].server.None? {
      assert ClientOk(s, c);
    }
    forall u | u in s.calls && u != t ensures HeldConn(s.calls[u]).None? && !s.calls[u].Removing? {
      assert ActivityOk(s, s.calls[u]);
      assert u !in ConnThreads(s.calls, k);
    }
  }

  /** What the removing thread does next. */
  function AfterRemove(a: Activity): Option<Activity>
    requires a.Removing?
  {
    if a.next.ThenLeave? then Some(Left(a.next.client)) else None
  }

  /** The parts of the state that a finished removal leaves. */
  ghost predicate Removed(s: State, s': State, t: Tid)
    requires t in s.calls && s.calls[t].Removing? && s.calls[t].conn in s.conns
  {
    && s'.calls == Update(s.calls, t, AfterRemove(s.calls[t]))
    && s'.clients.Keys == s.clients.Keys && s'.conns == s.conns && s'.next == s.next && s'.record == s.record
    && s'.slot == None && s'.marks == s.marks && s'.stopTokens == s.stopTokens
    && s'.allTokens == s.allTokens - 1
    && (forall c :: c in s.clients ==> RemovedClient(s, s', t, c))
    && s'.phase == if s.calls[t].next.ThenTell? then Told(s.calls[t].next.client, s.calls[t].conn) else s.phase
  }

  ghost predicate RemovedClient(s: State, s': State, t: Tid, c: ClientId)
    requires t in s.calls && s.calls[t].Removing? && s.calls[t].conn in s.conns && c in s.clients && c in s'.clients
  {
    var x, y, next := s.clients[c], s'.clients[c], s.calls[t].next;
    && y.server == x.server && y.log == x.log
    && y.tokens == x.tokens - One(s.conns[s.calls[t].conn].client == c)
    && y.life == if next == ThenDestroy(c) then Reset else x.life
  }

  lemma DestroyerRemoves(s: State, t: Tid)
    requires Can(s, FinishRemove(t)) && s.calls[t].next.ThenDestroy?
    ensures Removed(s, RemoveFinished(s, t), t)
  {
  }

  lemma OtherRemoves(s: State, t: Tid)
    requires Can(s, FinishRemove(t)) && !s.calls[t].next.ThenDestroy?
    ensures Removed(s, RemoveFinished(s, t), t)
  {
  }

  lemma FinishRemoves(s: State, t: Tid)
    requires Can(s, FinishRemove(t))
    ensures Removed(s, Do(s, FinishRemove(t)), t)
  {
    if s.calls[t].next.ThenDestroy? {
      DestroyerRemoves(s, t);
    } else {
      OtherRemoves(s, t);
    }
    assert Do(s, FinishRemove(t)) == RemoveFinished(s, t);
  }

  lemma RemovedClientOk(s: State, s': State, t: Tid, c: ClientId)
    requires Can(s, FinishRemove(t)) && Removed(s, s', t) && c in s.clients && ClientOk(s, c)
    requires s.clients[c].server.None? && ActivityOk(s, s.calls[t])
    ensures ClientOk(s', c)
  {
    assert RemovedClient(s, s', t, c);
    ClientThreadCount(s.calls, t, AfterRemove(s.calls[t]), c);
    assert SlotIsOf(s, c) <==> s.conns[s.calls[t].conn].client == c;
  }

  lemma RemovedClients(s: State, s': State, t: Tid)
    requires Inv(s) && Can(s, FinishRemove(t)) && Removed(s, s', t)
    ensures ClientsOk(s')
  {
    RemovedIsUnused(s, t);
    assert ActivityOk(s, s.calls[t]);
    forall c | c in s'.clients ensures ClientOk(s', c) {
      RemovedClientOk(s, s', t, c);
    }
  }

  lemma RemovedConns(s: State, s': State, t: Tid)
    requires Inv(s) && Can(s, FinishRemove(t)) && Removed(s, s', t)
    ensures ConnsOk(s')
  {
    RemovedIsUnused(s, t);
    forall k | k in s'.conns ensures ConnOk(s', k) {
      assert ConnOk(s, k);
      ConnThreadCount(s.calls, t, AfterRemove(s.calls[t]), k);
      if s.conns[k].client in s.clients { assert RemovedClient(s, s', t, s.conns[k].client); }
      assert !ServerIs(s, k) && !ServerIs(s', k);
    }
  }

  lemma RemovedActivities(s: State, s': State, t: Tid)
    requires Inv(s) && Can(s, FinishRemove(t)) && Removed(s, s', t)
    ensures ActivitiesOk(s')
  {
    RemovedIsUnused(s, t);
    forall u | u in s'.calls ensures ActivityOk(s', s'.calls[u]) {
      assert ActivityOk(s, s.calls[u]);
    }
  }

  lemma RemovedRest(s: State, s': State, t: Tid)
    requires PhaseOk(s) && Unique(s) && Can(s, FinishRemove(t)) && Removed(s, s', t)
    requires ActivityOk(s, s.calls[t]) && s.marks == map[]
    ensures SlotOk(s') && PhaseOk(s') && Unique(s') && MarksOk(s')
  {
    ListenerCount(s.calls, t, AfterRemove(s.calls[t]));
    if s.phase.Telling? || s.phase.TellWait? || s.phase.Told? || s.phase.Notified? {
      assert RemovedClient(s, s', t, s.phase.client);
    }
  }

  lemma FinishRemoveKeeps(s: State, t: Tid)
    requires Inv(s) && Can(s, FinishRemove(t))
    ensures Inv(Do(s, FinishRemove(t)))
  {
    var s' := Do(s, FinishRemove(t));
    FinishRemoves(s, t);
    RemovedClients(s, s', t);
    RemovedConns(s, s', t);
    RemovedActivities(s, s', t);
    RemovedIsUnused(s, t);
    RemovedRest(s, s', t);
  }

  // The destructor of a client connector, and reset_server from the server.

  /** Client `c` has dropped its server endpoint in thread `t`; `k` is the connection it was of. */
  ghost predicate Unserved(s: State, s': State, c: ClientId, t: Tid, k: Conn, next: Next)
    requires k in s.conns && c in s.clients
  {
    && t !in s.calls
    && s'.calls == Update(s.calls, t, if s.conns[k].tokens == 1 then Some(Removing(k, false, next)) else None)
    && s'.clients.Keys == s.clients.Keys && s'.conns.Keys == s.conns.Keys
    && (forall d :: d in s.clients && d != c ==> s'.clients[d] == s.clients[d])
    && s'.clients[c].server == None && s'.clients[c].log == s.clients[c].log
    && s'.clients[c].tokens == s.clients[c].tokens - One(s.clients[c].life.Alive?) + One(s'.clients[c].life.Alive?)
    && (s'.clients[c].life == s.clients[c].life || (next == ThenDestroy(c) && s.clients[c].life.Alive? &&
          (s'.clients[c].life.Reset? || s'.clients[c].life.Resetting?)))
    && (forall j :: j in s.conns && j != k ==> s'.conns[j] == s.conns[j])
    && s.conns[k].tokens > 0 && s'.conns[k] == s.conns[k].(tokens := s.conns[k].tokens - 1)
    && s'.next == s.next && s'.record == s.record && s'.slot == s.slot && s'.marks == s.marks
    && s'.stopTokens == s.stopTokens && s'.allTokens == s.allTokens
    && (s'.phase == s.phase || s.phase.Telling?)
    && (s.phase.Telling? && s'.phase != s.phase ==>
          c == s.phase.client && s'.phase ==
            if s.conns[k].tokens == 1 then TellWait(c, s.phase.conn) else Told(c, s.phase.conn))
    && (next.ThenTell? ==> next.client == c && s'.phase != s.phase)
    && (next == ThenDestroy(c) && s.conns[k].tokens == 1 ==> s'.clients[c].life.Resetting?)
    && (next.ThenDestroy? ==> next.client == c && s'.phase == s.phase && !s'.clients[c].life.Alive?)
    && (next.ThenTell? || next.ThenDestroy?)
  }

  lemma UnservedClientOk(s: State, s': State, c: ClientId, t: Tid, k: Conn, next: Next, d: ClientId)
    requires c in s.clients && s.clients[c].server == Some(k) && k in s.conns && Unserved(s, s', c, t, k, next)
    requires d in s.clients && ClientOk(s, d) && ClientOk(s, c)
    ensures ClientOk(s', d)
  {
    ClientThreadCount(s.calls, t, if s.conns[k].tokens == 1 then Some(Removing(k, false, next)) else None, d);
    assert SlotIsOf(s', d) == SlotIsOf(s, d);
  }

  lemma UnservedClients(s: State, s': State, c: ClientId, t: Tid, k: Conn, next: Next)
    requires ClientsOk(s) && c in s.clients && s.clients[c].server == Some(k) && k in s.conns
    requires Unserved(s, s', c, t, k, next)
    ensures ClientsOk(s')
  {
    forall d | d in s'.clients ensures ClientOk(s', d) {
      UnservedClientOk(s, s', c, t, k, next, d);
    }
  }

  lemma UnservedConns(s: State, s': State, c: ClientId, t: Tid, k: Conn, next: Next)
    requires Inv(s) && c in s.clients && s.clients[c].server == Some(k) && k in s.conns
    requires Unserved(s, s', c, t, k, next)
    ensures ConnsOk(s')
  {
    assert ClientOk(s, c);
    forall j | j in s'.conns ensures ConnOk(s', j) {
      assert ConnOk(s, j);
      ConnThreadCount(s.calls, t, if s.conns[k].tokens == 1 then Some(Removing(k, false, next)) else None, j);
      assert ServerIs(s, k) && !ServerIs(s', k) && (j != k ==> ServerIs(s', j) == ServerIs(s, j));
    }
  }

  lemma UnservedActivities(s: State, s': State, c: ClientId, t: Tid, k: Conn, next: Next)
    requires Inv(s) && c in s.clients && s.clients[c].server == Some(k) && k in s.conns
    requires Unserved(s, s', c, t, k, next)
    ensures ActivitiesOk(s')
  {
    assert ClientOk(s, c);
    ServerUndisturbed(s, k);
    HeldIsNotRemoved(s);
    forall u | u in s'.calls ensures ActivityOk(s', s'.calls[u]) {
      if u != t {
        assert ActivityOk(s, s.calls[u]) && s'.calls[u] == s.calls[u] && !Sensitive(s, s.calls[u], k);
        HolderCounts(s, u);
      }
    }
  }

  lemma UnservedSlot(s: State, s': State, c: ClientId, t: Tid, k: Conn, next: Next)
    requires SlotOk(s) && c in s.clients && k in s.conns && s.slot == Some(k) && SlotIsOf(s, c)
    requires Unserved(s, s', c, t, k, next)
    ensures SlotOk(s')
  {
    if s.conns[k].tokens == 1 { assert t in s'.calls && s'.calls[t].Removing?; }
    if !s.conns[k].announced {
      var u :| u in s.calls && Indicated(s.calls[u]) == Some(s.conns[k].client);
      assert u in s'.calls && Indicated(s'.calls[u]) == Some(s'.conns[k].client);
    }
  }

  lemma UnservedPhase(s: State, s': State, c: ClientId, t: Tid, k: Conn, next: Next)
    requires PhaseOk(s) && c in s.clients && k in s.conns && s.slot == Some(k) && SlotIsOf(s, c)
    requires Unserved(s, s', c, t, k, next)
    ensures PhaseOk(s')
  {
    ListenerCount(s.calls, t, if s.conns[k].tokens == 1 then Some(Removing(k, false, next)) else None);
    assert !ServerIs(s', k);
  }

  lemma UnservedUnique(s: State, s': State, c: ClientId, t: Tid, k: Conn, next: Next)
    requires Unique(s) && MarksOk(s) && c in s.clients && k in s.conns
    requires Unserved(s, s', c, t, k, next) && forall u :: u in s.calls ==> !s.calls[u].Removing?
    ensures Unique(s') && MarksOk(s')
  {
  }

  lemma UnservedKeeps(s: State, s': State, c: ClientId, t: Tid, k: Conn, next: Next)
    requires Inv(s) && c in s.clients && s.clients[c].server == Some(k) && k in s.conns
    requires Unserved(s, s', c, t, k, next)
    ensures Inv(s')
  {
    UnservedClients(s, s', c, t, k, next);
    UnservedConns(s, s', c, t, k, next);
    UnservedActivities(s, s', c, t, k, next);
    assert ClientOk(s, c);
    HeldIsNotRemoved(s);
    UnservedSlot(s, s', c, t, k, next);
    UnservedPhase(s, s', c, t, k, next);
    UnservedUnique(s, s', c, t, k, next);
  }

  lemma DestroyUnserves(s: State, c: ClientId, t: Tid)
    requires Can(s, BeginDestroy(c, t)) && s.clients[c].server.Some?
    ensures Unserved(s, Do(s, BeginDestroy(c, t)), c, t, s.clients[c].server.value, ThenDestroy(c))
  {
  }

  /** Client `c` goes on to the next stage of its destruction. */
  ghost predicate Passed(s: State, s': State, c: ClientId) {
    && c in s.clients && s.clients[c].server.None? && s'.clients.Keys == s.clients.Keys
    && s' == s.(clients := s'.clients, record := s'.record)
    && (forall d :: d in s.clients && d != c ==> s'.clients[d] == s.clients[d])
    && var x, y := s.clients[c], s'.clients[c];
       && y == x.(life := y.life, tokens := y.tokens)
       && ((x.life.Alive? && y.life.Reset? && y.tokens == x.tokens - 1 && s'.record == s.record) ||
           (x.life.Reset? && y.life.Gone? && y.tokens == x.tokens && s'.record == None) ||
           (x.life.Gone? && y.life.Freed? && y.tokens == x.tokens == 0 && s'.record == s.record))
  }

  lemma PassedClients(s: State, s': State, c: ClientId)
    requires ClientsOk(s) && Passed(s, s', c)
    ensures ClientsOk(s')
  {
    assert ClientOk(s, c);
    forall d | d in s'.clients ensures ClientOk(s', d) {
      assert ClientOk(s, d);
      assert SlotIsOf(s', d) == SlotIsOf(s, d);
    }
  }

  lemma PassedActivities(s: State, s': State, c: ClientId)
    requires ActivitiesOk(s) && Passed(s, s', c)
    ensures ActivitiesOk(s')
  {
    forall t | t in s'.calls ensures ActivityOk(s', s'.calls[t]) {
      assert ActivityOk(s, s.calls[t]);
    }
  }

  lemma PassedRest(s: State, s': State, c: ClientId)
    requires ConnsOk(s) && SlotOk(s) && PhaseOk(s) && Unique(s) && MarksOk(s) && Passed(s, s', c)
    ensures ConnsOk(s') && SlotOk(s') && PhaseOk(s') && Unique(s') && MarksOk(s')
  {
    forall k | k in s'.conns ensures ConnOk(s', k) && ServerIs(s', k) == ServerIs(s, k) {
      assert ConnOk(s, k);
    }
  }

  lemma PassedKeeps(s: State, s': State, c: ClientId)
    requires Inv(s) && Passed(s, s', c)
    ensures Inv(s')
  {
    PassedClients(s, s', c);
    PassedActivities(s, s', c);
    PassedRest(s, s', c);
  }

  lemma NoServerWithoutLife(s: State, c: ClientId)
    requires ClientsOk(s) && c in s.clients && !s.clients[c].life.Alive?
    ensures s.clients[c].server.None?
  {
    assert ClientOk(s, c);
  }

  lemma DestroyPasses(s: State, c: ClientId, t: Tid)
    requires Can(s, BeginDestroy(c, t)) && s.clients[c].server.None?
    ensures Passed(s, Do(s, BeginDestroy(c, t)), c)
  {
  }

  lemma DestroyKeeps(s: State, c: ClientId, t: Tid)
    requires Inv(s) && Can(s, BeginDestroy(c, t))
    ensures Inv(Do(s, BeginDestroy(c, t)))
  {
    if s.clients[c].server.Some? {
      DestroyUnserves(s, c, t);
      UnservedKeeps(s, Do(s, BeginDestroy(c, t)), c, t, s.clients[c].server.value, ThenDestroy(c));
    } else {
      DestroyPasses(s, c, t);
      PassedKeeps(s, Do(s, BeginDestroy(c, t)), c);
    }
  }

  lemma UnregisterClientKeeps(s: State, c: ClientId)
    requires Inv(s) && Can(s, UnregisterClient(c))
    ensures Inv(Do(s, UnregisterClient(c)))
  {
    NoServerWithoutLife(s, c);
    PassedKeeps(s, Do(s, UnregisterClient(c)), c);
  }

  lemma FreeClientKeeps(s: State, c: ClientId)
    requires Inv(s) && Can(s, FreeClient(c))
    ensures Inv(Do(s, FreeClient(c)))
  {
    NoServerWithoutLife(s, c);
    PassedKeeps(s, Do(s, FreeClient(c)), c);
  }

  // disable().

  /** Only the phase, its tokens and the marks change, and no client is told anything yet. */
  ghost predicate Rephased(s: State, s': State) {
    && s' == s.(phase := s'.phase, stopTokens := s'.stopTokens, allTokens := s'.allTokens, marks := s'.marks)
    && (s'.marks == s.marks || s'.marks == map[])
    && (s.phase.On? || s.phase.Unregistered? || s.phase.Stopping? || s.phase.Draining?)
    && (s'.phase.Unregistered? || s'.phase.Stopping? || s'.phase.Draining? || s'.phase.Off?)
    && PhaseOk(s')
    && (s.phase.Draining? || s'.phase.Off? ==> s.slot.None?)
  }

  lemma RephasedKeeps(s: State, s': State)
    requires Inv(s) && Rephased(s, s')
    ensures Inv(s')
  {
    forall d | d in s'.clients ensures ClientOk(s', d) { assert ClientOk(s, d); }
    forall k | k in s'.conns ensures ConnOk(s', k) { assert ConnOk(s, k); }
    forall u | u in s'.calls ensures ActivityOk(s', s'.calls[u]) { assert ActivityOk(s, s.calls[u]); }
  }

  predicate IsDisable(s: State, step: Step) {
    step.DisableUnregister? || step.DisableReset? || step.DisableDone? || (step.DisableNotify? && s.slot.None?)
  }

  lemma DisableRephases(s: State, step: Step)
    requires PhaseOk(s) && Can(s, step) && IsDisable(s, step)
    ensures Rephased(s, Do(s, step))
  {
  }

  lemma DisableKeeps(s: State, step: Step)
    requires Inv(s) && Can(s, step) && IsDisable(s, step)
    ensures Inv(Do(s, step))
  {
    DisableRephases(s, step);
    RephasedKeeps(s, Do(s, step));
  }

  // disable() tells the client.

  /** When the last listen endpoint is gone, the client the server has was told that it is available. */
  lemma QuietSlotIsAnnounced(s: State)
    requires Inv(s) && s.phase.Stopping? && s.stopTokens == 0 && s.slot.Some?
    ensures var k := s.slot.value; s.conns[k].announced && !s.conns[k].told && Up(s.clients[s.conns[k].client].log)
    ensures Listeners(s.calls) == {}
  {
    assert Listeners(s.calls) == {};
    forall t | t in s.calls ensures Indicated(s.calls[t]).None? {
      assert t !in Listeners(s.calls);
    }
  }

  /** The client that is told, its token and the phase change. */
  ghost predicate Informed(s: State, s': State, c: ClientId, k: Conn) {
    && c in s.clients && k in s.conns && s.conns[k].client == c
    && s' == s.(clients := s'.clients, conns := s'.conns, phase := s'.phase)
    && s'.clients.Keys == s.clients.Keys && s'.conns.Keys == s.conns.Keys
    && (forall d :: d in s.clients && d != c ==> s'.clients[d] == s.clients[d])
    && (forall j :: j in s.conns && j != k ==> s'.conns[j] == s.conns[j])
    && s'.clients[c] == s.clients[c].(tokens := s'.clients[c].tokens, log := s'.clients[c].log)
    && s'.clients[c].tokens == s.clients[c].tokens - One(Tells(s.phase, c)) + One(Tells(s'.phase, c))
    && s'.conns[k] == s.conns[k].(told := s'.conns[k].told)
    && (forall d :: d != c ==> !Tells(s.phase, d) && !Tells(s'.phase, d))
    && !ServerOwns(s.phase) && !s.phase.TellWait? && !ServerOwns(s'.phase) && !s'.phase.Stopping? && !s'.phase.TellWait?
  }

  lemma ToldConns(s: State, s': State, c: ClientId, k: Conn)
    requires ConnsOk(s) && Informed(s, s', c, k)
    ensures ConnsOk(s')
  {
    forall j | j in s'.conns ensures ConnOk(s', j) {
      assert ConnOk(s, j);
      assert ServerIs(s', j) == ServerIs(s, j);
    }
  }

  lemma ToldActivities(s: State, s': State, c: ClientId, k: Conn)
    requires ActivitiesOk(s) && Informed(s, s', c, k) && Listeners(s.calls) == {}
    ensures ActivitiesOk(s')
  {
    forall t | t in s'.calls ensures ActivityOk(s', s'.calls[t]) {
      assert ActivityOk(s, s.calls[t]) && t !in Listeners(s.calls);
    }
  }

  lemma ToldClients(s: State, s': State, c: ClientId, k: Conn)
    requires ClientsOk(s) && Informed(s, s', c, k) && Alternates(s'.clients[c].log, Available)
    requires Up(s'.clients[c].log) && s'.clients[c].life.Alive? ==>
               s'.clients[c].server.Some? || (s'.phase.Told? && s'.phase.client == c)
    requires s'.clients[c].life.Freed? ==> s'.clients[c].tokens == 0
    ensures ClientsOk(s')
  {
    forall d | d in s'.clients ensures ClientOk(s', d) {
      assert ClientOk(s, d);
      assert SlotIsOf(s', d) == SlotIsOf(s, d);
      assert d != c ==> !Tells(s.phase, d);
    }
  }

  lemma ToldSlot(s: State, s': State, c: ClientId, k: Conn)
    requires SlotOk(s) && Informed(s, s', c, k) && Unique(s) && MarksOk(s)
    requires s'.clients[c].log == s.clients[c].log || (s'.conns[k].told && (s.slot.Some? ==> s.slot == Some(k)))
    requires s.conns[k].told ==> s'.conns[k].told
    ensures SlotOk(s') && Unique(s') && MarksOk(s')
  {
  }

  lemma NotifyTells(s: State)
    requires Can(s, DisableNotify) && s.slot.Some?
    ensures var k := s.slot.value; Informed(s, Do(s, DisableNotify), s.conns[k].client, k)
  {
  }

  lemma NotifyPhase(s: State)
    requires PhaseOk(s) && Can(s, DisableNotify) && s.slot.Some?
    requires var k := s.slot.value; s.conns[k].announced && !s.conns[k].told && Up(s.clients[s.conns[k].client].log)
    ensures PhaseOk(Do(s, DisableNotify))
  {
  }

  lemma NotifyKeeps(s: State)
    requires Inv(s) && Can(s, DisableNotify) && s.slot.Some?
    ensures Inv(Do(s, DisableNotify))
  {
    var s' := Do(s, DisableNotify);
    var k := s.slot.value;
    var c := s.conns[k].client;
    QuietSlotIsAnnounced(s);
    NotifyTells(s);
    NotifyPhase(s);
    TokensMeanNotFreed(s, c);
    assert ClientOk(s, c);
    ToldConns(s, s', c, k);
    ToldActivities(s, s', c, k);
    ToldClients(s, s', c, k);
    ToldSlot(s, s', c, k);
  }

  lemma ResetUnserves(s: State, t: Tid)
    requires PhaseOk(s) && Can(s, TellReset(t)) && s.clients[s.phase.client].server.Some?
    requires s.clients[s.phase.client].server == s.slot
    ensures Unserved(s, Do(s, TellReset(t)), s.phase.client, t, s.slot.value, ThenTell(s.phase.client))
  {
  }

  lemma ResetTells(s: State, t: Tid)
    requires PhaseOk(s) && Can(s, TellReset(t)) && s.clients[s.phase.client].server.None?
    ensures Informed(s, Do(s, TellReset(t)), s.phase.client, s.phase.conn)
    ensures PhaseOk(Do(s, TellReset(t)))
  {
  }

  lemma NoListeners(s: State)
    requires PhaseOk(s) && !ServerOwns(s.phase) && !s.phase.Stopping?
    ensures Listeners(s.calls) == {}
  {
  }

  lemma TellResetKeeps(s: State, t: Tid)
    requires Inv(s) && Can(s, TellReset(t))
    ensures Inv(Do(s, TellReset(t)))
  {
    var s' := Do(s, TellReset(t));
    var c, k := s.phase.client, s.phase.conn;
    assert ClientOk(s, c);
    if s.clients[c].server.Some? {
      ResetUnserves(s, t);
      UnservedKeeps(s, s', c, t, s.slot.value, ThenTell(c));
    } else {
      ResetTells(s, t);
      NoListeners(s);
      ToldConns(s, s', c, k);
      ToldActivities(s, s', c, k);
      ToldClients(s, s', c, k);
      ToldSlot(s, s', c, k);
    }
  }

  lemma CallbackTells(s: State)
    requires PhaseOk(s) && Can(s, TellCallback)
    ensures Informed(s, Do(s, TellCallback), s.phase.client, s.phase.conn)
    ensures PhaseOk(Do(s, TellCallback))
  {
  }

  lemma CallbackKeeps(s: State)
    requires Inv(s) && Can(s, TellCallback)
    ensures Inv(Do(s, TellCallback))
  {
    var s' := Do(s, TellCallback);
    var c, k := s.phase.client, s.phase.conn;
    assert ClientOk(s, c);
    CallbackTells(s);
    NoListeners(s);
    ToldConns(s, s', c, k);
    ToldActivities(s, s', c, k);
    ToldClients(s, s', c, k);
    ToldSlot(s, s', c, k);
  }

  lemma DoneTells(s: State)
    requires PhaseOk(s) && Can(s, TellDone)
    ensures Informed(s, Do(s, TellDone), s.phase.client, s.phase.conn)
    ensures PhaseOk(Do(s, TellDone))
  {
  }

  lemma DoneKeeps(s: State)
    requires Inv(s) && Can(s, TellDone)
    ensures Inv(Do(s, TellDone))
  {
    var s' := Do(s, TellDone);
    var c, k := s.phase.client, s.phase.conn;
    assert ClientOk(s, c);
    DoneTells(s);
    NoListeners(s);
    ToldConns(s, s', c, k);
    ToldActivities(s, s', c, k);
    ToldClients(s, s', c, k);
    ToldSlot(s, s', c, k);
  }
}
