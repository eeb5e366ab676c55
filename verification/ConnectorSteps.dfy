/** Each step of the connectors keeps the invariant. */
module ConnectorSteps {
  import opened Prelude
  import opened Connectors
  import opened ConnectorSafety

  // Steps in which a thread moves on by itself.

  lemma LockMoves(s: State, t: Tid)
    requires Can(s, LockWeak(t))
    ensures var c := s.calls[t].client;
            Moved(s, Do(s, LockWeak(t)), t, if s.clients[c].tokens > 0 then Some(Connecting(c)) else None)
  {
  }

  lemma LockKeeps(s: State, t: Tid)
    requires Inv(s) && Can(s, LockWeak(t))
    ensures Inv(Do(s, LockWeak(t)))
  {
    var s' := Do(s, LockWeak(t));
    var c := s.calls[t].client;
    var a := if s.clients[c].tokens > 0 then Some(Connecting(c)) else None;
    LockMoves(s, t);
    assert ActivityOk(s, s.calls[t]);
    HolderCounts(s, t);
    if a.Some? { TokensMeanNotFreed(s, c); }
    MoveKeeps(s, s', t, a);
  }

  lemma LeaveMoves(s: State, t: Tid)
    requires Can(s, LeaveIndication(t))
    ensures Moved(s, Do(s, LeaveIndication(t)), t, None)
  {
    LeftMoves(s, t, s.calls[t].client);
  }

  lemma LeftMoves(s: State, t: Tid, c: ClientId)
    requires t in s.calls && s.calls[t] == Left(c) && ClientThere(s, c) && s.stopTokens > 0
    ensures Moved(s, IndicationEnded(AddClient(s, c, -1), t, c), t, None)
  {
  }

  lemma LeaveKeeps(s: State, t: Tid)
    requires Inv(s) && Can(s, LeaveIndication(t))
    ensures Inv(Do(s, LeaveIndication(t)))
  {
    LeaveMoves(s, t);
    assert ActivityOk(s, s.calls[t]);
    MoveKeeps(s, Do(s, LeaveIndication(t)), t, None);
  }

  lemma RefusedConnectMoves(s: State, t: Tid)
    requires Can(s, ReceiveConnect(t))
    ensures Moved(s, Put(s, t, Left(s.calls[t].client)), t, Some(Left(s.calls[t].client)))
  {
  }

  /** A connect that the server refuses because it is being disabled. */
  lemma RefusedConnectKeeps(s: State, t: Tid)
    requires Inv(s) && Can(s, ReceiveConnect(t)) && !ServerOwns(s.phase)
    ensures Inv(Do(s, ReceiveConnect(t)))
  {
    var c := s.calls[t].client;
    var s' := Put(s, t, Left(c));
    RefusedConnectMoves(s, t);
    assert ActivityOk(s, s.calls[t]);
    HolderCounts(s, t);
    TokensMeanNotFreed(s, c);
    MoveKeeps(s, s', t, Some(Left(c)));
  }

  lemma RefusedServerMoves(s: State, t: Tid)
    requires t in s.calls && s.calls[t].Connected?
    ensures var a := Leaving(s.calls[t].client, s.calls[t].conn); Moved(s, Put(s, t, a), t, Some(a))
  {
  }

  /** A connection whose client is already being destroyed. */
  lemma RefusedServerKeeps(s: State, t: Tid)
    requires Inv(s) && Can(s, SetServer(t)) && !s.clients[s.calls[t].client].life.Alive?
    ensures Inv(Do(s, SetServer(t)))
  {
    var c, k := s.calls[t].client, s.calls[t].conn;
    var s' := Put(s, t, Leaving(c, k));
    RefusedServerMoves(s, t);
    assert ActivityOk(s, s.calls[t]);
    HolderCounts(s, t);
    TokensMeanNotFreed(s, c);
    MoveKeeps(s, s', t, Some(Leaving(c, k)));
  }

  function AfterDrop(s: State, t: Tid, k: Conn, next: Next, a: Option<Activity>): Option<Activity>
    requires k in s.conns
  {
    if s.conns[k].tokens == 1 then Some(Removing(k, false, next)) else a
  }

  /** A thread that goes on as `a` without the connection it held. */
  lemma LetGo(s: State, t: Tid, k: Conn, a: Option<Activity>)
    requires t in s.calls && HeldConn(s.calls[t]) == Some(k) && ConnThere(s, k)
    requires a.Some? ==> HeldConn(a.value).None?
    requires HeldClient(s.calls[t]) == (if a.Some? then HeldClient(a.value) else None)
    requires Listens(s.calls[t]) == ListensIn(a)
    ensures Moved(s, AddConn(s, k, -1).(calls := Update(s.calls, t, a)), t, a)
  {
  }

  /** Dropping one connection token is a move of the thread that held it. */
  lemma DropConnMoves(s: State, t: Tid, k: Conn, next: Next, a: Option<Activity>)
    requires t in s.calls && HeldConn(s.calls[t]) == Some(k) && ConnThere(s, k)
    requires a.Some? ==> HeldConn(a.value).None?
    requires HeldClient(s.calls[t]) == (if a.Some? then HeldClient(a.value) else None)
    requires Listens(s.calls[t]) == ListensIn(a) == Listens(Removing(k, false, next))
    requires HeldClient(Removing(k, false, next)) == HeldClient(s.calls[t])
    ensures Moved(s, DropConn(s, t, k, next, a), t, AfterDrop(s, t, k, next, a))
  {
    LetGo(s, t, k, AfterDrop(s, t, k, next, a));
  }

  lemma DropKeeps(s: State, t: Tid)
    requires Inv(s) && Can(s, DropReturn(t))
    ensures Inv(Do(s, DropReturn(t)))
  {
    var c, k := s.calls[t].client, s.calls[t].conn;
    var s' := Do(s, DropReturn(t));
    var a := AfterDrop(s, t, k, ThenLeave(c), Some(Left(c)));
    DropConnMoves(s, t, k, ThenLeave(c), Some(Left(c)));
    assert ActivityOk(s, s.calls[t]);
    HolderCounts(s, t);
    TokensMeanNotFreed(s, c);
    HolderUndisturbed(s, t, k);
    HeldIsNotRemoved(s);
    MoveKeeps(s, s', t, a);
  }

  lemma StartCallMoves(s: State, c: ClientId, t: Tid)
    requires Can(s, StartCall(c, t))
    ensures Moved(s, Do(s, StartCall(c, t)), t, Some(Calling(s.clients[c].server.value)))
  {
  }

  lemma StartCallKeeps(s: State, c: ClientId, t: Tid)
    requires Inv(s) && Can(s, StartCall(c, t))
    ensures Inv(Do(s, StartCall(c, t)))
  {
    var k := s.clients[c].server.value;
    StartCallMoves(s, c, t);
    assert ClientOk(s, c);
    ServerUndisturbed(s, k);
    MoveKeeps(s, Do(s, StartCall(c, t)), t, Some(Calling(k)));
  }

  predicate Calls(s: State, t: Tid) {
    t in s.calls && s.calls[t].Calling? && ConnThere(s, s.calls[t].conn)
  }

  lemma EndedCallOk(s: State, t: Tid, s': State, a: Option<Activity>)
    requires Inv(s) && Calls(s, t) && a == AfterDrop(s, t, s.calls[t].conn, ThenReturn, None) && Moved(s, s', t, a)
    ensures Undisturbed(s, t, a) && SlotKept(s, s', a) && Alone(s, t, a) && s.slot == Some(s.calls[t].conn)
  {
    assert ActivityOk(s, s.calls[t]);
    HolderUndisturbed(s, t, s.calls[t].conn);
    HeldIsNotRemoved(s);
  }

  lemma EndedCallKeeps(s: State, t: Tid)
    requires Inv(s) && Calls(s, t)
    ensures Inv(DropConn(s, t, s.calls[t].conn, ThenReturn, None))
  {
    var k := s.calls[t].conn;
    var s', a := DropConn(s, t, k, ThenReturn, None), AfterDrop(s, t, k, ThenReturn, None);
    DropConnMoves(s, t, k, ThenReturn, None);
    EndedCallOk(s, t, s', a);
    MoveKeeps(s, s', t, a);
  }

  lemma EndCallKeeps(s: State, t: Tid)
    requires Inv(s) && Can(s, EndCall(t))
    ensures Inv(Do(s, EndCall(t)))
  {
    EndedCallKeeps(s, t);
  }

  lemma StartSendMoves(s: State, t: Tid)
    requires Can(s, StartSend(t))
    ensures Moved(s, Do(s, StartSend(t)), t, Some(Sending(s.conns[s.slot.value].client)))
  {
  }

  lemma StartSendKeeps(s: State, t: Tid)
    requires Inv(s) && Can(s, StartSend(t))
    ensures Inv(Do(s, StartSend(t)))
  {
    var c := s.conns[s.slot.value].client;
    StartSendMoves(s, t);
    TokensMeanNotFreed(s, c);
    MoveKeeps(s, Do(s, StartSend(t)), t, Some(Sending(c)));
  }

  lemma EndSendMoves(s: State, t: Tid)
    requires Can(s, EndSend(t))
    ensures Moved(s, Do(s, EndSend(t)), t, None)
  {
  }

  lemma EndSendKeeps(s: State, t: Tid)
    requires Inv(s) && Can(s, EndSend(t))
    ensures Inv(Do(s, EndSend(t)))
  {
    EndSendMoves(s, t);
    MoveKeeps(s, Do(s, EndSend(t)), t, None);
  }

  // Steps that change marks only, or the phase and its tokens only.

  lemma MarksKeep(s: State, s': State)
    requires Inv(s) && s' == s.(marks := s'.marks) && MarksOk(s')
    requires forall t :: t in s.calls && s.calls[t].Removing? && s.calls[t].cleared ==> s'.marks == map[]
    ensures Inv(s')
  {
    forall c | c in s'.clients ensures ClientOk(s', c) { assert ClientOk(s, c); }
    forall k | k in s'.conns ensures ConnOk(s', k) { assert ConnOk(s, k); }
    forall t | t in s'.calls ensures ActivityOk(s', s'.calls[t]) { assert ActivityOk(s, s.calls[t]); }
  }

  lemma StoreMarkKeeps(s: State, t: Tid, mark: Mark)
    requires Inv(s) && Can(s, StoreMark(t, mark))
    ensures Inv(Do(s, StoreMark(t, mark)))
  {
    assert ActivityOk(s, s.calls[t]);
    HolderCounts(s, t);
    HeldIsNotRemoved(s);
    MarksKeep(s, Do(s, StoreMark(t, mark)));
  }

  lemma ClearMarkKeeps(s: State, t: Tid, mark: Mark)
    requires Inv(s) && Can(s, ClearMark(t, mark))
    ensures Inv(Do(s, ClearMark(t, mark)))
  {
    var s' := Do(s, ClearMark(t, mark));
    forall u | u in s.calls && s.calls[u].Removing? && s.calls[u].cleared ensures s'.marks == map[] {
      assert ActivityOk(s, s.calls[u]);
      assert s'.marks == map[];
    }
    MarksKeep(s, s');
  }

  lemma ClearedMoves(s: State, t: Tid)
    requires t in s.calls && s.calls[t].Removing?
    ensures Moved(s, Put(s, t, s.calls[t].(cleared := true)), t, Some(s.calls[t].(cleared := true)))
  {
  }

  lemma ClearedKeeps(s: State, t: Tid)
    requires Inv(s) && t in s.calls && s.calls[t].Removing? && s.marks == map[]
    ensures Inv(Put(s, t, s.calls[t].(cleared := true)))
  {
    var a := s.calls[t].(cleared := true);
    assert ActivityOk(s, s.calls[t]);
    ClearedMoves(s, t);
    HolderCounts(s, t);
    if HeldClient(a).Some? { TokensMeanNotFreed(s, HeldClient(a).value); }
    MoveKeeps(s, Put(s, t, a), t, Some(a));
  }

  lemma ClearEventsKeeps(s: State, t: Tid)
    requires Inv(s) && Can(s, ClearEvents(t))
    ensures Inv(Do(s, ClearEvents(t)))
  {
    var s0 := s.(marks := map[]);
    MarksKeep(s, s0);
    ClearedKeeps(s0, t);
    assert Do(s, ClearEvents(t)) == Put(s0, t, s.calls[t].(cleared := true));
  }
}
