/** The steps that create, connect, announce, remove and destroy keep the invariant. */
module ConnectorLives {
  import opened Prelude
  import opened Connectors
  import opened ConnectorSafety

  // Creating a client and enabling the server.

  lemma UnknownClientIsUnheld(s: State, c: ClientId)
    requires ActivitiesOk(s) && c !in s.clients
    ensures ClientThreads(s.calls, c) == {}
    ensures forall t :: t in s.calls ==> Indicated(s.calls[t]) != Some(c)
  {
    forall t | t in s.calls ensures HeldClient(s.calls[t]) != Some(c) && Indicated(s.calls[t]) != Some(c) {
      assert ActivityOk(s, s.calls[t]);
    }
  }

  lemma NewClientClients(s: State, c: ClientId, t: Tid)
    requires Inv(s) && Can(s, CreateClient(c, t, false))
    ensures ClientsOk(Created(s, c, t, false))
  {
    var s' := Created(s, c, t, false);
    UnknownClientIsUnheld(s, c);
    forall d | d in s'.clients ensures ClientOk(s', d) {
      assert SlotIsOf(s', d) == SlotIsOf(s, d);
      if d != c { assert ClientOk(s, d); }
    }
  }

  lemma NewClientConns(s: State, c: ClientId, t: Tid)
    requires Inv(s) && Can(s, CreateClient(c, t, false))
    ensures ConnsOk(Created(s, c, t, false))
  {
    var s' := Created(s, c, t, false);
    forall k | k in s'.conns ensures ConnOk(s', k) {
      assert ConnOk(s, k);
      assert ServerIs(s', k) == ServerIs(s, k);
    }
  }

  lemma NewClientActivities(s: State, c: ClientId, t: Tid)
    requires ActivitiesOk(s) && Can(s, CreateClient(c, t, false))
    ensures ActivitiesOk(Created(s, c, t, false))
  {
    var s' := Created(s, c, t, false);
    forall u | u in s'.calls ensures ActivityOk(s', s'.calls[u]) {
      assert ActivityOk(s, s.calls[u]);
    }
  }

  lemma NewClientPhase(s: State, c: ClientId, t: Tid)
    requires PhaseOk(s) && SlotOk(s) && Can(s, CreateClient(c, t, false))
    ensures PhaseOk(Created(s, c, t, false)) && SlotOk(Created(s, c, t, false))
  {
    var s' := Created(s, c, t, false);
    if s.slot.Some? { assert ServerIs(s', s.slot.value) == ServerIs(s, s.slot.value); }
  }

  /** Thread `t` starts to indicate the server to client `c`, within some call. */
  predicate Indicates(s: State, s': State, c: ClientId, t: Tid) {
    && t !in s.calls
    && s' == Put(s, t, Indicating(c)).(stopTokens := s.stopTokens + 1, creating := s'.creating, enabling := s'.enabling)
  }

  lemma IndicateMoves(s: State, s': State, c: ClientId, t: Tid)
    requires Indicates(s, s', c, t)
    ensures Moved(s, s', t, Some(Indicating(c)))
  {
  }

  lemma IndicateKeeps(s: State, s': State, c: ClientId, t: Tid)
    requires Inv(s) && Indicates(s, s', c, t) && c in s.clients && !SlotIsOf(s, c) && ServerOwns(s.phase)
    requires forall u :: u in s.calls ==> Indicated(s.calls[u]) != Some(c)
    ensures Inv(s')
  {
    IndicateMoves(s, s', c, t);
    MoveKeeps(s, s', t, Some(Indicating(c)));
  }

  lemma CreatedIndicates(s: State, c: ClientId, t: Tid)
    requires Can(s, CreateClient(c, t, true)) && s.phase.On?
    ensures Indicates(Created(s, c, t, false), Do(s, CreateClient(c, t, true)), c, t)
  {
  }

  lemma CreateKeeps(s: State, c: ClientId, t: Tid, compatible: bool)
    requires Inv(s) && Can(s, CreateClient(c, t, compatible))
    ensures Inv(Do(s, CreateClient(c, t, compatible)))
  {
    var r := Created(s, c, t, false);
    NewClientClients(s, c, t);
    NewClientConns(s, c, t);
    NewClientActivities(s, c, t);
    NewClientPhase(s, c, t);
    assert Inv(r);
    if s.phase.On? && compatible {
      UnknownClientIsUnheld(s, c);
      CreatedIndicates(s, c, t);
      IndicateKeeps(r, Do(s, CreateClient(c, t, true)), c, t);
    }
  }

  lemma NoMarks(s: State)
    requires MarksOk(s) && s.slot.None?
    ensures s.marks == map[]
  {
    if m :| m in s.marks { assert false; }
  }

  lemma EmptyWhenOff(s: State)
    requires Inv(s) && s.phase.Off?
    ensures s.slot.None? && s.marks == map[]
    ensures forall t :: t in s.calls ==> s.calls[t].Sending?
  {
    forall t | t in s.calls ensures s.calls[t].Sending? {
      assert ActivityOk(s, s.calls[t]);
      HolderCounts(s, t);
    }
    NoMarks(s);
  }

  lemma EnabledKeeps(s: State, t: Tid)
    requires Inv(s) && Can(s, EnableServer(t, false))
    ensures Inv(Enabled(s, t, false))
  {
    var s' := Enabled(s, t, false);
    EmptyWhenOff(s);
    assert Listeners(s'.calls) == {};
    forall d | d in s'.clients ensures ClientOk(s', d) { assert ClientOk(s, d); }
    forall k | k in s'.conns ensures ConnOk(s', k) { assert ConnOk(s, k); }
    forall u | u in s'.calls ensures ActivityOk(s', s'.calls[u]) { assert ActivityOk(s, s.calls[u]); }
  }

  lemma EnabledIndicates(s: State, t: Tid)
    requires Can(s, EnableServer(t, true)) && s.record.Some?
    ensures Indicates(Enabled(s, t, false), Do(s, EnableServer(t, true)), s.record.value, t)
  {
  }

  lemma EnableKeeps(s: State, t: Tid, compatible: bool)
    requires Inv(s) && Can(s, EnableServer(t, compatible))
    ensures Inv(Do(s, EnableServer(t, compatible)))
  {
    EnabledKeeps(s, t);
    if s.record.Some? && compatible {
      EmptyWhenOff(s);
      EnabledIndicates(s, t);
      IndicateKeeps(Enabled(s, t, false), Do(s, EnableServer(t, true)), s.record.value, t);
    }
  }

  // Connecting.

  lemma AbortKeeps(s: State)
    requires Inv(s)
    ensures Inv(s.(aborted := true))
  {
    var s' := s.(aborted := true);
    forall d | d in s'.clients ensures ClientOk(s', d) { assert ClientOk(s, d); }
    forall k | k in s'.conns ensures ConnOk(s', k) { assert ConnOk(s, k); }
    forall u | u in s'.calls ensures ActivityOk(s', s'.calls[u]) { assert ActivityOk(s, s.calls[u]); }
  }

  /** The server takes the client. */
  predicate Accepts(s: State, t: Tid) {
    Can(s, ReceiveConnect(t)) && ServerOwns(s.phase) && s.slot.None?
  }

  lemma NoSlot(s: State)
    requires Inv(s) && s.slot.None?
    ensures s.marks == map[]
    ensures forall c :: c in s.clients ==> s.clients[c].server.None?
    ensures forall t :: t in s.calls ==> HeldConn(s.calls[t]).None? && !s.calls[t].Removing?
    ensures s.next !in s.conns
  {
    forall c | c in s.clients ensures s.clients[c].server.None? { assert ClientOk(s, c); }
    forall t | t in s.calls ensures HeldConn(s.calls[t]).None? && !s.calls[t].Removing? {
      assert ActivityOk(s, s.calls[t]);
    }
    assert s.next in s.conns ==> ConnOk(s, s.next);
    NoMarks(s);
  }

  lemma AcceptedClients(s: State, t: Tid)
    requires Inv(s) && Accepts(s, t)
    ensures ClientsOk(Do(s, ReceiveConnect(t)))
  {
    var s' := Do(s, ReceiveConnect(t));
    var c := s.calls[t].client;
    NoSlot(s);
    forall d | d in s'.clients ensures ClientOk(s', d) {
      assert ClientOk(s, d);
      ClientThreadCount(s.calls, t, Some(Connected(c, s.next)), d);
      assert !SlotIsOf(s, d) && (SlotIsOf(s', d) <==> d == c);
    }
  }

  lemma AcceptedConns(s: State, t: Tid)
    requires Inv(s) && Accepts(s, t)
    ensures ConnsOk(Do(s, ReceiveConnect(t)))
  {
    var s' := Do(s, ReceiveConnect(t));
    var c := s.calls[t].client;
    NoSlot(s);
    assert ConnThreads(s.calls, s.next) == {};
    forall k | k in s'.conns ensures ConnOk(s', k) {
      if k != s.next { assert ConnOk(s, k); }
      ConnThreadCount(s.calls, t, Some(Connected(c, s.next)), k);
      assert !ServerIs(s', k);
    }
  }

  lemma AcceptedActivities(s: State, t: Tid)
    requires Inv(s) && Accepts(s, t)
    ensures ActivitiesOk(Do(s, ReceiveConnect(t)))
  {
    var s' := Do(s, ReceiveConnect(t));
    var c := s.calls[t].client;
    NoSlot(s);
    forall u | u in s'.calls ensures ActivityOk(s', s'.calls[u]) {
      assert ActivityOk(s, s.calls[u]);
      if u != t {
        assert Indicated(s.calls[u]) != Some(c);
        assert s'.calls[u] == s.calls[u];
      }
    }
  }

  lemma AcceptedRest(s: State, t: Tid)
    requires Inv(s) && Accepts(s, t)
    ensures var s' := Do(s, ReceiveConnect(t)); SlotOk(s') && PhaseOk(s') && Unique(s') && MarksOk(s')
  {
    var s' := Do(s, ReceiveConnect(t));
    var c := s.calls[t].client;
    NoSlot(s);
    ListenerCount(s.calls, t, Some(Connected(c, s.next)));
    assert t in s'.calls && Indicated(s'.calls[t]) == Some(c);
  }

  lemma AcceptKeeps(s: State, t: Tid)
    requires Inv(s) && Accepts(s, t)
    ensures Inv(Do(s, ReceiveConnect(t)))
  {
    AcceptedClients(s, t);
    AcceptedConns(s, t);
    AcceptedActivities(s, t);
    AcceptedRest(s, t);
  }

  // A living client takes the server endpoint and hears that the service is available.

  predicate Sets(s: State, t: Tid) {
    Can(s, SetServer(t)) && s.clients[s.calls[t].client].life.Alive?
  }

  lemma SetClients(s: State, t: Tid)
    requires Inv(s) && Sets(s, t)
    ensures ClientsOk(Do(s, SetServer(t)))
  {
    var s' := Do(s, SetServer(t));
    var c, k := s.calls[t].client, s.calls[t].conn;
    assert ActivityOk(s, s.calls[t]);
    forall d | d in s'.clients ensures ClientOk(s', d) {
      assert ClientOk(s, d);
      ClientThreadCount(s.calls, t, Some(Announcing(c, k)), d);
      assert SlotIsOf(s', d) == SlotIsOf(s, d);
    }
  }

  lemma SetConns(s: State, t: Tid)
    requires Inv(s) && Sets(s, t)
    ensures ConnsOk(Do(s, SetServer(t)))
  {
    var s' := Do(s, SetServer(t));
    var c, k := s.calls[t].client, s.calls[t].conn;
    assert ActivityOk(s, s.calls[t]);
    forall j | j in s'.conns ensures ConnOk(s', j) {
      assert ConnOk(s, j);
      ConnThreadCount(s.calls, t, Some(Announcing(c, k)), j);
      assert ServerIs(s', j) == (ServerIs(s, j) || j == k) && !ServerIs(s, k);
    }
  }

  lemma SetActivities(s: State, t: Tid)
    requires Inv(s) && Sets(s, t)
    ensures ActivitiesOk(Do(s, SetServer(t)))
  {
    var s' := Do(s, SetServer(t));
    var c, k := s.calls[t].client, s.calls[t].conn;
    assert ActivityOk(s, s.calls[t]);
    assert ClientOk(s, c);
    HolderCounts(s, t);
    HolderUndisturbed(s, t, k);
    forall u | u in s'.calls ensures ActivityOk(s', s'.calls[u]) {
      if u != t {
        assert ActivityOk(s, s.calls[u]) && s'.calls[u] == s.calls[u];
        assert Indicated(s.calls[u]) != Some(c) && !Sensitive(s, s.calls[u], k);
      }
    }
  }

  lemma SetRest(s: State, t: Tid)
    requires Inv(s) && Sets(s, t)
    ensures var s' := Do(s, SetServer(t)); SlotOk(s') && PhaseOk(s') && Unique(s') && MarksOk(s')
  {
    var s' := Do(s, SetServer(t));
    var c, k := s.calls[t].client, s.calls[t].conn;
    assert ActivityOk(s, s.calls[t]);
    HolderCounts(s, t);
    ListenerCount(s.calls, t, Some(Announcing(c, k)));
    assert t in s'.calls && Indicated(s'.calls[t]) == Some(c);
  }

  lemma SetKeeps(s: State, t: Tid)
    requires Inv(s) && Sets(s, t)
    ensures Inv(Do(s, SetServer(t)))
  {
    SetClients(s, t);
    SetConns(s, t);
    SetActivities(s, t);
    SetRest(s, t);
  }

  lemma AnnounceClients(s: State, t: Tid)
    requires Inv(s) && Can(s, Announce(t))
    ensures ClientsOk(Do(s, Announce(t)))
  {
    var s' := Do(s, Announce(t));
    var c, k := s.calls[t].client, s.calls[t].conn;
    assert ActivityOk(s, s.calls[t]);
    forall d | d in s'.clients ensures ClientOk(s', d) {
      assert ClientOk(s, d);
      ClientThreadCount(s.calls, t, Some(Leaving(c, k)), d);
      assert SlotIsOf(s', d) == SlotIsOf(s, d);
    }
  }

  lemma AnnounceConns(s: State, t: Tid)
    requires Inv(s) && Can(s, Announce(t))
    ensures ConnsOk(Do(s, Announce(t)))
  {
    var s' := Do(s, Announce(t));
    var c, k := s.calls[t].client, s.calls[t].conn;
    forall j | j in s'.conns ensures ConnOk(s', j) {
      assert ConnOk(s, j);
      ConnThreadCount(s.calls, t, Some(Leaving(c, k)), j);
      assert ServerIs(s', j) == ServerIs(s, j);
    }
  }

  lemma AnnounceActivities(s: State, t: Tid)
    requires Inv(s) && Can(s, Announce(t))
    ensures ActivitiesOk(Do(s, Announce(t)))
  {
    var s' := Do(s, Announce(t));
    var c, k := s.calls[t].client, s.calls[t].conn;
    assert ActivityOk(s, s.calls[t]);
    HolderCounts(s, t);
    forall u | u in s'.calls ensures ActivityOk(s', s'.calls[u]) {
      if u != t {
        assert ActivityOk(s, s.calls[u]) && s'.calls[u] == s.calls[u];
        assert Indicated(s.calls[u]) != Some(c);
      }
    }
  }

  lemma AnnounceSlot(s: State, t: Tid)
    requires SlotOk(s) && Unique(s) && MarksOk(s) && Can(s, Announce(t)) && ActivityOk(s, s.calls[t])
    ensures var s' := Do(s, Announce(t)); SlotOk(s') && Unique(s') && MarksOk(s')
  {
  }

  lemma AnnouncePhase(s: State, t: Tid)
    requires PhaseOk(s) && Can(s, Announce(t)) && (ServerOwns(s.phase) || s.phase.Stopping?)
    ensures PhaseOk(Do(s, Announce(t)))
  {
    ListenerCount(s.calls, t, Some(Leaving(s.calls[t].client, s.calls[t].conn)));
  }

  lemma AnnounceKeeps(s: State, t: Tid)
    requires Inv(s) && Can(s, Announce(t))
    ensures Inv(Do(s, Announce(t)))
  {
    AnnounceClients(s, t);
    AnnounceConns(s, t);
    AnnounceActivities(s, t);
    assert ActivityOk(s, s.calls[t]);
    HolderCounts(s, t);
    AnnounceSlot(s, t);
    AnnouncePhase(s, t);
  }
}
