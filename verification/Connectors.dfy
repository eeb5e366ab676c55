/** One server connector, the client connectors of its service record, and the reference tokens by which
    they keep each other alive (client_connector_impl.cpp, server_connector_impl.cpp, endpoint.hpp).
    Each step is one critical section or one callback of one thread. */
module Connectors {
  import opened Prelude

  type ClientId = nat

  type Conn = nat

  type Tid = nat

  type Event = nat

  /** Service state callbacks of a client connector. */
  datatype Note = Available | NotAvailable

  /** Alive until the destructor drops its token; Reset once it has dropped its server endpoint too; Gone
      once it has left the record and waits for the last token; Freed after the wait. */
  datatype Life = Alive | Resetting | Reset | Gone | Freed

  datatype Client = Client(life: Life, server: Option<Conn>, log: seq<Note>, tokens: nat)

  /** A connection: a Client_connection in the server and the token shared by the endpoints to it. The
      last two fields are history. */
  datatype Connection = Connection(client: ClientId, tokens: nat, announced: bool, told: bool)

  /** What the thread that dropped the last token of a connection does after remove_client. */
  datatype Next = ThenLeave(client: ClientId) | ThenReturn | ThenDestroy(client: ClientId) | ThenTell(client: ClientId)

  /** What a thread is in the middle of. */
  datatype Activity =
    | Indicating(client: ClientId)
    | Connecting(client: ClientId)
    | Connected(client: ClientId, conn: Conn)
    | Announcing(client: ClientId, conn: Conn)
    | Leaving(client: ClientId, conn: Conn)
    | Left(client: ClientId)
    | Calling(conn: Conn)
    | Sending(client: ClientId)
    | Removing(conn: Conn, cleared: bool, next: Next)

  /** Where the server connector is between enable() and the end of disable(). */
  datatype Phase =
    | Off
    | On
    | Unregistered
    | Stopping
    | Telling(client: ClientId, conn: Conn)
    | TellWait(client: ClientId, conn: Conn)
    | Told(client: ClientId, conn: Conn)
    | Notified(client: ClientId, conn: Conn)
    | Draining

  datatype Mark = Subscriber(event: Event) | Requester(event: Event)

  /** `slot` is the server's m_client, `marks` the client pointers stored per event, `record` the client in
      the service record. `creating` are the clients whose make_client_connector is still running, `enabling`
      the client that a running enable() indicates the server to. */
  datatype State = State(
    clients: map<ClientId, Client>,
    conns: map<Conn, Connection>,
    next: Conn,
    calls: map<Tid, Activity>,
    record: Option<ClientId>,
    phase: Phase,
    slot: Option<Conn>,
    marks: map<Mark, Conn>,
    stopTokens: nat,
    allTokens: nat,
    creating: set<ClientId>,
    enabling: Option<ClientId>,
    aborted: bool)

  const INIT := State(map[], map[], 0, map[], None, Off, None, map[], 0, 0, {}, None, false)

  // Which thread holds which token.

  /** The client connector whose token the thread holds. */
  function HeldClient(a: Activity): Option<ClientId> {
    match a
    case Connecting(c) => Some(c)
    case Connected(c, _) => Some(c)
    case Announcing(c, _) => Some(c)
    case Leaving(c, _) => Some(c)
    case Left(c) => Some(c)
    case Sending(c) => Some(c)
    case Removing(_, _, ThenLeave(c)) => Some(c)
    case _ => None
  }

  /** The connection whose token the thread holds. */
  function HeldConn(a: Activity): Option<Conn> {
    match a
    case Connected(_, k) => Some(k)
    case Announcing(_, k) => Some(k)
    case Leaving(_, k) => Some(k)
    case Calling(k) => Some(k)
    case _ => None
  }

  /** The client whose server-update callback the thread runs: its caller holds a listen endpoint. */
  function Indicated(a: Activity): Option<ClientId> {
    if a.Indicating? then Some(a.client) else if a.Sending? then None else HeldClient(a)
  }

  predicate Listens(a: Activity) {
    Indicated(a).Some?
  }

  function ClientThreads(calls: map<Tid, Activity>, c: ClientId): set<Tid> {
    set t | t in calls && HeldClient(calls[t]) == Some(c)
  }

  function ConnThreads(calls: map<Tid, Activity>, k: Conn): set<Tid> {
    set t | t in calls && HeldConn(calls[t]) == Some(k)
  }

  function Listeners(calls: map<Tid, Activity>): set<Tid> {
    set t | t in calls && Listens(calls[t])
  }

  predicate ServerOwns(p: Phase) {
    p.On? || p.Unregistered?
  }

  predicate Tells(p: Phase, c: ClientId) {
    (p.Telling? || p.TellWait? || p.Told? || p.Notified?) && p.client == c
  }

  predicate SlotIsOf(s: State, c: ClientId) {
    s.slot.Some? && s.slot.value in s.conns && s.conns[s.slot.value].client == c
  }

  predicate ServerIs(s: State, k: Conn) {
    k in s.conns && s.conns[k].client in s.clients && s.clients[s.conns[k].client].server == Some(k)
  }

  /** The mutex of the client connector is held: its destructor, or the state change that tells it, drops the last
      token of its connection in the critical section, and remove_client runs in there. */
  predicate Locked(s: State, c: ClientId) {
    (c in s.clients && s.clients[c].life.Resetting?) || (s.phase.TellWait? && s.phase.client == c)
  }

  // Token arithmetic.

  function AddClient(s: State, c: ClientId, delta: int): State
    requires c in s.clients && s.clients[c].tokens + delta >= 0
  {
    s.(clients := s.clients[c := s.clients[c].(tokens := s.clients[c].tokens + delta)])
  }

  function AddConn(s: State, k: Conn, delta: int): State
    requires k in s.conns && s.conns[k].tokens + delta >= 0
  {
    s.(conns := s.conns[k := s.conns[k].(tokens := s.conns[k].tokens + delta)])
  }

  function Put(s: State, t: Tid, a: Activity): State {
    s.(calls := s.calls[t := a])
  }

  function End(s: State, t: Tid): State {
    s.(calls := s.calls - {t})
  }

  /** Dropping one connection token: the last one starts remove_client in the dropping thread, which
      otherwise goes on as `a`, or is done. */
  function DropConn(s: State, t: Tid, k: Conn, next: Next, a: Option<Activity>): State
    requires k in s.conns && s.conns[k].tokens > 0
  {
    var r := AddConn(s, k, -1);
    if r.conns[k].tokens == 0 then Put(r, t, Removing(k, false, next))
    else if a.Some? then Put(r, t, a.value)
    else End(r, t)
  }

  // The steps.

  datatype Step =
    | CreateClient(c: ClientId, t: Tid, compatible: bool)
    | EnableServer(t: Tid, compatible: bool)
    | LockWeak(t: Tid)
    | ReceiveConnect(t: Tid)
    | SetServer(t: Tid)
    | Announce(t: Tid)
    | DropReturn(t: Tid)
    | LeaveIndication(t: Tid)
    | StartCall(c: ClientId, t: Tid)
    | StoreMark(t: Tid, mark: Mark)
    | ClearMark(t: Tid, mark: Mark)
    | EndCall(t: Tid)
    | StartSend(t: Tid)
    | EndSend(t: Tid)
    | ClearEvents(t: Tid)
    | FinishRemove(t: Tid)
    | BeginDestroy(c: ClientId, t: Tid)
    | UnregisterClient(c: ClientId)
    | FreeClient(c: ClientId)
    | DisableUnregister
    | DisableReset
    | DisableNotify
    | TellReset(t: Tid)
    | TellCallback
    | TellDone
    | DisableDone

  predicate At(s: State, t: Tid) {
    t in s.calls
  }

  /** The program is at a point where it takes the step. */
  predicate Reached(s: State, step: Step) {
    !s.aborted &&
    match step
    case CreateClient(c, t, _) => c !in s.clients && !At(s, t) && s.record.None?
    case EnableServer(t, _) => s.phase.Off? && !At(s, t)
    case LockWeak(t) => At(s, t) && s.calls[t].Indicating?
    case ReceiveConnect(t) => At(s, t) && s.calls[t].Connecting?
    case SetServer(t) => At(s, t) && s.calls[t].Connected? && !Locked(s, s.calls[t].client)
    case Announce(t) => At(s, t) && s.calls[t].Announcing?
    case DropReturn(t) => At(s, t) && s.calls[t].Leaving?
    case LeaveIndication(t) => At(s, t) && s.calls[t].Left?
    case StartCall(c, t) => c in s.clients && !At(s, t) && s.clients[c].server.Some? && !Locked(s, c)
    case StoreMark(t, _) => At(s, t) && s.calls[t].Calling?
    case ClearMark(t, _) => At(s, t) && s.calls[t].Calling?
    case EndCall(t) => At(s, t) && s.calls[t].Calling?
    case StartSend(t) => !At(s, t) && s.slot.Some?
    case EndSend(t) => At(s, t) && s.calls[t].Sending?
    case ClearEvents(t) => At(s, t) && s.calls[t].Removing? && !s.calls[t].cleared
    case FinishRemove(t) => At(s, t) && s.calls[t].Removing? && s.calls[t].cleared
    case BeginDestroy(c, t) =>
      c in s.clients && !At(s, t) && s.clients[c].life.Alive? && c !in s.creating && !Locked(s, c)
    case UnregisterClient(c) => c in s.clients && s.clients[c].life.Reset?
    case FreeClient(c) => c in s.clients && s.clients[c].life.Gone? && s.clients[c].tokens == 0
    case DisableUnregister => s.phase.On? && s.enabling.None?
    case DisableReset => s.phase.Unregistered?
    case DisableNotify => s.phase.Stopping? && s.stopTokens == 0
    case TellReset(t) => s.phase.Telling? && !At(s, t) && !Locked(s, s.phase.client)
    case TellCallback => s.phase.Told?
    case TellDone => s.phase.Notified?
    case DisableDone => s.phase.Draining? && s.allTokens == 0
  }

  predicate ClientThere(s: State, c: ClientId) {
    c in s.clients && s.clients[c].tokens > 0
  }

  predicate ConnThere(s: State, k: Conn) {
    k in s.conns && s.conns[k].tokens > 0
  }

  /** Everything the step touches exists, and every token it drops is there to be dropped. */
  predicate Sound(s: State, step: Step)
    requires Reached(s, step)
  {
    match step
    case EnableServer(_, _) => s.stopTokens == 0 && s.allTokens == 0
    case LockWeak(t) => s.calls[t].client in s.clients && s.stopTokens > 0
    case ReceiveConnect(t) => ClientThere(s, s.calls[t].client)
    case SetServer(t) => ClientThere(s, s.calls[t].client) && ConnThere(s, s.calls[t].conn) &&
                         s.clients[s.calls[t].client].server.None?
    case Announce(t) => ClientThere(s, s.calls[t].client) && ConnThere(s, s.calls[t].conn)
    case DropReturn(t) => ConnThere(s, s.calls[t].conn)
    case LeaveIndication(t) => ClientThere(s, s.calls[t].client) && s.stopTokens > 0
    case StartCall(c, t) => ConnThere(s, s.clients[c].server.value)
    case StoreMark(t, _) => s.slot == Some(s.calls[t].conn)
    case EndCall(t) => ConnThere(s, s.calls[t].conn)
    case StartSend(t) => s.slot.value in s.conns && ClientThere(s, s.conns[s.slot.value].client)
    case EndSend(t) => ClientThere(s, s.calls[t].client)
    case FinishRemove(t) =>
      s.slot == Some(s.calls[t].conn) && s.calls[t].conn in s.conns &&
      ClientThere(s, s.conns[s.calls[t].conn].client) && s.allTokens > 0
    case BeginDestroy(c, t) =>
      ClientThere(s, c) && (s.clients[c].server.Some? ==> ConnThere(s, s.clients[c].server.value))
    case DisableUnregister => s.stopTokens > 0
    case DisableReset => s.stopTokens > 0 && s.allTokens > 0
    case DisableNotify => s.slot.Some? ==> s.slot.value in s.conns && ClientThere(s, s.conns[s.slot.value].client)
    case TellReset(t) =>
      ClientThere(s, s.phase.client) &&
      (s.clients[s.phase.client].server.Some? ==> ConnThere(s, s.clients[s.phase.client].server.value))
    case TellCallback => ClientThere(s, s.phase.client) && s.phase.conn in s.conns
    case TellDone => ClientThere(s, s.phase.client)
    case _ => true
  }

  predicate Can(s: State, step: Step) {
    Reached(s, step) && Sound(s, step)
  }

  function WithServer(s: State, c: ClientId, server: Option<Conn>): State
    requires c in s.clients
  {
    s.(clients := s.clients[c := s.clients[c].(server := server)])
  }

  function WithLife(s: State, c: ClientId, life: Life): State
    requires c in s.clients
  {
    s.(clients := s.clients[c := s.clients[c].(life := life)])
  }

  function WithNote(s: State, c: ClientId, note: Note): State
    requires c in s.clients
  {
    s.(clients := s.clients[c := s.clients[c].(log := s.clients[c].log + [note])])
  }

  function Created(s: State, c: ClientId, t: Tid, compatible: bool): State {
    var r := s.(clients := s.clients[c := Client(Alive, None, [], 1)], record := Some(c));
    if s.phase.On? && compatible
    then Put(r, t, Indicating(c)).(stopTokens := s.stopTokens + 1, creating := s.creating + {c}) else r
  }

  function Enabled(s: State, t: Tid, compatible: bool): State {
    var r := s.(phase := On, stopTokens := 2, allTokens := 1);
    if s.record.Some? && compatible
    then Put(r, t, Indicating(s.record.value)).(stopTokens := 3, enabling := s.record) else r
  }

  /** The thread returns from the indication of `c`, and with it from the call that made the indication. */
  function IndicationEnded(s: State, t: Tid, c: ClientId): State
    requires s.stopTokens > 0
  {
    End(s, t).(stopTokens := s.stopTokens - 1, creating := s.creating - {c},
               enabling := if s.enabling == Some(c) then None else s.enabling)
  }

  /** The server refuses once disable() has dropped its token; a stored client is an assertion failure. */
  function ConnectReceived(s: State, t: Tid, c: ClientId): State
    requires c in s.clients
  {
    if !ServerOwns(s.phase) then Put(s, t, Left(c))
    else if s.slot.Some? then s.(aborted := true)
    else
      Put(AddClient(s, c, 1), t, Connected(c, s.next))
      .(conns := s.conns[s.next := Connection(c, 1, false, false)], slot := Some(s.next), next := s.next + 1,
        allTokens := s.allTokens + 1)
  }

  function ServerSet(s: State, t: Tid, c: ClientId, k: Conn): State
    requires c in s.clients && k in s.conns
  {
    if s.clients[c].life.Alive? then Put(AddConn(WithServer(s, c, Some(k)), k, 1), t, Announcing(c, k))
    else Put(s, t, Leaving(c, k))
  }

  function RemoveFinished(s: State, t: Tid): State
    requires Can(s, FinishRemove(t))
  {
    var k := s.calls[t].conn;
    var r := AddClient(s, s.conns[k].client, -1).(slot := None, allTokens := s.allTokens - 1);
    match s.calls[t].next
    case ThenLeave(c) => Put(r, t, Left(c))
    case ThenReturn => End(r, t)
    case ThenDestroy(c) => if c in r.clients then WithLife(End(r, t), c, Reset) else End(r, t)
    case ThenTell(c) => End(r, t).(phase := Told(c, k))
  }

  function DestroyBegun(s: State, c: ClientId, t: Tid): State
    requires Can(s, BeginDestroy(c, t))
  {
    var r := AddClient(s, c, -1);
    match s.clients[c].server
    case None => WithLife(r, c, Reset)
    case Some(k) =>
      var d := DropConn(WithServer(r, c, None), t, k, ThenDestroy(c), None);
      WithLife(d, c, if d.conns[k].tokens == 0 then Resetting else Reset)
  }

  function ToldReset(s: State, t: Tid): State
    requires Can(s, TellReset(t))
  {
    var c, k := s.phase.client, s.phase.conn;
    match s.clients[c].server
    case None => s.(phase := Told(c, k))
    case Some(j) =>
      var d := DropConn(WithServer(s, c, None), t, j, ThenTell(c), None);
      d.(phase := if d.conns[j].tokens == 0 then TellWait(c, k) else Told(c, k))
  }

  function Do(s: State, step: Step): State
    requires Can(s, step)
  {
    match step
    case CreateClient(c, t, compatible) => Created(s, c, t, compatible)
    case EnableServer(t, compatible) => Enabled(s, t, compatible)
    case LockWeak(t) =>
      var c := s.calls[t].client;
      if s.clients[c].tokens > 0 then Put(AddClient(s, c, 1), t, Connecting(c))
      else IndicationEnded(s, t, c)
    case ReceiveConnect(t) => ConnectReceived(s, t, s.calls[t].client)
    case SetServer(t) => ServerSet(s, t, s.calls[t].client, s.calls[t].conn)
    case Announce(t) =>
      var c, k := s.calls[t].client, s.calls[t].conn;
      Put(WithNote(s, c, Available), t, Leaving(c, k)).(conns := s.conns[k := s.conns[k].(announced := true)])
    case DropReturn(t) =>
      DropConn(s, t, s.calls[t].conn, ThenLeave(s.calls[t].client), Some(Left(s.calls[t].client)))
    case LeaveIndication(t) => IndicationEnded(AddClient(s, s.calls[t].client, -1), t, s.calls[t].client)
    case StartCall(c, t) =>
      var k := s.clients[c].server.value;
      Put(AddConn(s, k, 1), t, Calling(k))
    case StoreMark(t, mark) => s.(marks := s.marks[mark := s.calls[t].conn])
    case ClearMark(t, mark) => s.(marks := s.marks - {mark})
    case EndCall(t) => DropConn(s, t, s.calls[t].conn, ThenReturn, None)
    case StartSend(t) =>
      var c := s.conns[s.slot.value].client;
      Put(AddClient(s, c, 1), t, Sending(c))
    case EndSend(t) => End(AddClient(s, s.calls[t].client, -1), t)
    case ClearEvents(t) => Put(s, t, s.calls[t].(cleared := true)).(marks := map[])
    case FinishRemove(t) => RemoveFinished(s, t)
    case BeginDestroy(c, t) => DestroyBegun(s, c, t)
    case UnregisterClient(c) => WithLife(s, c, Gone).(record := None)
    case FreeClient(c) => WithLife(s, c, Freed)
    case DisableUnregister => s.(phase := Unregistered, stopTokens := s.stopTokens - 1)
    case DisableReset =>
      s.(phase := Stopping, stopTokens := s.stopTokens - 1, allTokens := s.allTokens - 1, marks := map[])
    case DisableNotify =>
      if s.slot.Some? then
        var c := s.conns[s.slot.value].client;
        AddClient(s, c, 1).(phase := Telling(c, s.slot.value))
      else s.(phase := Draining)
    case TellReset(t) => ToldReset(s, t)
    case TellCallback =>
      var c, k := s.phase.client, s.phase.conn;
      WithNote(s, c, NotAvailable).(phase := Notified(c, k), conns := s.conns[k := s.conns[k].(told := true)])
    case TellDone => AddClient(s, s.phase.client, -1).(phase := Draining)
    case DisableDone => s.(phase := Off)
  }
}
