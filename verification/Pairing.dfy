/** How the runtime pairs client and server connectors in the records of its service database
    (runtime_impl.cpp). Registrations are named by the time at which they are made. */
module Pairing {
  import opened Prelude

  datatype Interface = Interface(id: string, major: nat, minor: nat)

  /** A record is found without looking at the minor version. */
  datatype RecordKey = RecordKey(id: string, major: nat, instance: string)

  function KeyOf(interface: Interface, instance: string): RecordKey {
    RecordKey(interface.id, interface.major, instance)
  }

  datatype Entry = Entry(time: nat, interface: Interface)

  datatype Record = Record(server: Option<Entry>, client: Option<Entry>)

  type Database = map<RecordKey, Record>

  function RecordAt(db: Database, key: RecordKey): Record {
    if key in db then db[key] else Record(None, None)
  }

  predicate MinorCompatible(server: Interface, client: Interface) {
    client.minor <= server.minor
  }

  datatype Op =
    | RegisterClient(interface: Interface, instance: string)
    | RegisterServer(interface: Interface, instance: string)
    | Unregister(registration: nat)

  /** A call of a client's server-indication callback with a server's endpoint. */
  datatype Attempt = Attempt(client: nat, server: nat)

  predicate IsRegister(op: Op) {
    op.RegisterClient? || op.RegisterServer?
  }

  function OpKey(op: Op): RecordKey
    requires IsRegister(op)
  {
    KeyOf(op.interface, op.instance)
  }

  /** Two registrations are for one service: its name, its major version and its instance agree, whatever the minor
      versions. */
  predicate SameService(a: Op, b: Op)
    requires IsRegister(a) && IsRegister(b)
  {
    a.interface.id == b.interface.id && a.interface.major == b.interface.major && a.instance == b.instance
  }

  /** Registrations share a record exactly when they are for one service. */
  lemma RecordsAreServices(a: Op, b: Op)
    requires IsRegister(a) && IsRegister(b)
    ensures OpKey(a) == OpKey(b) <==> SameService(a, b)
  {
  }

  // The operations on the database.

  function AddClient(db: Database, entry: Entry, key: RecordKey): Database {
    var r := RecordAt(db, key);
    if r.client.Some? then db[key := r] else db[key := r.(client := Some(entry))]
  }

  function AddServer(db: Database, entry: Entry, key: RecordKey): Database {
    db[key := RecordAt(db, key).(server := Some(entry))]
  }

  function ClientAttempt(db: Database, entry: Entry, key: RecordKey): Option<Attempt> {
    var r := RecordAt(db, key);
    if r.client.None? && r.server.Some? && MinorCompatible(r.server.value.interface, entry.interface)
    then Some(Attempt(entry.time, r.server.value.time)) else None
  }

  function ServerAttempt(db: Database, entry: Entry, key: RecordKey): Option<Attempt> {
    var r := RecordAt(db, key);
    if r.client.Some? && MinorCompatible(entry.interface, r.client.value.interface)
    then Some(Attempt(r.client.value.time, entry.time)) else None
  }

  /** Destroying a registration resets the entry of its record, whoever made it. */
  function Reset(db: Database, op: Op): Database
    requires IsRegister(op)
  {
    var r := RecordAt(db, OpKey(op));
    db[OpKey(op) := if op.RegisterClient? then r.(client := None) else r.(server := None)]
  }

  // Runs, and what an observer who sees only the calls can say about them.

  /** The call made registration `i`, and it has not been destroyed before time `t`. */
  ghost predicate Alive(ops: seq<Op>, i: nat, t: nat)
    requires t <= |ops|
    decreases t, 0
  {
    i < t && IsRegister(ops[i]) && Accepted(ops, i) && forall u :: i < u < t ==> ops[u] != Unregister(i)
  }

  /** A client is refused while another client of the record is registered. */
  ghost predicate Accepted(ops: seq<Op>, i: nat)
    requires i < |ops|
    decreases i, 1
  {
    ops[i].RegisterClient? ==> !exists j :: SameKind(ops, j, i) && Alive(ops, j, i)
  }

  /** An earlier registration of the same kind for the same service. */
  ghost predicate SameKind(ops: seq<Op>, j: nat, i: nat)
    requires i < |ops|
  {
    j < i && IsRegister(ops[j]) && IsRegister(ops[i]) && SameService(ops[j], ops[i]) &&
    (ops[j].RegisterClient? <==> ops[i].RegisterClient?)
  }

  /** One server per record at a time, and a registration is destroyed once. */
  ghost predicate Legal(ops: seq<Op>) {
    forall t :: 0 <= t < |ops| ==>
      && (ops[t].RegisterServer? ==> !exists j :: SameKind(ops, j, t) && Alive(ops, j, t))
      && (ops[t].Unregister? ==> Alive(ops, ops[t].registration, t))
  }

  function After(ops: seq<Op>, t: nat): Database
    requires t <= |ops|
    decreases t
  {
    if t == 0 then map[] else
      var db, op := After(ops, t - 1), ops[t - 1];
      match op
      case RegisterClient(interface, _) => AddClient(db, Entry(t - 1, interface), OpKey(op))
      case RegisterServer(interface, _) => AddServer(db, Entry(t - 1, interface), OpKey(op))
      case Unregister(i) => if i < t - 1 && IsRegister(ops[i]) then Reset(db, ops[i]) else db
  }

  function AttemptAt(ops: seq<Op>, t: nat): Option<Attempt>
    requires t < |ops|
  {
    var db, op := After(ops, t), ops[t];
    match op
    case RegisterClient(interface, _) => ClientAttempt(db, Entry(t, interface), OpKey(op))
    case RegisterServer(interface, _) => ServerAttempt(db, Entry(t, interface), OpKey(op))
    case Unregister(_) => None
  }

  // The database holds exactly the registrations that are alive.

  function Side(r: Record, client: bool): Option<Entry> {
    if client then r.client else r.server
  }

  /** The entry of `key` is the registration that is alive, if any. */
  ghost predicate SideOk(ops: seq<Op>, t: nat, key: RecordKey, client: bool)
    requires t <= |ops|
  {
    var e := Side(RecordAt(After(ops, t), key), client);
    && (e.Some? ==> e.value.time < t && Is(ops, e.value.time, key, client) && Alive(ops, e.value.time, t) &&
                    e.value.interface == ops[e.value.time].interface)
    && (forall i: nat :: i < t && Is(ops, i, key, client) && Alive(ops, i, t) ==> e.Some? && e.value.time == i)
  }

  /** Call `i` registers a client, or a server, of the record. */
  predicate Is(ops: seq<Op>, i: nat, key: RecordKey, client: bool)
    requires i < |ops|
  {
    IsRegister(ops[i]) && OpKey(ops[i]) == key && (ops[i].RegisterClient? <==> client)
  }

  lemma AliveNext(ops: seq<Op>, i: nat, t: nat)
    requires t < |ops|
    ensures Alive(ops, i, t + 1) <==>
            if i == t then IsRegister(ops[t]) && Accepted(ops, t) else Alive(ops, i, t) && ops[t] != Unregister(i)
  {
  }

  /** Whether another registration of the kind is alive can be read off the record. */
  lemma SideShowsRivals(ops: seq<Op>, t: nat, key: RecordKey, client: bool)
    requires t < |ops| && Is(ops, t, key, client) && SideOk(ops, t, key, client)
    ensures (exists j :: SameKind(ops, j, t) && Alive(ops, j, t)) <==> Side(RecordAt(After(ops, t), key), client).Some?
  {
    var e := Side(RecordAt(After(ops, t), key), client);
    if e.Some? { assert SameKind(ops, e.value.time, t); }
    if j :| SameKind(ops, j, t) && Alive(ops, j, t) { assert Is(ops, j, key, client); }
  }

  lemma RegisterKeepsSide(ops: seq<Op>, t: nat, key: RecordKey, client: bool)
    requires Legal(ops) && t < |ops| && IsRegister(ops[t]) && SideOk(ops, t, key, client)
    ensures SideOk(ops, t + 1, key, client)
  {
    var e, e' := Side(RecordAt(After(ops, t), key), client), Side(RecordAt(After(ops, t + 1), key), client);
    forall i: nat { AliveNext(ops, i, t); }
    if Is(ops, t, key, client) {
      SideShowsRivals(ops, t, key, client);
      assert Accepted(ops, t) <==> e.None?;
      assert e' == if e.None? then Some(Entry(t, ops[t].interface)) else e;
    } else {
      assert e' == e;
    }
  }

  lemma UnregisterKeepsSide(ops: seq<Op>, t: nat, key: RecordKey, client: bool)
    requires Legal(ops) && t < |ops| && ops[t].Unregister? && SideOk(ops, t, key, client)
    ensures SideOk(ops, t + 1, key, client)
  {
    forall i: nat { AliveNext(ops, i, t); }
  }

  /** In every legal run each record holds exactly the registrations that are alive. */
  lemma {:induction false} DatabaseHoldsTheLiving(ops: seq<Op>, t: nat, key: RecordKey, client: bool)
    requires Legal(ops) && t <= |ops|
    ensures SideOk(ops, t, key, client)
    decreases t
  {
    if t > 0 {
      DatabaseHoldsTheLiving(ops, t - 1, key, client);
      if IsRegister(ops[t - 1]) {
        RegisterKeepsSide(ops, t - 1, key, client);
      } else {
        UnregisterKeepsSide(ops, t - 1, key, client);
      }
    }
  }

  /** Client registration `i` and server registration `j` of one service overlap, the later one is made at
      `t`, and the client's minor version does not exceed the server's. */
  ghost predicate MeetAt(ops: seq<Op>, t: nat, i: nat, j: nat)
    requires t < |ops|
  {
    && t == (if i < j then j else i)
    && ops[i].RegisterClient? && ops[j].RegisterServer? && SameService(ops[i], ops[j])
    && Alive(ops, i, t + 1) && Alive(ops, j, t + 1)
    && ops[i].interface.minor <= ops[j].interface.minor
  }

  lemma ClientMeets(ops: seq<Op>, t: nat, i: nat, j: nat)
    requires Legal(ops) && t < |ops| && ops[t].RegisterClient?
    ensures AttemptAt(ops, t) == Some(Attempt(i, j)) <==> MeetAt(ops, t, i, j)
  {
    var key := OpKey(ops[t]);
    DatabaseHoldsTheLiving(ops, t, key, true);
    DatabaseHoldsTheLiving(ops, t, key, false);
    SideShowsRivals(ops, t, key, true);
    AliveNext(ops, i, t);
    AliveNext(ops, j, t);
  }

  lemma ServerMeets(ops: seq<Op>, t: nat, i: nat, j: nat)
    requires Legal(ops) && t < |ops| && ops[t].RegisterServer?
    ensures AttemptAt(ops, t) == Some(Attempt(i, j)) <==> MeetAt(ops, t, i, j)
  {
    var key := OpKey(ops[t]);
    DatabaseHoldsTheLiving(ops, t, key, true);
    DatabaseHoldsTheLiving(ops, t, key, false);
    AliveNext(ops, i, t);
    AliveNext(ops, j, t);
  }

  /** At each call the runtime indicates a server to a client exactly when the call completes their overlap. */
  lemma PairingIsExact(ops: seq<Op>, t: nat, i: nat, j: nat)
    requires Legal(ops) && t < |ops|
    ensures AttemptAt(ops, t) == Some(Attempt(i, j)) <==> MeetAt(ops, t, i, j)
  {
    match ops[t]
    case RegisterClient(_, _) => ClientMeets(ops, t, i, j);
    case RegisterServer(_, _) => ServerMeets(ops, t, i, j);
    case Unregister(_) =>
  }

  /** A client and a server that are ever registered together, with compatible versions, are paired once, by
      whichever of the two came later; with an incompatible version never. */
  lemma EveryOverlapPairsOnce(ops: seq<Op>, i: nat, j: nat, t: nat)
    requires Legal(ops) && t <= |ops| && Alive(ops, i, t) && Alive(ops, j, t)
    requires ops[i].RegisterClient? && ops[j].RegisterServer? && SameService(ops[i], ops[j])
    ensures forall u: nat :: u < |ops| ==>
              (AttemptAt(ops, u) == Some(Attempt(i, j)) <==>
               u == (if i < j then j else i) && ops[i].interface.minor <= ops[j].interface.minor)
  {
    var m := if i < j then j else i;
    AliveBefore(ops, i, m + 1, t);
    AliveBefore(ops, j, m + 1, t);
    forall u: nat | u < |ops|
      ensures AttemptAt(ops, u) == Some(Attempt(i, j)) <==> u == m && ops[i].interface.minor <= ops[j].interface.minor
    {
      PairingIsExact(ops, u, i, j);
    }
  }

  lemma AliveBefore(ops: seq<Op>, i: nat, u: nat, t: nat)
    requires i < u <= t <= |ops| && Alive(ops, i, t)
    ensures Alive(ops, i, u)
  {
  }

  // The database as the runtime updates it.

  class Runtime {
    var records: Database

    constructor ()
      ensures records == map[]
    {
      records := map[];
    }

    /** get_record: a record is made when it is first asked for. */
    method GetRecord(key: RecordKey) returns (r: Record)
      modifies this
      ensures r == RecordAt(old(records), key) && records == old(records)[key := r]
    {
      if key !in records {
        records := records[key := Record(None, None)];
      }
      r := records[key];
    }

    /** Service_record::register_client_connector and the pairing after it. */
    method RegisterClientConnector(interface: Interface, instance: string, time: nat)
      returns (r: Result<Option<Attempt>, string>)
      modifies this
      ensures var entry, key := Entry(time, interface), KeyOf(interface, instance);
              && records == AddClient(old(records), entry, key)
              && r == if RecordAt(old(records), key).client.Some? then Err("duplicate_client")
                      else Ok(ClientAttempt(old(records), entry, key))
    {
      var key := KeyOf(interface, instance);
      var record := GetRecord(key);
      if record.client.Some? {
        return Err("duplicate_client");
      }
      records := records[key := record.(client := Some(Entry(time, interface)))];
      var currentServer := record.server;
      if currentServer.Some? && MinorCompatible(currentServer.value.interface, interface) {
        return Ok(Some(Attempt(time, currentServer.value.time)));
      }
      return Ok(None);
    }

    /** Service_record::register_server_connector and the pairing after it. */
    method RegisterServerConnector(interface: Interface, instance: string, time: nat) returns (r: Option<Attempt>)
      requires RecordAt(records, KeyOf(interface, instance)).server.None?
      modifies this
      ensures var entry, key := Entry(time, interface), KeyOf(interface, instance);
              records == AddServer(old(records), entry, key) && r == ServerAttempt(old(records), entry, key)
    {
      var key := KeyOf(interface, instance);
      var record := GetRecord(key);
      records := records[key := record.(server := Some(Entry(time, interface)))];
      var currentClient := record.client;
      if currentClient.Some? && MinorCompatible(interface, currentClient.value.interface) {
        return Some(Attempt(currentClient.value.time, time));
      }
      return None;
    }

    /** The final action of a registration. */
    method DestroyRegistration(op: Op)
      requires IsRegister(op)
      modifies this
      ensures records == Reset(old(records), op)
    {
      var record := GetRecord(OpKey(op));
      if op.RegisterClient? {
        records := records[OpKey(op) := record.(client := None)];
      } else {
        records := records[OpKey(op) := record.(server := None)];
      }
    }
  }
}
