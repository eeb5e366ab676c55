/** Established connections: entry vectors per client and the key-to-client index (connection_metadata.hpp). */
module ConnectionMetadata {
  import opened Prelude

  type Client = nat

  type Handle = nat

  /** Which handler made an entry. No operation reads it: it only lets lemmas tell the two apart. */
  datatype Role = Provider | Consumer

  datatype Ids = Ids(key: Key, local: Handle, remote: Handle, role: Role)

  type Table = map<Client, seq<Ids>>

  type Index = map<Key, map<Client, nat>>

  function EntriesOf(t: Table, c: Client): seq<Ids> {
    if c in t then t[c] else []
  }

  function LastWithKey(v: seq<Ids>, key: Key): (at: Option<nat>)
    ensures at.Some? ==> at.value < |v| && v[at.value].key == key && forall j :: at.value < j < |v| ==> v[j].key != key
    ensures at.None? ==> forall j :: 0 <= j < |v| ==> v[j].key != key
  {
    if v == [] then None
    else if v[|v| - 1].key == key then Some(|v| - 1)
    else LastWithKey(v[..|v| - 1], key)
  }

  /** The entry that both handle searches stop at: the first one with the remote handle. */
  function FirstWithRemote(v: seq<Ids>, remote: Handle): (found: Option<Ids>)
    ensures found.Some? ==> found.value in v && found.value.remote == remote
    ensures found.None? ==> forall e :: e in v ==> e.remote != remote
  {
    if v == [] then None
    else if v[0].remote == remote then Some(v[0])
    else FirstWithRemote(v[1..], remote)
  }

  function FirstWithLocal(v: seq<Ids>, local: Handle): (found: Option<Ids>)
    ensures found.Some? ==> found.value in v && found.value.local == local
    ensures found.None? ==> forall e :: e in v ==> e.local != local
  {
    if v == [] then None
    else if v[0].local == local then Some(v[0])
    else FirstWithLocal(v[1..], local)
  }

  /** Both searches stop at the entry that was added first. */
  lemma {:induction false} SearchesFindTheFirst(v: seq<Ids>, handle: Handle, i: nat)
    requires i < |v|
    ensures v[i].remote == handle && (forall j :: 0 <= j < i ==> v[j].remote != handle) ==>
              FirstWithRemote(v, handle) == Some(v[i])
    ensures v[i].local == handle && (forall j :: 0 <= j < i ==> v[j].local != handle) ==>
              FirstWithLocal(v, handle) == Some(v[i])
  {
    if i > 0 {
      SearchesFindTheFirst(v[1..], handle, i - 1);
      assert v[1..][i - 1] == v[i] && forall j :: 0 <= j < i - 1 ==> v[1..][j] == v[j + 1];
    }
  }

  function WithoutKey(v: seq<Ids>, key: Key): (r: seq<Ids>)
    ensures forall e :: e in r <==> e in v && e.key != key
  {
    if v == [] then []
    else if v[0].key == key then WithoutKey(v[1..], key)
    else [v[0]] + WithoutKey(v[1..], key)
  }

  function WithoutRemote(v: seq<Ids>, remote: Handle): (r: seq<Ids>)
    ensures forall e :: e in r <==> e in v && e.remote != remote
  {
    if v == [] then []
    else if v[0].remote == remote then WithoutRemote(v[1..], remote)
    else [v[0]] + WithoutRemote(v[1..], remote)
  }

  // The operations, on the entry vectors alone.

  function Add(t: Table, c: Client, ids: Ids): Table {
    t[c := EntriesOf(t, c) + [ids]]
  }

  /** A client without entries has no vector. */
  function Put(t: Table, c: Client, v: seq<Ids>): Table {
    if v == [] then t - {c} else t[c := v]
  }

  function RemoveClient(t: Table, c: Client): Table {
    t - {c}
  }

  function RemoveClientAndKey(t: Table, c: Client, key: Key): Table {
    if c in t then Put(t, c, WithoutKey(t[c], key)) else t
  }

  function RemoveMapping(t: Table, c: Client, remote: Handle): Table {
    if c in t then Put(t, c, WithoutRemote(t[c], remote)) else t
  }

  function RemoveService(t: Table, key: Key): Table {
    map c | c in t && WithoutKey(t[c], key) != [] :: WithoutKey(t[c], key)
  }

  // The index.

  function IndexAt(index: Index, key: Key, c: Client): Option<nat> {
    if key in index && c in index[key] then Some(index[key][c]) else None
  }

  function IndexPut(index: Index, key: Key, c: Client, i: nat): Index {
    index[key := (if key in index then index[key] else map[])[c := i]]
  }

  ghost predicate NoEmptyRow(index: Index) {
    forall key :: key in index ==> index[key] != map[]
  }

  ghost predicate Agrees(t: Table, index: Index) {
    && (forall c :: c in t ==> t[c] != [])
    && NoEmptyRow(index)
    && (forall key: Key, c: Client :: IndexAt(index, key, c) == LastWithKey(EntriesOf(t, c), key))
  }

  lemma IndexPutAt(index: Index, key: Key, c: Client, i: nat)
    requires NoEmptyRow(index)
    ensures NoEmptyRow(IndexPut(index, key, c, i))
    ensures forall k: Key, d: Client :: IndexAt(IndexPut(index, key, c, i), k, d) ==
              if k == key && d == c then Some(i) else IndexAt(index, k, d)
  {
    assert c in IndexPut(index, key, c, i)[key];
  }

  lemma LastAfterPush(v: seq<Ids>, ids: Ids, key: Key)
    ensures LastWithKey(v + [ids], key) == if ids.key == key then Some(|v|) else LastWithKey(v, key)
  {
    assert (v + [ids])[..|v|] == v;
  }

  /** Tables without empty vectors are determined by the entries of each client. */
  lemma SameEntriesSameTable(t: Table, u: Table)
    requires forall c :: c in t ==> t[c] != []
    requires forall c :: c in u ==> u[c] != []
    requires forall c: Client :: EntriesOf(t, c) == EntriesOf(u, c)
    ensures t == u
  {
    forall c: Client ensures c in t <==> c in u {
      assert EntriesOf(t, c) == EntriesOf(u, c);
    }
    forall c | c in t ensures t[c] == u[c] {
      assert EntriesOf(t, c) == EntriesOf(u, c);
    }
  }

  ghost predicate OneEntryPerKey(t: Table) {
    forall c, i, j :: c in t && 0 <= i < j < |t[c]| ==> t[c][i].key != t[c][j].key
  }

  /** The clients an event update for `key` is sent to, each with the entry it is sent for. */
  ghost predicate Receives(t: Table, key: Key, c: Client, ids: Ids) {
    c in t && LastWithKey(t[c], key).Some? && ids == t[c][LastWithKey(t[c], key).value]
  }

  /** With one entry per client and key, the receiving entries are all the entries of the key. */
  lemma ReceivesIsOwns(t: Table, key: Key, c: Client, ids: Ids)
    requires OneEntryPerKey(t)
    ensures Receives(t, key, c, ids) <==> c in t && ids in t[c] && ids.key == key
  {
    if c in t && ids in t[c] && ids.key == key {
      var i :| 0 <= i < |t[c]| && t[c][i] == ids;
      var last := LastWithKey(t[c], key).value;
      assert i == last;
    }
  }

  class Connections {
    var idToKey: Table
    var keyToClients: Index

    ghost predicate Valid()
      reads this
    {
      Agrees(idToKey, keyToClients)
    }

    constructor ()
      ensures Valid() && idToKey == map[]
    {
      idToKey, keyToClients := map[], map[];
    }

    /** for_each_client: the visited pairs, in visiting order. */
    method ForEachClient(key: Key) returns (visits: seq<(Client, Ids)>)
      requires Valid()
      ensures forall c: Client, ids :: (c, ids) in visits <==> Receives(idToKey, key, c, ids)
      ensures forall i, j :: 0 <= i < j < |visits| ==> visits[i].0 != visits[j].0
    {
      visits := [];
      if key !in keyToClients {
        forall c: Client, ids: Ids ensures !Receives(idToKey, key, c, ids) {
          assert IndexAt(keyToClients, key, c) == LastWithKey(EntriesOf(idToKey, c), key);
        }
        return;
      }
      var todo := keyToClients[key].Keys;
      while todo != {}
        invariant todo <= keyToClients[key].Keys
        invariant forall c: Client, ids :: (c, ids) in visits <==>
                    c in keyToClients[key].Keys - todo && Receives(idToKey, key, c, ids)
        invariant forall i :: 0 <= i < |visits| ==> visits[i].0 !in todo
        invariant forall i, j :: 0 <= i < j < |visits| ==> visits[i].0 != visits[j].0
        decreases todo
      {
        var c :| c in todo;
        todo := todo - {c};
        var i := keyToClients[key][c];
        assert IndexAt(keyToClients, key, c) == Some(i);
        if c in idToKey && i < |idToKey[c]| {
          visits := visits + [(c, idToKey[c][i])];
        }
      }
      forall c: Client, ids: Ids | Receives(idToKey, key, c, ids) ensures c in keyToClients[key].Keys - todo {
        assert IndexAt(keyToClients, key, c) == LastWithKey(EntriesOf(idToKey, c), key);
      }
    }

    method GetByRemoteHandle(c: Client, remote: Handle) returns (found: Option<Ids>)
      ensures found == FirstWithRemote(EntriesOf(idToKey, c), remote)
    {
      if c in idToKey {
        var v := idToKey[c];
        for i := 0 to |v|
          invariant FirstWithRemote(v, remote) == FirstWithRemote(v[i..], remote)
        {
          if v[i].remote == remote {
            return Some(v[i]);
          }
        }
      }
      return None;
    }

    method GetByLocalHandle(c: Client, local: Handle) returns (found: Option<Ids>)
      ensures found == FirstWithLocal(EntriesOf(idToKey, c), local)
    {
      if c in idToKey {
        var v := idToKey[c];
        for i := 0 to |v|
          invariant FirstWithLocal(v, local) == FirstWithLocal(v[i..], local)
        {
          if v[i].local == local {
            return Some(v[i]);
          }
        }
      }
      return None;
    }

    method AddMapping(c: Client, ids: Ids)
      requires Valid()
      modifies this
      ensures Valid() && idToKey == Add(old(idToKey), c, ids)
    {
      ghost var t := idToKey;
      ghost var index := keyToClients;
      idToKey := idToKey[c := EntriesOf(idToKey, c) + [ids]];
      keyToClients := IndexPut(keyToClients, ids.key, c, |idToKey[c]| - 1);
      IndexPutAt(index, ids.key, c, |idToKey[c]| - 1);
      forall key: Key, d: Client
        ensures IndexAt(keyToClients, key, d) == LastWithKey(EntriesOf(idToKey, d), key)
      {
        LastAfterPush(EntriesOf(t, c), ids, key);
        assert IndexAt(index, key, d) == LastWithKey(EntriesOf(t, d), key);
      }
    }

    method RemoveClientFromKeyIndices(c: Client)
      requires NoEmptyRow(keyToClients)
      modifies this`keyToClients
      ensures NoEmptyRow(keyToClients)
      ensures forall key: Key, d: Client :: IndexAt(keyToClients, key, d) ==
                if d == c then None else IndexAt(old(keyToClients), key, d)
    {
      var todo := keyToClients.Keys;
      while todo != {}
        invariant todo <= keyToClients.Keys
        invariant NoEmptyRow(keyToClients)
        invariant forall key :: key in todo ==> key in old(keyToClients) && keyToClients[key] == old(keyToClients)[key]
        invariant forall key: Key, d: Client :: key !in todo ==>
                    IndexAt(keyToClients, key, d) == if d == c then None else IndexAt(old(keyToClients), key, d)
        decreases todo
      {
        var key :| key in todo;
        todo := todo - {key};
        ghost var before := keyToClients;
        var row := keyToClients[key] - {c};
        if row == map[] {
          forall d ensures d != c ==> IndexAt(old(keyToClients), key, d).None? {
            assert d != c && d in keyToClients[key] ==> d in row;
          }
          keyToClients := keyToClients - {key};
        } else {
          keyToClients := keyToClients[key := row];
        }
        forall k: Key, d: Client | k !in todo
          ensures IndexAt(keyToClients, k, d) == if d == c then None else IndexAt(old(keyToClients), k, d)
        {
          if k != key { assert IndexAt(keyToClients, k, d) == IndexAt(before, k, d); }
        }
      }
    }

    method RebuildClientKeyIndices(c: Client)
      requires NoEmptyRow(keyToClients)
      modifies this`keyToClients
      ensures NoEmptyRow(keyToClients)
      ensures forall key: Key, d: Client :: IndexAt(keyToClients, key, d) ==
                if d == c then LastWithKey(EntriesOf(idToKey, c), key) else IndexAt(old(keyToClients), key, d)
    {
      RemoveClientFromKeyIndices(c);
      if c !in idToKey {
        return;
      }
      var v := idToKey[c];
      assert v[..0] == [];
      for i := 0 to |v|
        invariant NoEmptyRow(keyToClients)
        invariant forall key: Key, d: Client :: IndexAt(keyToClients, key, d) ==
                    if d == c then LastWithKey(v[..i], key) else IndexAt(old(keyToClients), key, d)
      {
        assert v[..i + 1] == v[..i] + [v[i]];
        IndexPutAt(keyToClients, v[i].key, c, i);
        forall key: Key { LastAfterPush(v[..i], v[i], key); }
        keyToClients := IndexPut(keyToClients, v[i].key, c, i);
      }
      assert v[..|v|] == v;
    }

    method Remove(c: Client)
      requires Valid()
      modifies this
      ensures Valid() && idToKey == RemoveClient(old(idToKey), c)
    {
      idToKey := idToKey - {c};
      RemoveClientFromKeyIndices(c);
    }

    /** The common tail of the removals: store the filtered vector and repair the index. */
    method Store(c: Client, v: seq<Ids>)
      requires Valid()
      modifies this
      ensures Valid() && idToKey == Put(old(idToKey), c, v)
    {
      if v == [] {
        idToKey := idToKey - {c};
        RemoveClientFromKeyIndices(c);
      } else {
        idToKey := idToKey[c := v];
        RebuildClientKeyIndices(c);
      }
    }

    method RemoveMappingForClientAndKey(c: Client, key: Key)
      requires Valid()
      modifies this
      ensures Valid() && idToKey == RemoveClientAndKey(old(idToKey), c, key)
    {
      if c in idToKey {
        Store(c, WithoutKey(idToKey[c], key));
      }
    }

    method RemoveMappingOf(c: Client, remote: Handle)
      requires Valid()
      modifies this
      ensures Valid() && idToKey == RemoveMapping(old(idToKey), c, remote)
    {
      if c in idToKey {
        Store(c, WithoutRemote(idToKey[c], remote));
      }
    }

    method RemoveAllOf(key: Key)
      requires Valid()
      modifies this
      ensures Valid() && idToKey == RemoveService(old(idToKey), key)
    {
      ghost var t := idToKey;
      var todo := idToKey.Keys;
      while todo != {}
        invariant Valid()
        invariant todo <= t.Keys
        invariant forall c: Client :: EntriesOf(idToKey, c) ==
                    if c in todo then t[c] else WithoutKey(EntriesOf(t, c), key)
        decreases todo
      {
        var c :| c in todo;
        todo := todo - {c};
        assert EntriesOf(idToKey, c) == t[c] && t[c] != [];
        Store(c, WithoutKey(idToKey[c], key));
      }
      SameEntriesSameTable(idToKey, RemoveService(t, key));
    }
  }
}
