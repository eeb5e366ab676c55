/** The two-level table that gives each service/instance pair a key (key.hpp). */
module Keys {
  import opened Prelude

  datatype Service = Service(id: string, major: nat, minor: nat)

  type Instance = string

  datatype Table = Table(keys: map<Service, map<Instance, Key>>, next: Key)

  const EMPTY := Table(map[], 0)

  function Lookup(t: Table, s: Service, i: Instance): Option<Key> {
    if s in t.keys && i in t.keys[s] then Some(t.keys[s][i]) else None
  }

  /** The forward lookup: it creates the key of a pair that has none yet. */
  function Get(t: Table, s: Service, i: Instance): (Table, Key) {
    if Lookup(t, s, i).Some? then
      (t, Lookup(t, s, i).value)
    else
      var row := if s in t.keys then t.keys[s] else map[];
      (Table(t.keys[s := row[i := t.next]], t.next + 1), t.next)
  }

  function GetAll(t: Table, requests: seq<(Service, Instance)>): (Table, seq<Key>)
    decreases requests
  {
    if requests == [] then
      (t, [])
    else
      var (t1, key) := Get(t, requests[0].0, requests[0].1);
      var (t2, keys) := GetAll(t1, requests[1..]);
      (t2, [key] + keys)
  }

  /** No key is given to two pairs, and every key comes from the generator. */
  ghost predicate Valid(t: Table) {
    && (forall s, i :: Lookup(t, s, i).Some? ==> Lookup(t, s, i).value < t.next)
    && (forall s, i, s', i' ::
          Lookup(t, s, i).Some? && Lookup(t, s, i) == Lookup(t, s', i') ==> s == s' && i == i')
  }

  lemma GetExtends(t: Table, s: Service, i: Instance)
    requires Valid(t)
    ensures Valid(Get(t, s, i).0)
    ensures Lookup(Get(t, s, i).0, s, i) == Some(Get(t, s, i).1)
    ensures forall s', i' :: Lookup(t, s', i').Some? ==> Lookup(Get(t, s, i).0, s', i') == Lookup(t, s', i')
  {
    var u := Get(t, s, i).0;
    forall s', i'
      ensures Lookup(u, s', i') ==
              if (s', i') == (s, i) then Some(Get(t, s, i).1) else Lookup(t, s', i')
    {
    }
  }

  /** Each answer of a run of requests is still the key of its pair at the end of the run. */
  lemma {:induction false} AnswersLast(t: Table, requests: seq<(Service, Instance)>)
    requires Valid(t)
    ensures var (u, keys) := GetAll(t, requests);
            && Valid(u)
            && |keys| == |requests|
            && (forall n :: 0 <= n < |keys| ==> Lookup(u, requests[n].0, requests[n].1) == Some(keys[n]))
            && (forall s, i :: Lookup(t, s, i).Some? ==> Lookup(u, s, i) == Lookup(t, s, i))
    decreases requests
  {
    if requests != [] {
      GetExtends(t, requests[0].0, requests[0].1);
      AnswersLast(Get(t, requests[0].0, requests[0].1).0, requests[1..]);
    }
  }

  /** Over every sequence of requests, two answers are equal exactly when the pairs are. */
  lemma KeysAreAStableInjection(requests: seq<(Service, Instance)>, m: nat, n: nat)
    requires m < |requests| && n < |requests|
    ensures var keys := GetAll(EMPTY, requests).1;
            |keys| == |requests| && (keys[m] == keys[n] <==> requests[m] == requests[n])
  {
    AnswersLast(EMPTY, requests);
  }

  class KeyTable {
    var keys: map<Service, map<Instance, Key>>
    var next: Key

    constructor ()
      ensures State() == EMPTY && Valid(State())
    {
      keys, next := map[], 0;
    }

    function State(): Table
      reads this
    {
      Table(keys, next)
    }

    method GetKey(s: Service, i: Instance) returns (key: Key)
      requires Valid(State())
      modifies this
      ensures (State(), key) == Get(old(State()), s, i)
      ensures Valid(State())
    {
      GetExtends(State(), s, i);
      if s in keys && i in keys[s] {
        return keys[s][i];
      }
      key := next;
      next := next + 1;
      keys := keys[s := (if s in keys then keys[s] else map[])[i := key]];
    }

    /** The reverse lookup: a nested search that finds the one pair with the key, if there is one. */
    method Find(key: Key) returns (found: Option<(Service, Instance)>)
      requires Valid(State())
      ensures found.Some? ==> Lookup(State(), found.value.0, found.value.1) == Some(key)
      ensures found.None? ==> forall s, i :: Lookup(State(), s, i) != Some(key)
      ensures forall s, i :: Lookup(State(), s, i) == Some(key) ==> found == Some((s, i))
    {
      var services := keys.Keys;
      while services != {}
        invariant services <= keys.Keys
        invariant forall s, i :: s !in services ==> Lookup(State(), s, i) != Some(key)
        decreases services
      {
        var s :| s in services;
        var instances := keys[s].Keys;
        while instances != {}
          invariant instances <= keys[s].Keys
          invariant forall i :: i !in instances ==> Lookup(State(), s, i) != Some(key)
          decreases instances
        {
          var i :| i in instances;
          if keys[s][i] == key {
            return Some((s, i));
          }
          instances := instances - {i};
        }
        services := services - {s};
      }
      return None;
    }
  }
}
