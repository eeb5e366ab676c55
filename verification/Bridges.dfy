/** Registration of a bridge for the requests the runtime has, while other threads change these requests
    whenever the lock is released (runtime_impl.cpp). */
module Bridges {
  import opened Prelude

  datatype Request = Request(interface: string, instance: string)

  type Bridge = nat

  /** What a bridge returns for a request. */
  type Handle = nat

  /** The bridges of a request; its owner may be gone already. */
  datatype Holder = Expired | Held(bridges: map<Bridge, Handle>)

  type Requests = map<Request, Holder>

  /** emplace does not overwrite. */
  function Emplace(m: map<Bridge, Handle>, bridge: Bridge, handle: Handle): map<Bridge, Handle> {
    if bridge in m then m else m[bridge := handle]
  }

  function Attach(h: Holder, bridge: Bridge, handle: Handle): Holder {
    if h.Held? then Held(Emplace(h.bridges, bridge, handle)) else h
  }

  /** The map after the merge of a round that called the bridge for `called`. */
  function Merged(m: Requests, called: set<Request>, bridge: Bridge, create: Request -> Handle): Requests {
    map r | r in m :: if r in called then Attach(m[r], bridge, create(r)) else m[r]
  }

  function Elements(s: seq<Request>): set<Request> {
    set r | r in s
  }

  predicate Distinct(s: seq<Request>) {
    forall i, j :: 0 <= i < j < |s| ==> s[i] != s[j]
  }

  /** A registration: the requests at the start, what the bridge answers, and what the other threads make of the
      requests while the lock is released for the n-th time. */
  datatype Run = Run(start: Requests, bridge: Bridge, create: Request -> Handle, others: (nat, Requests) -> Requests)

  /** The requests when the lock is released for the n-th time. */
  ghost function Locked(run: Run, n: nat): Requests
    decreases n, 0
  {
    if n == 0 then run.start else Merged(Found(run, n - 1), Called(run, n - 1), run.bridge, run.create)
  }

  /** The requests when the lock is taken again. */
  ghost function Found(run: Run, n: nat): Requests
    decreases n, 1
  {
    run.others(n, Locked(run, n))
  }

  /** Every request that was in the map at the start or was found by one of the first `n` rounds. */
  ghost function Seen(run: Run, n: nat): set<Request>
    decreases n, 0
  {
    if n == 0 then run.start.Keys else Seen(run, n - 1) + Found(run, n - 1).Keys
  }

  /** The requests that are new in round `n`. */
  ghost function Called(run: Run, n: nat): set<Request>
    decreases n, 0
  {
    if n == 0 then run.start.Keys else Found(run, n - 1).Keys - Seen(run, n - 1)
  }

  method KeysOf(m: Requests) returns (keys: seq<Request>)
    ensures Distinct(keys) && Elements(keys) == m.Keys
  {
    keys := [];
    var rest := m.Keys;
    while rest != {}
      invariant rest <= m.Keys && Distinct(keys) && Elements(keys) == m.Keys - rest
      decreases rest
    {
      var r :| r in rest;
      assert Elements(keys + [r]) == Elements(keys) + {r};
      keys := keys + [r];
      rest := rest - {r};
    }
  }

  /** One pass over the map with the lock held: merge the results and collect what is new. */
  method Merge(m: Requests, results: map<Request, Handle>, done: set<Request>, bridge: Bridge)
    returns (merged: Requests, todo: seq<Request>)
    requires results.Keys <= done
    ensures merged.Keys == m.Keys
    ensures forall r :: r in m ==> merged[r] == if r in results then Attach(m[r], bridge, results[r]) else m[r]
    ensures Distinct(todo) && Elements(todo) == m.Keys - done
  {
    merged := m;
    todo := [];
    var rest := m.Keys;
    while rest != {}
      invariant rest <= m.Keys == merged.Keys
      invariant forall r :: r in rest ==> merged[r] == m[r]
      invariant forall r :: r in m && r !in rest ==>
                  merged[r] == if r in results then Attach(m[r], bridge, results[r]) else m[r]
      invariant Distinct(todo) && Elements(todo) == m.Keys - rest - done
      decreases rest
    {
      var r :| r in rest;
      if r !in results {
        if r !in done {
          assert Elements(todo + [r]) == Elements(todo) + {r};
          todo := todo + [r];
        }
      } else if m[r].Held? {
        merged := merged[r := Held(Emplace(m[r].bridges, bridge, results[r]))];
      }
      rest := rest - {r};
    }
  }

  /** Call the bridge for each request of the round, without the lock. */
  method CallAll(todo: seq<Request>, create: Request -> Handle, done: set<Request>)
    returns (results: map<Request, Handle>, done': set<Request>)
    ensures results.Keys == Elements(todo) && done' == done + Elements(todo)
    ensures forall r :: r in results ==> results[r] == create(r)
  {
    results := map[];
    done' := done;
    for i := 0 to |todo|
      invariant results.Keys == Elements(todo[..i]) && done' == done + Elements(todo[..i])
      invariant forall r :: r in results ==> results[r] == create(r)
    {
      assert todo[..i + 1] == todo[..i] + [todo[i]];
      results := results[todo[i] := create(todo[i])];
      done' := done' + {todo[i]};
    }
    assert todo[..|todo|] == todo;
  }

  // The whole registration.

  /** All requests come from a finite universe. */
  ghost predicate Within(run: Run, universe: set<Request>) {
    run.start.Keys <= universe && forall n: nat, m: Requests :: m.Keys <= universe ==> run.others(n, m).Keys <= universe
  }

  /** After `n` rounds: the calls cover what was seen before the last, and `todo` is what that one found new. */
  ghost predicate Progress(run: Run, n: nat, calls: seq<Request>, todo: seq<Request>, done: set<Request>) {
    && Distinct(calls) && Distinct(todo) && done == Elements(calls) && done !! Elements(todo)
    && done == (if n == 0 then {} else Seen(run, n - 1))
    && Elements(todo) == Called(run, n)
    && (forall m :: 0 < m < n ==> Called(run, m) != {})
  }

  lemma ElementsOfSum(a: seq<Request>, b: seq<Request>)
    ensures Elements(a + b) == Elements(a) + Elements(b)
  {
  }

  lemma DistinctSum(a: seq<Request>, b: seq<Request>)
    requires Distinct(a) && Distinct(b) && Elements(a) !! Elements(b)
    ensures Distinct(a + b)
  {
    forall i, j | 0 <= i < j < |a + b| ensures (a + b)[i] != (a + b)[j] {
      if i < |a| <= j { assert (a + b)[i] in Elements(a) && (a + b)[j] in Elements(b); }
    }
  }

  lemma RoundSees(run: Run, n: nat, calls: seq<Request>, todo: seq<Request>, done: set<Request>)
    requires Progress(run, n, calls, todo, done)
    ensures done + Elements(todo) == Seen(run, n)
  {
  }

  lemma RoundProgresses(run: Run, n: nat, calls: seq<Request>, todo: seq<Request>, done: set<Request>,
                        next: seq<Request>)
    requires Progress(run, n, calls, todo, done) && (n == 0 || todo != [])
    requires Distinct(next) && Elements(next) == Found(run, n).Keys - (done + Elements(todo))
    ensures Progress(run, n + 1, calls + todo, next, done + Elements(todo))
  {
    ElementsOfSum(calls, todo);
    DistinctSum(calls, todo);
    RoundSees(run, n, calls, todo, done);
    forall m | 0 < m < n + 1 ensures Called(run, m) != {} {
      if m == n { assert todo[0] in Called(run, n); }
    }
    assert Called(run, n + 1) == Found(run, n).Keys - Seen(run, n);
  }

  lemma AllCalled(run: Run, n: nat, calls: seq<Request>, done: set<Request>)
    requires n > 0 && Progress(run, n, calls, [], done)
    ensures Called(run, n) == {} && Elements(calls) == Seen(run, n)
    ensures forall r :: r in Found(run, n - 1) ==> r in calls
  {
    forall r | r in Found(run, n - 1) ensures r in Elements(calls) {
      assert r !in Called(run, n);
    }
  }

  lemma MergedIs(m: Requests, merged: Requests, results: map<Request, Handle>, bridge: Bridge,
                 create: Request -> Handle)
    requires merged.Keys == m.Keys && forall r :: r in results ==> results[r] == create(r)
    requires forall r :: r in m ==> merged[r] == if r in results then Attach(m[r], bridge, results[r]) else m[r]
    ensures merged == Merged(m, results.Keys, bridge, create)
  {
  }

  lemma DoneGrows(todo: seq<Request>, before: set<Request>, universe: set<Request>)
    requires todo != [] && before !! Elements(todo) && Elements(todo) <= universe
    ensures universe - (before + Elements(todo)) < universe - before
  {
    assert todo[0] in Elements(todo);
    assert todo[0] in universe - before;
  }

  lemma {:induction false} SeenWithin(run: Run, n: nat, universe: set<Request>)
    requires Within(run, universe)
    ensures Locked(run, n).Keys <= universe && Seen(run, n) <= universe && Called(run, n) <= universe
  {
    if n > 0 {
      SeenWithin(run, n - 1, universe);
      assert Found(run, n - 1).Keys <= universe;
    }
  }

  /** One round: call the bridge without the lock, then take the lock and merge. */
  method Round(run: Run, n: nat, m: Requests, calls: seq<Request>, todo: seq<Request>, done: set<Request>)
    returns (m': Requests, calls': seq<Request>, todo': seq<Request>, done': set<Request>)
    requires m == Locked(run, n) && Progress(run, n, calls, todo, done) && (n == 0 || todo != [])
    ensures m' == Locked(run, n + 1) && Progress(run, n + 1, calls', todo', done')
    ensures done' == done + Elements(todo)
  {
    var results;
    results, done' := CallAll(todo, run.create, done);
    var found := run.others(n, m);
    m', todo' := Merge(found, results, done', run.bridge);
    MergedIs(found, m', results, run.bridge, run.create);
    calls' := calls + todo;
    RoundProgresses(run, n, calls, todo, done, todo');
  }

  /** The loop of register_bridge. It calls the bridge for each request that was ever seen exactly once, goes on as
      long as a round finds new requests, and ends with all requests in the map called. */
  method RegisterBridge(run: Run, ghost universe: set<Request>)
    returns (end: Requests, calls: seq<Request>, rounds: nat)
    requires Within(run, universe)
    ensures rounds > 0 && end == Locked(run, rounds)
    ensures Distinct(calls) && Elements(calls) == Seen(run, rounds)
    ensures forall n :: 0 < n < rounds ==> Called(run, n) != {}
    ensures Called(run, rounds) == {}
    ensures forall r :: r in end ==> r in calls
  {
    var done: set<Request> := {};
    var todo := KeysOf(run.start);
    end, calls, rounds := run.start, [], 0;
    while todo != [] || rounds == 0
      invariant end == Locked(run, rounds) && Progress(run, rounds, calls, todo, done)
      decreases universe - done, rounds == 0
    {
      SeenWithin(run, rounds, universe);
      if todo != [] { DoneGrows(todo, done, universe); }
      end, calls, todo, done := Round(run, rounds, end, calls, todo, done);
      rounds := rounds + 1;
    }
    AllCalled(run, rounds, calls, done);
    assert end.Keys == Found(run, rounds - 1).Keys;
  }

  // Whether the bridge is attached to the requests that are left.

  predicate Has(h: Holder, bridge: Bridge) {
    h.Held? && bridge in h.bridges
  }

  /** Other threads leave the bridge with the requests that have it. */
  ghost predicate Keeps(run: Run) {
    forall n: nat, r: Request :: r in Locked(run, n) && Has(Locked(run, n)[r], run.bridge) && Present(run, r, n) ==>
      Has(Found(run, n)[r], run.bridge)
  }

  /** The request is in the map, with its owner, when round `n` takes the lock. */
  ghost predicate Present(run: Run, r: Request, n: nat) {
    r in Found(run, n) && Found(run, n)[r].Held?
  }

  /** A request that stays in the map from the round that calls the bridge for it on has the bridge attached. */
  lemma {:induction false} StayingRequestIsAttached(run: Run, r: Request, c: nat, n: nat)
    requires Keeps(run) && c < n && r in Called(run, c) && forall m :: c <= m < n ==> Present(run, r, m)
    ensures r in Locked(run, n) && Has(Locked(run, n)[r], run.bridge)
    decreases n
  {
    assert Present(run, r, n - 1);
    if n - 1 > c {
      StayingRequestIsAttached(run, r, c, n - 1);
    }
  }

  /** The request is in the map with the bridge attached. */
  predicate Attached(m: Requests, r: Request, bridge: Bridge) {
    r in m && Has(m[r], bridge)
  }

  /** The handle a bridge has in a request. */
  function HandleAt(m: Requests, r: Request, bridge: Bridge): Option<Handle> {
    if Attached(m, r, bridge) then Some(m[r].bridges[bridge]) else None
  }

  /** A round leaves the requests, their owners and the handles of all other bridges as it finds them. */
  lemma OtherBridgesAreKept(run: Run, n: nat, r: Request, b: Bridge)
    requires b != run.bridge
    ensures r in Locked(run, n + 1) <==> r in Found(run, n)
    ensures r in Found(run, n) ==> (Locked(run, n + 1)[r].Held? <==> Found(run, n)[r].Held?)
    ensures HandleAt(Locked(run, n + 1), r, b) == HandleAt(Found(run, n), r, b)
  {
  }

  /** Where a round attaches its bridge the handle is the bridge's answer; a handle that is there stays. */
  lemma RoundStoresTheAnswer(run: Run, n: nat, r: Request)
    ensures HandleAt(Locked(run, n + 1), r, run.bridge) ==
            if HandleAt(Found(run, n), r, run.bridge).Some? then HandleAt(Found(run, n), r, run.bridge)
            else if r in Called(run, n) && Present(run, r, n) then Some(run.create(r))
            else None
  {
  }

  /** Whatever the others leave alone, the whole registration leaves alone: it takes no other bridge's request. */
  lemma {:induction false} OtherBridgesSurvive(run: Run, n: nat, r: Request, b: Bridge)
    requires b != run.bridge
    requires forall m: nat :: m < n ==> HandleAt(Found(run, m), r, b) == HandleAt(Locked(run, m), r, b)
    ensures HandleAt(Locked(run, n), r, b) == HandleAt(run.start, r, b)
  {
    if n > 0 {
      OtherBridgesSurvive(run, n - 1, r, b);
      OtherBridgesAreKept(run, n - 1, r, b);
    }
  }

  /** Other threads neither attach this bridge, nor take it away from requests that stay, nor change its handle. */
  ghost predicate Neutral(run: Run) {
    && (forall r: Request :: !Attached(run.start, r, run.bridge))
    && forall n: nat, r: Request {:trigger Present(run, r, n)} ::
         HandleAt(Found(run, n), r, run.bridge) ==
         if Present(run, r, n) then HandleAt(Locked(run, n), r, run.bridge) else None
  }

  /** Round `c` calls the bridge for the request, which is then in the map until round `n`. */
  ghost predicate StaysFrom(run: Run, r: Request, c: nat, n: nat) {
    c < n && r in Called(run, c) && forall m :: c <= m < n ==> Present(run, r, m)
  }

  lemma MergeAttaches(run: Run, r: Request, n: nat)
    requires Neutral(run)
    ensures Attached(Locked(run, n + 1), r, run.bridge) <==>
            Present(run, r, n) && (r in Called(run, n) || Attached(Locked(run, n), r, run.bridge))
  {
    RoundStoresTheAnswer(run, n, r);
  }

  /** After `n` rounds the bridge is attached exactly to the requests that stayed from the round that called it for
      them on. */
  lemma {:induction false} AttachedIff(run: Run, r: Request, n: nat)
    requires Neutral(run)
    ensures Attached(Locked(run, n), r, run.bridge) <==> exists c: nat :: StaysFrom(run, r, c, n)
  {
    if n > 0 {
      AttachedIff(run, r, n - 1);
      MergeAttaches(run, r, n - 1);
      if Present(run, r, n - 1) && r in Called(run, n - 1) {
        assert StaysFrom(run, r, n - 1, n);
      } else if Present(run, r, n - 1) && Attached(Locked(run, n - 1), r, run.bridge) {
        var c: nat :| StaysFrom(run, r, c, n - 1);
        assert StaysFrom(run, r, c, n);
      }
      if c: nat :| StaysFrom(run, r, c, n) {
        assert Present(run, r, n - 1);
        if c < n - 1 { assert StaysFrom(run, r, c, n - 1); }
      }
    }
  }

  /** What is attached is the answer of the bridge for that request. */
  lemma {:induction false} AttachedIsTheAnswer(run: Run, r: Request, n: nat)
    requires Neutral(run)
    ensures HandleAt(Locked(run, n), r, run.bridge) ==
            if exists c: nat :: StaysFrom(run, r, c, n) then Some(run.create(r)) else None
  {
    AttachedIff(run, r, n);
    if n > 0 {
      AttachedIsTheAnswer(run, r, n - 1);
      RoundStoresTheAnswer(run, n - 1, r);
      assert HandleAt(Found(run, n - 1), r, run.bridge) ==
             if Present(run, r, n - 1) then HandleAt(Locked(run, n - 1), r, run.bridge) else None;
    }
  }

  const ALPHA := Request("alpha", "")

  const BETA := Request("beta", "")

  /** Other threads withdraw `ALPHA` and request `BETA` first, and then request `ALPHA` again. */
  function Changes(n: nat, m: Requests): Requests {
    if n == 0 then map[BETA := Held(map[])] else m[ALPHA := Held(map[])]
  }

  function Missing(bridge: Bridge, create: Request -> Handle): Run {
    Run(map[ALPHA := Held(map[])], bridge, create, Changes)
  }

  /** A request that is away when the round that called the bridge for it is merged, and comes back while a later
      round is under way, is neither called again nor attached by the loop: that is left to the thread that
      requests it again. */
  lemma ReturningRequestIsMissed(bridge: Bridge, create: Request -> Handle)
    ensures var run := Missing(bridge, create);
            && Called(run, 1) == {BETA} && Called(run, 2) == {}
            && ALPHA in Locked(run, 2) && Locked(run, 2)[ALPHA] == Held(map[])
  {
    var run := Missing(bridge, create);
    assert Found(run, 0) == map[BETA := Held(map[])];
    assert Seen(run, 0) == {ALPHA};
    assert Called(run, 1) == {BETA};
    assert Seen(run, 1) == {ALPHA, BETA};
    assert Locked(run, 1).Keys == {BETA};
    assert Found(run, 1) == Changes(1, Locked(run, 1));
    assert Found(run, 1).Keys == {ALPHA, BETA};
  }
}
