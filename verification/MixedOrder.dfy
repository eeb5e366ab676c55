/** The order of all callbacks about an event, update requests and subscription changes mixed
    (server_connector_impl.cpp). */
module MixedOrder {
  import opened Prelude
  import opened ServerEvents
  import opened CallbackOrder

  /** What the thread has to say about the event. */
  function Owing(f: Flight, id: EventId, t: Tid): seq<Callback> {
    if t in f.pending then About(f.pending[t], id) else []
  }

  /** Whatever the order, all callbacks about the event arrive as they were decided. */
  ghost predicate NeverMixed(f: Flight, id: EventId) {
    forall order :: Completes(f, order) ==> About(Through(f, order).issued, id) == About(f.decided, id)
  }

  /** Only thread `t` has something to say about the event. */
  ghost predicate OnlyOwes(f: Flight, id: EventId, t: Tid) {
    forall u {:trigger Owing(f, id, u)} :: u != t ==> Owing(f, id, u) == []
  }

  /** One thread at most owes callbacks about the event, and they are the rest of what was decided. */
  ghost predicate OneOwesTheRest(f: Flight, id: EventId) {
    exists t :: OnlyOwes(f, id, t) && About(f.issued, id) + Owing(f, id, t) == About(f.decided, id)
  }

  predicate Says(word: seq<Callback>, x: Callback) {
    forall i :: 0 <= i < |word| ==> word[i] == x
  }

  ghost predicate AllSay(f: Flight, id: EventId, x: Callback) {
    forall t {:trigger Owing(f, id, t)} :: Says(Owing(f, id, t), x)
  }

  /** What arrived is the beginning of what was decided, and the rest and all that is owed is the same callback. */
  ghost predicate SameRest(f: Flight, id: EventId, x: Callback) {
    && About(f.issued, id) <= About(f.decided, id) && AllSay(f, id, x)
    && Says(About(f.decided, id)[|About(f.issued, id)|..], x)
  }

  // One issue.

  lemma IssueAbout(f: Flight, t: Tid, id: EventId)
    requires Ready(f, Issue(t))
    ensures var g, first := Moved(f, Issue(t)), About([f.pending[t][0]], id);
            && Owing(f, id, t) == first + Owing(g, id, t) && |first| <= 1
            && (forall u {:trigger Owing(g, id, u)} :: u != t ==> Owing(g, id, u) == Owing(f, id, u))
            && About(g.issued, id) == About(f.issued, id) + first && g.decided == f.decided
  {
    IssueSplits(f, t, id);
  }

  lemma OneSpeaksOnce(f: Flight, id: EventId, t: Tid, u: Tid)
    requires Ready(f, Issue(u)) && OnlyOwes(f, id, t)
    ensures var g := Moved(f, Issue(u));
            OnlyOwes(g, id, t) && About(g.issued, id) + Owing(g, id, t) == About(f.issued, id) + Owing(f, id, t)
  {
    var g, first := Moved(f, Issue(u)), About([f.pending[u][0]], id);
    IssueAbout(f, u, id);
    if u != t {
      assert Owing(f, id, u) == [] && Owing(g, id, t) == Owing(f, id, t);
    } else {
      assert About(f.issued, id) + first + Owing(g, id, t) == About(f.issued, id) + (first + Owing(g, id, t));
    }
  }

  lemma {:induction false} OneSpeaks(f: Flight, id: EventId, t: Tid, order: seq<Tid>)
    requires CanIssue(f, order) && OnlyOwes(f, id, t)
    ensures var g := Through(f, order);
            OnlyOwes(g, id, t) && About(g.issued, id) + Owing(g, id, t) == About(f.issued, id) + Owing(f, id, t)
    decreases |order|
  {
    if order != [] {
      OneSpeaksOnce(f, id, t, order[0]);
      OneSpeaks(Moved(f, Issue(order[0])), id, t, order[1..]);
    }
  }

  lemma CompleteOwesNothing(f: Flight, id: EventId, order: seq<Tid>)
    requires Completes(f, order)
    ensures forall t {:trigger Owing(Through(f, order), id, t)} :: Owing(Through(f, order), id, t) == []
  {
  }

  // Both conditions are sufficient.

  lemma OneIsNeverMixed(f: Flight, id: EventId)
    requires OneOwesTheRest(f, id)
    ensures NeverMixed(f, id)
  {
    var t :| OnlyOwes(f, id, t) && About(f.issued, id) + Owing(f, id, t) == About(f.decided, id);
    forall order | Completes(f, order) ensures About(Through(f, order).issued, id) == About(f.decided, id) {
      OneSpeaks(f, id, t, order);
      CompleteOwesNothing(f, id, order);
      assert Owing(Through(f, order), id, t) == [];
    }
  }

  function Length(id: EventId): seq<Callback> -> nat {
    calls => |About(calls, id)|
  }

  /** As many callbacks about the event are owed as were decided and not made. */
  ghost predicate Conserves(f: Flight, id: EventId) {
    |About(f.decided, id)| == |About(f.issued, id)| + Total(f.pending, Length(id))
  }

  lemma TotalElsewhere(m: map<Tid, seq<Callback>>, n: map<Tid, seq<Callback>>, t: Tid, id: EventId)
    requires m - {t} == n - {t}
    ensures Total(n, Length(id)) - (if t in n then |About(n[t], id)| else 0) ==
            Total(m, Length(id)) - (if t in m then |About(m[t], id)| else 0)
  {
    if t in m { TotalTake(m, Length(id), t); } else { assert m - {t} == m; }
    if t in n { TotalTake(n, Length(id), t); } else { assert n - {t} == n; }
  }

  lemma IssueConserves(f: Flight, t: Tid, id: EventId)
    requires Conserves(f, id) && Ready(f, Issue(t))
    ensures Conserves(Moved(f, Issue(t)), id)
  {
    var g := Moved(f, Issue(t));
    IssueAbout(f, t, id);
    assert f.pending - {t} == g.pending - {t};
    TotalElsewhere(f.pending, g.pending, t, id);
  }

  lemma BeginConserves(f: Flight, m: Move, id: EventId)
    requires Conserves(f, id) && Ready(f, m) && m.Begin?
    ensures Conserves(Moved(f, m), id)
  {
    var g := Moved(f, m);
    AboutSum(f.decided, Calls(f.tab, m.op), id);
    assert f.pending - {m.t} == g.pending - {m.t};
    TotalElsewhere(f.pending, g.pending, m.t, id);
  }

  lemma NothingLeft(f: Flight, t: Tid, id: EventId)
    requires Conserves(f, id) && t in f.pending
    ensures |About(f.issued, id)| + |Owing(f, id, t)| <= |About(f.decided, id)|
  {
    TotalTake(f.pending, Length(id), t);
  }

  lemma SameStaysSame(f: Flight, id: EventId, t: Tid, x: Callback)
    requires Conserves(f, id) && SameRest(f, id, x) && Ready(f, Issue(t))
    ensures SameRest(Moved(f, Issue(t)), id, x)
  {
    var g, first := Moved(f, Issue(t)), About([f.pending[t][0]], id);
    var issued, decided := About(f.issued, id), About(f.decided, id);
    IssueAbout(f, t, id);
    NothingLeft(f, t, id);
    assert Says(Owing(f, id, t), x);
    if first != [] {
      assert first[0] == Owing(f, id, t)[0] == x && decided[|issued|..][0] == x;
      assert issued + [x] <= decided;
    }
    forall u ensures Says(Owing(g, id, u), x) {
      assert Says(Owing(f, id, u), x);
      if u == t {
        forall i | 0 <= i < |Owing(g, id, t)| ensures Owing(g, id, t)[i] == x {
          assert Owing(g, id, t)[i] == Owing(f, id, t)[i + |first|];
        }
      }
    }
    forall i | 0 <= i < |decided[|issued + first|..]| ensures decided[|issued + first|..][i] == x {
      assert decided[|issued + first|..][i] == decided[|issued|..][i + |first|];
    }
  }

  lemma {:induction false} SameIsNeverMixed(f: Flight, id: EventId, x: Callback, order: seq<Tid>)
    requires Conserves(f, id) && SameRest(f, id, x) && Completes(f, order)
    ensures About(Through(f, order).issued, id) == About(f.decided, id)
    decreases |order|
  {
    if order != [] {
      SameStaysSame(f, id, order[0], x);
      IssueConserves(f, order[0], id);
      SameIsNeverMixed(Moved(f, Issue(order[0])), id, x, order[1..]);
    }
  }

  // One of them is necessary.

  lemma IssueIsNeverMixed(f: Flight, id: EventId, t: Tid)
    requires NeverMixed(f, id) && Ready(f, Issue(t))
    ensures NeverMixed(Moved(f, Issue(t)), id)
  {
    var g := Moved(f, Issue(t));
    forall order | Completes(g, order) ensures About(Through(g, order).issued, id) == About(g.decided, id) {
      assert ([t] + order)[1..] == order;
      assert Completes(f, [t] + order) && Through(f, [t] + order) == Through(g, order);
    }
  }

  /** The first thing a thread has to say about the event is the next that was decided. */
  lemma NextIsOwing(f: Flight, id: EventId, t: Tid)
    requires Listed(f) && NeverMixed(f, id) && Owing(f, id, t) != []
    ensures var k := |About(f.issued, id)|;
            k < |About(f.decided, id)| && About(f.decided, id)[k] == Owing(f, id, t)[0]
  {
    var order := StartWith(f, t);
    var whole, start := Through(f, order).issued, f.issued + f.pending[t];
    AboutSum(start, whole[|start|..], id);
    assert start + whole[|start|..] == whole;
    AboutSum(f.issued, f.pending[t], id);
    var k := |About(f.issued, id)|;
    assert (About(f.issued, id) + Owing(f, id, t))[k] == Owing(f, id, t)[0];
  }

  /** If two threads owe callbacks about the event, each says only what the other says first. */
  lemma {:induction false} TwoSayTheSame(f: Flight, id: EventId, t: Tid, u: Tid)
    requires Listed(f) && NeverMixed(f, id) && t != u && Owing(f, id, t) != [] && Owing(f, id, u) != []
    ensures Says(Owing(f, id, t), Owing(f, id, u)[0])
    decreases |f.pending[t]|
  {
    var g, first := Moved(f, Issue(t)), About([f.pending[t][0]], id);
    var word, x := Owing(f, id, t), Owing(f, id, u)[0];
    NextIsOwing(f, id, t);
    NextIsOwing(f, id, u);
    IssueAbout(f, t, id);
    IssueIsNeverMixed(f, id, t);
    assert Owing(g, id, u) == Owing(f, id, u);
    if Owing(g, id, t) != [] {
      TwoSayTheSame(g, id, t, u);
    }
    forall i | 0 <= i < |word| ensures word[i] == x {
      if i >= |first| { assert word[i] == Owing(g, id, t)[i - |first|]; }
    }
  }

  lemma {:induction false} OnlyThisArrives(f: Flight, id: EventId, x: Callback, order: seq<Tid>)
    requires CanIssue(f, order) && AllSay(f, id, x)
    ensures var issued, all := About(f.issued, id), About(Through(f, order).issued, id);
            issued <= all && Says(all[|issued|..], x)
    decreases |order|
  {
    if order != [] {
      var t := order[0];
      var g, first := Moved(f, Issue(t)), About([f.pending[t][0]], id);
      IssueAbout(f, t, id);
      assert Says(Owing(f, id, t), x);
      forall u ensures Says(Owing(g, id, u), x) {
        assert Says(Owing(f, id, u), x);
        if u == t {
          forall i | 0 <= i < |Owing(g, id, t)| ensures Owing(g, id, t)[i] == x {
            assert Owing(g, id, t)[i] == Owing(f, id, t)[i + |first|];
          }
        }
      }
      OnlyThisArrives(g, id, x, order[1..]);
      var issued, all := About(f.issued, id), About(Through(f, order).issued, id);
      forall i | 0 <= i < |all[|issued|..]| ensures all[|issued|..][i] == x {
        if i < |first| {
          assert all[|issued| + i] == (issued + first)[|issued| + i] == Owing(f, id, t)[i];
        } else {
          assert all[|issued|..][i] == all[|issued + first|..][i - |first|];
        }
      }
    }
  }

  lemma TwoHaveTheSameRest(f: Flight, id: EventId, t: Tid, u: Tid)
    requires Listed(f) && NeverMixed(f, id) && t != u && Owing(f, id, t) != [] && Owing(f, id, u) != []
    ensures SameRest(f, id, Owing(f, id, u)[0])
  {
    var x := Owing(f, id, u)[0];
    NextIsOwing(f, id, t);
    NextIsOwing(f, id, u);
    forall v ensures Says(Owing(f, id, v), x) {
      if Owing(f, id, v) != [] {
        if v != u { TwoSayTheSame(f, id, v, u); } else { TwoSayTheSame(f, id, u, t); }
      }
    }
    var order := DrainAll(f);
    OnlyThisArrives(f, id, x, order);
  }

  lemma OneHasTheRest(f: Flight, id: EventId, t: Tid)
    requires Listed(f) && NeverMixed(f, id) && OnlyOwes(f, id, t)
    ensures OneOwesTheRest(f, id)
  {
    var order := DrainAll(f);
    OneSpeaks(f, id, t, order);
    CompleteOwesNothing(f, id, order);
    assert Owing(Through(f, order), id, t) == [];
  }

  /** Whatever the order, all callbacks about an event arrive as decided exactly when one thread at most owes some and
      they are the rest of what was decided, or all that is owed and the rest is one and the same callback. */
  lemma NeverMixedIff(f: Flight, id: EventId)
    requires Listed(f) && Conserves(f, id)
    ensures NeverMixed(f, id) <==> OneOwesTheRest(f, id) || exists x :: SameRest(f, id, x)
  {
    if OneOwesTheRest(f, id) { OneIsNeverMixed(f, id); }
    if x :| SameRest(f, id, x) {
      forall order | Completes(f, order) ensures About(Through(f, order).issued, id) == About(f.decided, id) {
        SameIsNeverMixed(f, id, x, order);
      }
    }
    if NeverMixed(f, id) {
      if t: Tid, u: Tid :| t != u && Owing(f, id, t) != [] && Owing(f, id, u) != [] {
        TwoHaveTheSameRest(f, id, t, u);
      } else if t: Tid :| Owing(f, id, t) != [] {
        OneHasTheRest(f, id, t);
      } else {
        OneHasTheRest(f, id, 0);
      }
    }
  }

  // Runs.

  lemma {:induction false} RunsConserve(f: Flight, moves: seq<Move>, id: EventId)
    requires Listed(f) && Conserves(f, id) && AnyRun(f, moves)
    ensures Listed(Finally(f, moves)) && Conserves(Finally(f, moves), id)
    decreases |moves|
  {
    if moves != [] {
      if moves[0].Begin? { BeginConserves(f, moves[0], id); } else { IssueConserves(f, moves[0].t, id); }
      RunsConserve(Moved(f, moves[0]), moves[1..], id);
    }
  }

  /** The exact condition after any run of overlapping calls, disable() included. */
  lemma CallbacksAreNeverMixedIff(n: nat, moves: seq<Move>, id: EventId)
    requires AnyRun(Start(n), moves)
    ensures var f := Finally(Start(n), moves);
            NeverMixed(f, id) <==> OneOwesTheRest(f, id) || exists x :: SameRest(f, id, x)
  {
    RunsConserve(Start(n), moves, id);
    NeverMixedIff(Finally(Start(n), moves), id);
  }
}
