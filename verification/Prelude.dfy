/** Types and facts shared by the models. */
module Prelude {

  datatype Option<+T> = None | Some(value: T)

  datatype Result<+T, +E> = Ok(value: T) | Err(error: E)

  type Byte = bv8

  /** Names a pair of service and instance. */
  type Key = nat

  /** Every second element, from the first on, is `first`, and no other is. */
  ghost predicate Alternates<T>(xs: seq<T>, first: T) {
    forall i :: 0 <= i < |xs| ==> (xs[i] == first <==> i % 2 == 0)
  }

  function One(b: bool): nat {
    if b then 1 else 0
  }

  /** Two sets that differ at most in `t`. */
  lemma CountOne<T>(before: set<T>, after: set<T>, t: T, was: bool, now: bool)
    requires forall u :: u != t ==> (u in before <==> u in after)
    requires (was <==> t in before) && (now <==> t in after)
    ensures |after| == |before| - One(was) + One(now)
  {
    var rest := before - {t};
    assert before == if was then rest + {t} else rest;
    assert after == if now then rest + {t} else rest;
  }

  /** The sum over a map. */
  ghost function Total<K, V>(m: map<K, V>, left: V -> nat): nat
    decreases |m|
  {
    if m == map[] then 0 else
      var k :| k in m;
      assert (m - {k}).Keys == m.Keys - {k};
      left(m[k]) + Total(m - {k}, left)
  }

  lemma {:induction false} TotalTake<K, V>(m: map<K, V>, left: V -> nat, k: K)
    requires k in m
    ensures Total(m, left) == left(m[k]) + Total(m - {k}, left)
    decreases |m|
  {
    var j :| j in m && Total(m, left) == left(m[j]) + Total(m - {j}, left);
    assert (m - {j}).Keys == m.Keys - {j};
    if j != k {
      assert (m - {k}).Keys == m.Keys - {k};
      TotalTake(m - {j}, left, k);
      TotalTake(m - {k}, left, j);
      assert m - {j} - {k} == m - {k} - {j};
    }
  }

  lemma PutTwice<K, V>(m: map<K, V>, k: K, v: V, w: V)
    ensures m[k := v][k := w] == m[k := w]
  {
  }

  /** Something is put in at time `i` and not taken out from then to time `t`. */
  ghost predicate PutAndKept(i: nat, t: nat, puts: nat -> bool, takes: nat -> bool) {
    i < t && puts(i) && forall j: nat :: i < j < t ==> !takes(j)
  }

  /** It was put in some time before `t` and kept. */
  ghost predicate KeptSincePut(t: nat, puts: nat -> bool, takes: nat -> bool) {
    exists i: nat :: PutAndKept(i, t, puts, takes)
  }

  /** Step `i` puts it in, or leaves it in unless it takes it out. */
  ghost predicate FollowsAt(i: nat, isIn: nat -> bool, puts: nat -> bool, takes: nat -> bool) {
    isIn(i + 1) <==> puts(i) || (isIn(i) && !takes(i))
  }

  ghost predicate Follows(t: nat, isIn: nat -> bool, puts: nat -> bool, takes: nat -> bool) {
    forall i: nat :: i < t ==> FollowsAt(i, isIn, puts, takes)
  }

  /** What each step puts in, or leaves in unless it takes it out, is in exactly when it was put in at some time and not
      taken out since. */
  lemma {:induction false} InIffPutAndKept(t: nat, isIn: nat -> bool, puts: nat -> bool, takes: nat -> bool)
    requires !isIn(0) && Follows(t, isIn, puts, takes)
    ensures isIn(t) <==> KeptSincePut(t, puts, takes)
  {
    if t > 0 {
      InIffPutAndKept(t - 1, isIn, puts, takes);
      assert FollowsAt(t - 1, isIn, puts, takes);
      if puts(t - 1) {
        assert PutAndKept(t - 1, t, puts, takes);
      } else if isIn(t) {
        var i: nat :| PutAndKept(i, t - 1, puts, takes);
        assert PutAndKept(i, t, puts, takes);
      } else if i: nat :| PutAndKept(i, t, puts, takes) {
        assert PutAndKept(i, t - 1, puts, takes);
      }
    }
  }

  ghost predicate KeepsAt(m: nat, p: nat -> bool) {
    p(m) ==> p(m + 1)
  }

  ghost predicate KeepsFrom(i: nat, j: nat, p: nat -> bool) {
    forall m: nat :: i <= m < j ==> KeepsAt(m, p)
  }

  lemma {:induction false} Persists(i: nat, j: nat, p: nat -> bool)
    requires i <= j && p(i) && KeepsFrom(i, j, p)
    ensures p(j)
  {
    if i < j {
      Persists(i, j - 1, p);
      assert KeepsAt(j - 1, p);
    }
  }
}
