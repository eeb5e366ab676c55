/** A payload is a window on a buffer: lead bytes, a header and the data, with a callback to be made once when the
    memory is given up (payload.hpp). */
module Payloads {
  import opened Prelude

  /** Names the callback given at construction. */
  type Destroyed = nat

  /** What a payload shows. */
  datatype View = View(header: seq<Byte>, data: seq<Byte>)

  /** shrink keeps a prefix of the data, and refuses to make it longer. */
  function Shrunk(v: View, size: nat): View {
    if size <= |v.data| then v.(data := v.data[..size]) else v
  }

  function ShrunkBy(v: View, sizes: seq<nat>): View {
    if sizes == [] then v else Shrunk(ShrunkBy(v, sizes[..|sizes| - 1]), sizes[|sizes| - 1])
  }

  function Least(bound: nat, sizes: seq<nat>): nat {
    if sizes == [] then bound else
      var least := Least(bound, sizes[..|sizes| - 1]);
      if sizes[|sizes| - 1] <= least then sizes[|sizes| - 1] else least
  }

  /** However often a payload is shrunk, it shows the header it had and the prefix of the data that the smallest size
      asked for leaves. */
  lemma {:induction false} ShrinkingKeepsAPrefix(v: View, sizes: seq<nat>)
    ensures Least(|v.data|, sizes) <= |v.data|
    ensures ShrunkBy(v, sizes) == View(v.header, v.data[..Least(|v.data|, sizes)])
  {
    if sizes != [] {
      ShrinkingKeepsAPrefix(v, sizes[..|sizes| - 1]);
    }
  }

  /** A size is the least of a list with the bound exactly when it is among them and none is smaller. */
  lemma {:induction false} LeastIsLeast(bound: nat, sizes: seq<nat>)
    ensures Least(bound, sizes) == bound || Least(bound, sizes) in sizes
    ensures Least(bound, sizes) <= bound && forall size :: size in sizes ==> Least(bound, sizes) <= size
  {
    if sizes != [] {
      LeastIsLeast(bound, sizes[..|sizes| - 1]);
      assert sizes == sizes[..|sizes| - 1] + [sizes[|sizes| - 1]];
    }
  }

  class Payload {
    var buffer: array<Byte>
    var length: nat
    var lead: nat
    var header: nat
    var destroyed: Option<Destroyed>

    ghost predicate Valid()
      reads this
    {
      lead + header <= length <= buffer.Length
    }

    ghost function Value(): View
      requires Valid()
      reads this, buffer
    {
      View(buffer[lead..lead + header], buffer[lead + header..length])
    }

    constructor (buffer: array<Byte>, lead: nat, header: nat, destroyed: Option<Destroyed>)
      requires lead + header <= buffer.Length
      ensures Valid() && this.buffer == buffer && this.destroyed == destroyed
      ensures Value() == View(buffer[lead..lead + header], buffer[lead + header..])
    {
      this.buffer, this.length, this.lead, this.header := buffer, buffer.Length, lead, header;
      this.destroyed := destroyed;
    }

    /** Move construction takes over the window and the callback. */
    constructor MoveFrom(other: Payload)
      requires other.Valid()
      modifies other`destroyed
      ensures Valid() && other.Valid() && Value() == old(other.Value()) && destroyed == old(other.destroyed)
      ensures other.destroyed == None && other.Value() == old(other.Value())
    {
      buffer, length, lead, header := other.buffer, other.length, other.lead, other.header;
      destroyed := other.destroyed;
      new;
      other.destroyed := None;
    }

    method Data() returns (r: seq<Byte>)
      requires Valid()
      ensures r == Value().data
    {
      r := buffer[lead + header..length];
    }

    method Shrink(size: nat) returns (ok: bool)
      requires Valid()
      modifies this`length
      ensures Valid() && ok == (size <= |old(Value()).data|)
      ensures Value() == Shrunk(old(Value()), size)
    {
      if size > length - (lead + header) {
        return false;
      }
      assert buffer[lead + header..length][..size] == buffer[lead + header..lead + header + size];
      length := lead + header + size;
      return true;
    }

    /** Move assignment gives up the own memory first and takes over the other's callback; onto itself it does
        nothing. */
    method Assign(other: Payload) returns (called: Option<Destroyed>)
      requires Valid() && other.Valid()
      modifies this, other`destroyed
      ensures Valid() && other.Valid()
      ensures other == this ==> called == None && unchanged(this)
      ensures other != this ==> Value() == old(other.Value()) && destroyed == old(other.destroyed) &&
                                called == old(destroyed) && other.destroyed == None
    {
      if other == this {
        return None;
      }
      called := destroyed;
      buffer, length, lead, header := other.buffer, other.length, other.lead, other.header;
      destroyed := other.destroyed;
      other.destroyed := None;
    }
  }

  // How often the callbacks of any number of payloads are made.

  type Name = nat

  datatype Use =
    | MakeEmpty(p: Name)
    | Make(p: Name, destroyed: Destroyed)
    | MakeFrom(from: Name, to: Name)
    | Move(from: Name, to: Name)
    | Drop(p: Name)

  /** The callbacks that payloads hold, and those that were made, in order. */
  datatype Books = Books(held: map<Name, Option<Destroyed>>, made: seq<Destroyed>)

  const NOTHING := Books(map[], [])

  function Give(made: seq<Destroyed>, d: Option<Destroyed>): seq<Destroyed> {
    if d.Some? then made + [d.value] else made
  }

  predicate Allowed(b: Books, use: Use) {
    match use
    case MakeEmpty(p) => p !in b.held
    case Make(p, _) => p !in b.held
    case MakeFrom(from, to) => from in b.held && to !in b.held
    case Move(from, to) => from in b.held && to in b.held
    case Drop(p) => p in b.held
  }

  function Used(b: Books, use: Use): Books
    requires Allowed(b, use)
  {
    match use
    case MakeEmpty(p) => b.(held := b.held[p := None])
    case Make(p, d) => b.(held := b.held[p := Some(d)])
    case MakeFrom(from, to) => b.(held := b.held[to := b.held[from]][from := None])
    case Move(from, to) =>
      if from == to then b
      else Books(b.held[to := b.held[from]][from := None], Give(b.made, b.held[to]))
    case Drop(p) => Books(b.held - {p}, Give(b.made, b.held[p]))
  }

  function Holders(m: map<Name, Option<Destroyed>>, d: Destroyed): set<Name> {
    set p | p in m && m[p] == Some(d)
  }

  function Times(made: seq<Destroyed>, d: Destroyed): nat {
    if made == [] then 0 else Times(made[..|made| - 1], d) + (if made[|made| - 1] == d then 1 else 0)
  }

  /** The callback is in the books this often. */
  function Account(b: Books, d: Destroyed): nat {
    |Holders(b.held, d)| + Times(b.made, d)
  }

  lemma GivenOnce(made: seq<Destroyed>, given: Option<Destroyed>, d: Destroyed)
    ensures Times(Give(made, given), d) == Times(made, d) + One(given == Some(d))
  {
    if given.Some? { assert (made + [given.value])[..|made|] == made; }
  }

  lemma HoldersOfUpdate(m: map<Name, Option<Destroyed>>, p: Name, v: Option<Destroyed>, d: Destroyed)
    ensures |Holders(m[p := v], d)| == |Holders(m, d)| - One(p in m && m[p] == Some(d)) + One(v == Some(d))
  {
    var rest := Holders(m, d) - {p};
    assert Holders(m[p := v], d) == if v == Some(d) then rest + {p} else rest;
  }

  lemma HoldersOfRest(m: map<Name, Option<Destroyed>>, p: Name, d: Destroyed)
    ensures |Holders(m - {p}, d)| == |Holders(m, d)| - One(p in m && m[p] == Some(d))
  {
    assert Holders(m - {p}, d) == Holders(m, d) - {p};
  }

  /** Moving a payload keeps the account of every callback, giving it up makes the callback it held. */
  lemma UseConserves(b: Books, use: Use, d: Destroyed)
    requires Allowed(b, use)
    ensures Account(Used(b, use), d) == Account(b, d) + One(use.Make? && use.destroyed == d)
  {
    match use
    case MakeEmpty(p) => HoldersOfUpdate(b.held, p, None, d);
    case Make(p, e) => HoldersOfUpdate(b.held, p, Some(e), d);
    case MakeFrom(from, to) =>
      HoldersOfUpdate(b.held, to, b.held[from], d);
      HoldersOfUpdate(b.held[to := b.held[from]], from, None, d);
    case Move(from, to) =>
      if from != to {
        GivenOnce(b.made, b.held[to], d);
        HoldersOfUpdate(b.held, to, b.held[from], d);
        HoldersOfUpdate(b.held[to := b.held[from]], from, None, d);
      }
    case Drop(p) =>
      GivenOnce(b.made, b.held[p], d);
      HoldersOfRest(b.held, p, d);
  }

  function HeldBy(b: Books, p: Name): Option<Destroyed> {
    if p in b.held then b.held[p] else None
  }

  /** A callback goes where its payload goes: a payload that is moved from keeps none, one that is moved to has the one
      of the other, and all others keep theirs. */
  lemma CallbacksGoWithTheirPayload(b: Books, use: Use, p: Name)
    requires Allowed(b, use)
    ensures (use.MakeFrom? || use.Move?) && p == use.to ==> HeldBy(Used(b, use), p) == HeldBy(b, use.from)
    ensures (use.MakeFrom? || use.Move?) && p == use.from && use.from != use.to ==> HeldBy(Used(b, use), p) == None
    ensures (use.MakeFrom? || use.Move?) && p != use.from && p != use.to ==> HeldBy(Used(b, use), p) == HeldBy(b, p)
    ensures (use.MakeEmpty? || use.Make? || use.Drop?) && p != use.p ==> HeldBy(Used(b, use), p) == HeldBy(b, p)
    ensures p in Used(b, use).held <==>
            (p in b.held && use != Drop(p)) || ((use.MakeEmpty? || use.Make?) && use.p == p) ||
            (use.MakeFrom? && use.to == p)
  {
  }

  /** The payload whose memory a use gives up. */
  predicate GivesUp(use: Use, p: Name) {
    use == Drop(p) || (use.Move? && use.to == p && use.from != p)
  }

  /** A callback is made exactly when the payload that holds it is destroyed or assigned to. */
  lemma CallbackIsMadeIff(b: Books, use: Use, d: Destroyed)
    requires Allowed(b, use)
    ensures Used(b, use).made == b.made + [d] <==> exists p :: GivesUp(use, p) && HeldBy(b, p) == Some(d)
    ensures Used(b, use).made == b.made <==> !exists p, e :: GivesUp(use, p) && HeldBy(b, p) == Some(e)
  {
    var p := if use.Drop? then use.p else if use.Move? then use.to else 0;
    assert b.made != b.made + [d];
    if GivesUp(use, p) && HeldBy(b, p).Some? {
      var e := HeldBy(b, p).value;
      assert Used(b, use).made == b.made + [e];
      assert (b.made + [e])[|b.made|] == e && (b.made + [d])[|b.made|] == d;
    }
  }

  ghost predicate AllowedRun(b: Books, uses: seq<Use>)
    decreases |uses|
  {
    uses == [] || (Allowed(b, uses[0]) && AllowedRun(Used(b, uses[0]), uses[1..]))
  }

  ghost function After(b: Books, uses: seq<Use>): Books
    requires AllowedRun(b, uses)
    decreases |uses|
  {
    if uses == [] then b else After(Used(b, uses[0]), uses[1..])
  }

  /** How often a payload was constructed with the callback. */
  function Given(uses: seq<Use>, d: Destroyed): nat {
    if uses == [] then 0 else One(uses[0].Make? && uses[0].destroyed == d) + Given(uses[1..], d)
  }

  lemma {:induction false} UsesConserve(b: Books, uses: seq<Use>, d: Destroyed)
    requires AllowedRun(b, uses)
    ensures Account(After(b, uses), d) == Account(b, d) + Given(uses, d)
    decreases |uses|
  {
    if uses != [] {
      UseConserves(b, uses[0], d);
      UsesConserve(Used(b, uses[0]), uses[1..], d);
    }
  }

  /** Over any use of any number of payloads, a callback is made or still held as often as it was given; when all
      payloads are gone it has been made exactly that often. */
  lemma EachCallbackIsMadeOnce(uses: seq<Use>, d: Destroyed)
    requires AllowedRun(NOTHING, uses)
    ensures var b := After(NOTHING, uses);
            && |Holders(b.held, d)| + Times(b.made, d) == Given(uses, d)
            && (b.held == map[] ==> Times(b.made, d) == Given(uses, d))
  {
    UsesConserve(NOTHING, uses, d);
    assert Holders(NOTHING.held, d) == {};
    if After(NOTHING, uses).held == map[] { assert Holders(After(NOTHING, uses).held, d) == {}; }
  }
}
