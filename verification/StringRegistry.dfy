/** String interning (string_registry.cpp): equality of pointer and length stands for equality of content. */
module StringRegistry {

  type Address = nat

  /** A Registry_string_view: compared by pointer and length only. */
  datatype View = View(data: Address, length: nat)

  /** `memory` holds the bytes readable from each address a view may point to. */
  datatype Registry = Registry(memory: map<Address, string>, views: set<View>, next: Address)

  predicate InBounds(r: Registry, v: View) {
    v.data in r.memory && v.length <= |r.memory[v.data]|
  }

  function Content(r: Registry, v: View): string
    requires InBounds(r, v)
  {
    r.memory[v.data][..v.length]
  }

  /** What comparing `data()` with a std::string reads: the bytes before the first NUL. */
  function CString(bytes: string): string {
    if bytes == [] || bytes[0] == '\0' then [] else [bytes[0]] + CString(bytes[1..])
  }

  ghost predicate Valid(r: Registry) {
    && (forall v :: v in r.views ==> InBounds(r, v))
    && (forall a :: a in r.memory ==> a < r.next)
    && (forall u, v :: u in r.views && v in r.views && Content(r, u) == Content(r, v) ==> u == v)
  }

  ghost predicate Terminated(r: Registry, v: View) {
    InBounds(r, v) && '\0' !in Content(r, v) && v.length < |r.memory[v.data]| && r.memory[v.data][v.length] == '\0'
  }

  /** Every entry is NUL-terminated and has no NUL inside. */
  ghost predicate Clean(r: Registry) {
    forall v :: v in r.views ==> Terminated(r, v)
  }

  /** What an insertion of `text` that returned `out` may do to the registry. */
  ghost predicate Inserted(r: Registry, text: string, r': Registry, out: View) {
    && Valid(r')
    && r.memory.Keys <= r'.memory.Keys
    && (forall a :: a in r.memory ==> r'.memory[a] == r.memory[a])
    && r.views <= r'.views <= r.views + {out}
    && out in r'.views
    && Content(r', out) == text
  }

  predicate Matches(r: Registry, v: View, text: string)
    requires InBounds(r, v)
  {
    CString(r.memory[v.data]) == text
  }

  lemma {:induction false} CStringOfTerminated(bytes: string, n: nat)
    requires n < |bytes| && bytes[n] == '\0' && '\0' !in bytes[..n]
    ensures CString(bytes) == bytes[..n]
  {
    if n > 0 {
      assert bytes[0] in bytes[..n];
      assert bytes[1..][..n - 1] == bytes[..n][1..];
      forall c | c in bytes[1..][..n - 1] ensures c in bytes[..n] {}
      CStringOfTerminated(bytes[1..], n - 1);
      assert [bytes[0]] + bytes[1..][..n - 1] == bytes[..n];
    }
  }

  /** The answers the third overload may give: any entry its search can stop at first. */
  ghost predicate MayReturn(r: Registry, text: string, v: View)
    requires Valid(r)
  {
    if exists u :: u in r.views && Matches(r, u, text)
    then v in r.views && Matches(r, v, text)
    else if exists u :: u in r.views && Content(r, u) == text
    then v in r.views && Content(r, v) == text
    else v == View(r.next, |text|)
  }

  ghost predicate NoFalseMatch(r: Registry, text: string)
    requires Valid(r)
  {
    forall u :: u in r.views && Matches(r, u, text) ==> Content(r, u) == text
  }

  ghost predicate AnswersWithContent(r: Registry, text: string, v: View)
    requires Valid(r)
  {
    if v in r.views then Content(r, v) == text else v == View(r.next, |text|)
  }

  /** The owned-string overload answers with the right content exactly when no entry is a false match. */
  lemma OwnedInsertIsRightIff(r: Registry, text: string)
    requires Valid(r)
    ensures (forall v :: MayReturn(r, text, v) ==> AnswersWithContent(r, text, v)) <==> NoFalseMatch(r, text)
  {
    if !NoFalseMatch(r, text) {
      var u :| u in r.views && Matches(r, u, text) && Content(r, u) != text;
      assert MayReturn(r, text, u) && !AnswersWithContent(r, text, u);
    }
  }

  /** Clean entries never give a false match. */
  lemma CleanHasNoFalseMatch(r: Registry, text: string)
    requires Valid(r) && Clean(r)
    ensures NoFalseMatch(r, text)
  {
    forall u | u in r.views && Matches(r, u, text)
      ensures Content(r, u) == text
    {
      CStringOfTerminated(r.memory[u.data], u.length);
    }
  }

  /** A one-byte view of the literal "ab" makes a request for "ab" answer "a". */
  lemma UnterminatedLiteralBreaksInterning()
    ensures var r := Registry(map[0 := "ab\0"], {View(0, 1)}, 1);
            Valid(r) && !NoFalseMatch(r, "ab") && MayReturn(r, "ab", View(0, 1)) && Content(r, View(0, 1)) != "ab"
  {
    var r := Registry(map[0 := "ab\0"], {View(0, 1)}, 1);
    var v := View(0, 1);
    assert "ab\0"[..2] == "ab";
    CStringOfTerminated("ab\0", 2);
    assert v in r.views && Matches(r, v, "ab") && Content(r, v) == "a";
  }

  lemma {:induction false} ViewsStay(states: seq<Registry>, texts: seq<string>, outs: seq<View>, m: nat, n: nat)
    requires |states| == |texts| + 1 == |outs| + 1
    requires forall i :: 0 <= i < |texts| ==> Inserted(states[i], texts[i], states[i + 1], outs[i])
    requires m < n <= |texts|
    ensures outs[m] in states[n].views && InBounds(states[n], outs[m]) && Content(states[n], outs[m]) == texts[m]
    ensures Valid(states[n])
    decreases n
  {
    assert Inserted(states[n - 1], texts[n - 1], states[n], outs[n - 1]);
    if m < n - 1 {
      ViewsStay(states, texts, outs, m, n - 1);
    }
  }

  lemma AnswersAreFaithful(states: seq<Registry>, texts: seq<string>, outs: seq<View>, m: nat, n: nat)
    requires |states| == |texts| + 1 == |outs| + 1
    requires forall i :: 0 <= i < |texts| ==> Inserted(states[i], texts[i], states[i + 1], outs[i])
    requires m < |texts| && n < |texts|
    ensures outs[m] == outs[n] <==> texts[m] == texts[n]
  {
    ViewsStay(states, texts, outs, m, |texts|);
    ViewsStay(states, texts, outs, n, |texts|);
  }

  // Runs of the three overloads.

  datatype Insertion = Literal(view: View) | Text(text: string) | Owned(text: string)

  /** The string in the list of owned strings, before its view is in the set. */
  function WithOwned(r: Registry, text: string): Registry {
    r.(memory := r.memory[r.next := text + "\0"], next := r.next + 1)
  }

  /** emplace on the set: an entry with the content of `v` if there is one, otherwise `v` itself. */
  ghost predicate Emplaced(r: Registry, v: View, r': Registry, out: View)
    requires Valid(r) && InBounds(r, v)
  {
    if exists u :: u in r.views && Content(r, u) == Content(r, v)
    then r' == r && out in r.views && Content(r, out) == Content(r, v)
    else r' == r.(views := r.views + {v}) && out == v
  }

  lemma OwnedIsValid(r: Registry, text: string)
    requires Valid(r)
    ensures var o, v := WithOwned(r, text), View(r.next, |text|);
            && Valid(o) && InBounds(o, v) && Content(o, v) == text && v !in r.views
            && (forall u :: u in r.views ==> Content(o, u) == Content(r, u))
            && (Clean(r) ==> Clean(o)) && ('\0' !in text ==> Terminated(o, v))
  {
    assert (text + "\0")[..|text|] == text;
  }

  /** The new string is owned and its view emplaced. */
  ghost predicate OwnedAndEmplaced(r: Registry, text: string, r': Registry, out: View)
    requires Valid(r)
  {
    OwnedIsValid(r, text);
    Emplaced(WithOwned(r, text), View(r.next, |text|), r', out)
  }

  /** What each overload may answer and leave. */
  ghost predicate Step(r: Registry, op: Insertion, r': Registry, out: View)
    requires Valid(r)
  {
    match op
    case Literal(v) => InBounds(r, v) && Emplaced(r, v, r', out)
    case Text(text) =>
      if exists u :: u in r.views && Content(r, u) == text
      then r' == r && out in r.views && Content(r, out) == text
      else OwnedAndEmplaced(r, text, r', out)
    case Owned(text) =>
      if exists u :: u in r.views && Matches(r, u, text)
      then r' == r && out in r.views && Matches(r, out, text)
      else OwnedAndEmplaced(r, text, r', out)
  }

  /** The text an insertion is for. Literals are in memory from the start. */
  function TextOf(start: Registry, op: Insertion): string
    requires op.Literal? ==> InBounds(start, op.view)
  {
    if op.Literal? then Content(start, op.view) else op.text
  }

  /** Literals are NUL-terminated at their length, and no text has a NUL inside. */
  ghost predicate CleanInput(start: Registry, op: Insertion) {
    match op
    case Literal(v) => Terminated(start, v)
    case Text(text) => '\0' !in text
    case Owned(text) => '\0' !in text
  }

  /** What was in memory stays there. */
  ghost predicate Extends(start: Registry, r: Registry) {
    start.memory.Keys <= r.memory.Keys && forall a :: a in start.memory ==> r.memory[a] == start.memory[a]
  }

  lemma EmplaceInserts(r: Registry, v: View, r': Registry, out: View)
    requires Valid(r) && InBounds(r, v) && Emplaced(r, v, r', out)
    ensures Inserted(r, Content(r, v), r', out)
    ensures Clean(r) && Terminated(r, v) ==> Clean(r')
  {
  }

  lemma OwnedInserts(r: Registry, text: string, r': Registry, out: View)
    requires Valid(r) && Clean(r) && '\0' !in text && OwnedAndEmplaced(r, text, r', out)
    ensures Inserted(r, text, r', out) && Clean(r')
  {
    OwnedIsValid(r, text);
    EmplaceInserts(WithOwned(r, text), View(r.next, |text|), r', out);
  }

  /** On clean registries and clean inputs each overload inserts what it is given and leaves a clean registry. */
  lemma StepInserts(start: Registry, r: Registry, op: Insertion, r': Registry, out: View)
    requires Valid(r) && Clean(r) && Extends(start, r) && CleanInput(start, op) && Step(r, op, r', out)
    ensures Inserted(r, TextOf(start, op), r', out) && Clean(r') && Extends(start, r')
  {
    match op
    case Literal(v) => EmplaceInserts(r, v, r', out);
    case Text(text) =>
      if !exists u :: u in r.views && Content(r, u) == text { OwnedInserts(r, text, r', out); }
    case Owned(text) =>
      CleanHasNoFalseMatch(r, text);
      if !exists u :: u in r.views && Matches(r, u, text) { OwnedInserts(r, text, r', out); }
  }

  /** The registry after the constructor: literals in memory, no entries. */
  predicate Fresh(r: Registry) {
    r.views == {} && forall a :: a in r.memory ==> a < r.next
  }

  /** `outs` are answers the calls `ops` can give, one after the other, from a fresh registry. */
  ghost predicate RunOf(states: seq<Registry>, ops: seq<Insertion>, outs: seq<View>) {
    && |states| == |ops| + 1 == |outs| + 1 && Fresh(states[0])
    && forall i :: 0 <= i < |ops| ==> StepAt(states[i], ops[i], states[i + 1], outs[i])
  }

  ghost predicate StepAt(r: Registry, op: Insertion, r': Registry, out: View) {
    Valid(r) ==> Step(r, op, r', out)
  }

  ghost predicate CleanInputs(start: Registry, ops: seq<Insertion>) {
    forall i :: 0 <= i < |ops| ==> CleanInput(start, ops[i])
  }

  /** Along every run with clean inputs the registry stays valid and clean. */
  lemma {:induction false} RunsStayClean(states: seq<Registry>, ops: seq<Insertion>, outs: seq<View>, n: nat)
    requires RunOf(states, ops, outs) && CleanInputs(states[0], ops) && n <= |ops|
    ensures Valid(states[n]) && Clean(states[n]) && Extends(states[0], states[n])
    ensures n > 0 ==> Inserted(states[n - 1], TextOf(states[0], ops[n - 1]), states[n], outs[n - 1])
    decreases n
  {
    if n > 0 {
      RunsStayClean(states, ops, outs, n - 1);
      assert StepAt(states[n - 1], ops[n - 1], states[n], outs[n - 1]) && CleanInput(states[0], ops[n - 1]);
      StepInserts(states[0], states[n - 1], ops[n - 1], states[n], outs[n - 1]);
    }
  }

  /** Over every mix of the three overloads from a fresh registry, with terminated literals and texts without NUL, two
      returned views are equal exactly when the inserted texts are. */
  lemma InterningIsFaithful(states: seq<Registry>, ops: seq<Insertion>, outs: seq<View>, m: nat, n: nat)
    requires RunOf(states, ops, outs) && CleanInputs(states[0], ops) && m < |ops| && n < |ops|
    ensures outs[m] == outs[n] <==> TextOf(states[0], ops[m]) == TextOf(states[0], ops[n])
  {
    var texts := seq(|ops|, i requires 0 <= i < |ops| && CleanInput(states[0], ops[i]) => TextOf(states[0], ops[i]));
    forall i | 0 <= i < |ops| ensures Inserted(states[i], texts[i], states[i + 1], outs[i]) {
      RunsStayClean(states, ops, outs, i + 1);
    }
    AnswersAreFaithful(states, texts, outs, m, n);
  }

  class Interner {
    var memory: map<Address, string>
    var views: set<View>
    var next: Address

    function State(): Registry
      reads this
    {
      Registry(memory, views, next)
    }

    /** The storage of string literals exists before any insertion. */
    constructor (literals: map<Address, string>, limit: Address)
      requires forall a :: a in literals ==> a < limit
      ensures State() == Registry(literals, {}, limit)
      ensures Valid(State()) && Clean(State())
    {
      memory, views, next := literals, {}, limit;
    }

    /** emplace/insert on the set: content decides whether the candidate is new. */
    method Emplace(v: View) returns (out: View, added: bool)
      requires Valid(State()) && InBounds(State(), v)
      modifies this`views
      ensures Inserted(old(State()), Content(old(State()), v), State(), out)
      ensures Emplaced(old(State()), v, State(), out)
      ensures added <==> forall u :: u in old(views) ==> Content(old(State()), u) != Content(old(State()), v)
      ensures added ==> out == v
      ensures !added ==> views == old(views)
      ensures Clean(old(State())) && Terminated(old(State()), v) ==> Clean(State())
    {
      if u :| u in views && Content(State(), u) == Content(State(), v) {
        return u, false;
      }
      views := views + {v};
      return v, true;
    }

    method InsertLiteral(v: View) returns (out: View, added: bool)
      requires Valid(State()) && InBounds(State(), v)
      modifies this
      ensures Inserted(old(State()), Content(old(State()), v), State(), out)
      ensures Step(old(State()), Literal(v), State(), out)
      ensures added <==> forall u :: u in old(views) ==> Content(old(State()), u) != Content(old(State()), v)
      ensures Clean(old(State())) && Terminated(old(State()), v) ==> Clean(State())
    {
      out, added := Emplace(v);
    }

    /** A new NUL-terminated string in the list of owned strings. */
    method Own(text: string) returns (v: View)
      requires Valid(State())
      modifies this`memory, this`next
      ensures Valid(State()) && State() == WithOwned(old(State()), text)
      ensures v == View(old(next), |text|) && Content(State(), v) == text
      ensures forall u :: u in views ==> Content(State(), u) == old(Content(State(), u))
      ensures Clean(old(State())) ==> Clean(State())
      ensures '\0' !in text ==> Terminated(State(), v)
    {
      v := View(next, |text|);
      memory, next := memory[next := text + "\0"], next + 1;
      assert (text + "\0")[..|text|] == text;
    }

    method InsertText(text: string) returns (out: View, added: bool)
      requires Valid(State())
      modifies this
      ensures Inserted(old(State()), text, State(), out)
      ensures Step(old(State()), Text(text), State(), out)
      ensures added <==> forall u :: u in old(views) ==> Content(old(State()), u) != text
      ensures Clean(old(State())) && '\0' !in text ==> Clean(State())
    {
      if u :| u in views && Content(State(), u) == text {
        return u, false;
      }
      var v := Own(text);
      out, added := Emplace(v);
    }

    method InsertOwned(text: string) returns (out: View, added: bool)
      requires Valid(State())
      modifies this
      ensures MayReturn(old(State()), text, out)
      ensures Step(old(State()), Owned(text), State(), out)
      ensures NoFalseMatch(old(State()), text) ==> Inserted(old(State()), text, State(), out)
      ensures added <==> out !in old(views)
      ensures Clean(old(State())) && '\0' !in text ==> Clean(State()) && Inserted(old(State()), text, State(), out)
    {
      if Clean(State()) {
        CleanHasNoFalseMatch(State(), text);
      }
      var todo := views;
      while todo != {}
        invariant todo <= views
        invariant forall u :: u in views - todo ==> !Matches(State(), u, text)
        decreases todo
      {
        var u :| u in todo;
        if Matches(State(), u, text) {
          return u, false;
        }
        todo := todo - {u};
      }
      assert forall u :: u in views ==> u in views - todo;
      var v := Own(text);
      assert v !in views by {
        assert View(old(next), |text|).data !in old(memory);
      }
      out, added := Emplace(v);
    }
  }
}
