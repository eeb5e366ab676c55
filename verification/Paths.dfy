/** Shared-memory object names (gateway_ipc_binding.cpp, lines 57-92). */
module Paths {
  import opened Prelude

  datatype PathError = FixedSizeContainerTooSmall

  /** NAME_MAX, the capacity of a fixed-size path. */
  const MAX_PATH_SIZE := 255

  const DATA_PREFIX := "/"

  const COUNTERPART_PREFIX := "/counterpart_"

  function DropLeadingSlashes(name: string): string {
    if name != [] && name[0] == '/' then DropLeadingSlashes(name[1..]) else name
  }

  function ReplaceSlashes(name: string): string {
    seq(|name|, i requires 0 <= i < |name| => if name[i] == '/' then '_' else name[i])
  }

  function Flatten(name: string): string {
    ReplaceSlashes(DropLeadingSlashes(name))
  }

  function Digit(d: nat): char
    requires d < 10
  {
    "0123456789"[d]
  }

  function DigitValue(c: char): nat {
    if '0' <= c <= '9' then (c - '0') as int else 0
  }

  /** std::to_string of an unsigned number. */
  function Decimal(n: nat): string {
    if n < 10 then [Digit(n)] else Decimal(n / 10) + [Digit(n % 10)]
  }

  function MakePath(prefix: string, name: string, serviceId: nat): Result<string, PathError> {
    var path := prefix + Flatten(name) + "_" + Decimal(serviceId);
    if |path| > MAX_PATH_SIZE then Err(FixedSizeContainerTooSmall) else Ok(path)
  }

  function MakeSharedMemoryPath(name: string, serviceId: nat): Result<string, PathError> {
    MakePath(DATA_PREFIX, name, serviceId)
  }

  function MakeCounterpartSharedMemoryPath(name: string, serviceId: nat): Result<string, PathError> {
    MakePath(COUNTERPART_PREFIX, name, serviceId)
  }

  // The inverse: split what follows the prefix at the last underscore.

  function ParseDecimal(digits: string): nat {
    if digits == [] then 0
    else 10 * ParseDecimal(digits[..|digits| - 1]) + DigitValue(digits[|digits| - 1])
  }

  function LastUnderscore(text: string): (at: Option<nat>)
    ensures at.Some? ==> at.value < |text| && text[at.value] == '_' && '_' !in text[at.value + 1..]
    ensures at.None? ==> '_' !in text
  {
    if text == [] then None
    else if text[|text| - 1] == '_' then Some(|text| - 1)
    else LastUnderscore(text[..|text| - 1])
  }

  function ParsePath(prefix: string, path: string): Option<(string, nat)> {
    if !(prefix <= path) then None
    else
      var rest := path[|prefix|..];
      var at := LastUnderscore(rest);
      if at.None? then None
      else Some((rest[..at.value], ParseDecimal(rest[at.value + 1..])))
  }

  lemma {:induction false} DropLeadingSlashesIsTheLongestCut(name: string) returns (cut: nat)
    ensures cut <= |name| && DropLeadingSlashes(name) == name[cut..]
    ensures forall i :: 0 <= i < cut ==> name[i] == '/'
    ensures cut < |name| ==> name[cut] != '/'
  {
    if name != [] && name[0] == '/' {
      var rest := DropLeadingSlashesIsTheLongestCut(name[1..]);
      cut := rest + 1;
    } else {
      cut := 0;
    }
  }

  /** Only slashes are changed: leading ones vanish, every later one becomes an underscore. */
  lemma FlattenShape(name: string) returns (cut: nat)
    ensures cut <= |name| && |Flatten(name)| == |name| - cut
    ensures forall i :: 0 <= i < cut ==> name[i] == '/'
    ensures cut < |name| ==> name[cut] != '/'
    ensures forall i :: cut <= i < |name| ==>
              Flatten(name)[i - cut] == if name[i] == '/' then '_' else name[i]
  {
    cut := DropLeadingSlashesIsTheLongestCut(name);
  }

  lemma {:induction false} DecimalIsDigits(n: nat)
    ensures Decimal(n) != [] && forall c :: c in Decimal(n) ==> '0' <= c <= '9'
  {
    if n >= 10 {
      DecimalIsDigits(n / 10);
    }
  }

  lemma {:induction false} DecimalRoundTrip(n: nat)
    ensures ParseDecimal(Decimal(n)) == n
  {
    if n >= 10 {
      DecimalRoundTrip(n / 10);
      assert Decimal(n)[..|Decimal(n)| - 1] == Decimal(n / 10);
    } else {
      assert [Digit(n)][..0] == [];
    }
  }

  lemma {:induction false} LastUnderscoreBeforeSuffix(text: string, suffix: string)
    requires '_' !in suffix
    ensures LastUnderscore(text + "_" + suffix) == Some(|text|)
  {
    var whole := text + "_" + suffix;
    if suffix == [] {
      assert whole[|whole| - 1] == '_';
    } else {
      var shorter := suffix[..|suffix| - 1];
      assert whole[|whole| - 1] == suffix[|suffix| - 1];
      assert whole[..|whole| - 1] == text + "_" + shorter;
      LastUnderscoreBeforeSuffix(text, shorter);
    }
  }

  lemma SplitAtTheLastUnderscore(flat: string, digits: string)
    requires '_' !in digits
    ensures var rest := flat + "_" + digits;
            LastUnderscore(rest) == Some(|flat|) && rest[..|flat|] == flat && rest[|flat| + 1..] == digits
  {
    LastUnderscoreBeforeSuffix(flat, digits);
  }

  lemma ParsesBack(prefix: string, flat: string, digits: string)
    requires '_' !in digits
    ensures ParsePath(prefix, prefix + flat + "_" + digits) == Some((flat, ParseDecimal(digits)))
  {
    var rest := flat + "_" + digits;
    SplitAtTheLastUnderscore(flat, digits);
    assert prefix + flat + "_" + digits == prefix + rest;
    assert (prefix + rest)[|prefix|..] == rest;
  }

  /** A successful path gives back the flattened name and the service id. */
  lemma PathRoundTrip(prefix: string, name: string, serviceId: nat)
    requires MakePath(prefix, name, serviceId).Ok?
    ensures ParsePath(prefix, MakePath(prefix, name, serviceId).value) == Some((Flatten(name), serviceId))
  {
    DecimalIsDigits(serviceId);
    DecimalRoundTrip(serviceId);
    ParsesBack(prefix, Flatten(name), Decimal(serviceId));
  }

  /** Within one family the object name determines the flattened name and the id, and conversely. */
  lemma PathsAreFaithful(prefix: string, n1: string, id1: nat, n2: string, id2: nat)
    requires MakePath(prefix, n1, id1).Ok? && MakePath(prefix, n2, id2).Ok?
    ensures MakePath(prefix, n1, id1) == MakePath(prefix, n2, id2) <==>
            Flatten(n1) == Flatten(n2) && id1 == id2
  {
    PathRoundTrip(prefix, n1, id1);
    PathRoundTrip(prefix, n2, id2);
  }

  /** shm_open accepts the name: one slash, in front. */
  lemma OnlySlashIsLeading(name: string, serviceId: nat, counterpart: bool)
    ensures var r := if counterpart then MakeCounterpartSharedMemoryPath(name, serviceId)
                     else MakeSharedMemoryPath(name, serviceId);
            && (r.Ok? ==> r.value != [] && forall i :: 0 <= i < |r.value| ==> (r.value[i] == '/' <==> i == 0))
            && (r.Err? <==> |Flatten(name)| + |Decimal(serviceId)| > (if counterpart then 241 else 253))
  {
    DecimalIsDigits(serviceId);
    var prefix := if counterpart then COUNTERPART_PREFIX else DATA_PREFIX;
    var body := Flatten(name) + "_" + Decimal(serviceId);
    assert forall i :: 0 <= i < |Decimal(serviceId)| ==> Decimal(serviceId)[i] in Decimal(serviceId);
    assert forall i :: 0 <= i < |body| ==> body[i] != '/';
    assert prefix + Flatten(name) + "_" + Decimal(serviceId) == prefix + body;
    assert COUNTERPART_PREFIX[0] == '/' && forall i :: 1 <= i < |COUNTERPART_PREFIX| ==> COUNTERPART_PREFIX[i] != '/';
  }

  /** What follows the prefix determines the name and the id. */
  lemma SuffixDetermines(n1: string, id1: nat, n2: string, id2: nat)
    requires n1 + "_" + Decimal(id1) == n2 + "_" + Decimal(id2)
    ensures n1 == n2 && id1 == id2
  {
    var rest := n1 + "_" + Decimal(id1);
    DecimalIsDigits(id1);
    DecimalIsDigits(id2);
    LastUnderscoreBeforeSuffix(n1, Decimal(id1));
    LastUnderscoreBeforeSuffix(n2, Decimal(id2));
    assert rest[..|n1|] == n1 && rest[..|n2|] == n2;
    assert rest[|n1| + 1..] == Decimal(id1) && rest[|n2| + 1..] == Decimal(id2);
    DecimalRoundTrip(id1);
    DecimalRoundTrip(id2);
  }

  /** The two families are not disjoint: exactly the names that start with the marker collide. */
  lemma FamiliesCollideExactlyOnMarkedNames(n1: string, id1: nat, n2: string, id2: nat)
    requires MakeSharedMemoryPath(n1, id1).Ok? && MakeCounterpartSharedMemoryPath(n2, id2).Ok?
    ensures MakeSharedMemoryPath(n1, id1) == MakeCounterpartSharedMemoryPath(n2, id2) <==>
            Flatten(n1) == "counterpart_" + Flatten(n2) && id1 == id2
  {
    var marked := "counterpart_" + Flatten(n2);
    var rest1, rest2 := Flatten(n1) + "_" + Decimal(id1), marked + "_" + Decimal(id2);
    assert COUNTERPART_PREFIX == "/" + "counterpart_";
    assert MakeSharedMemoryPath(n1, id1).value == "/" + rest1;
    assert MakeCounterpartSharedMemoryPath(n2, id2).value == "/" + rest2;
    if MakeSharedMemoryPath(n1, id1) == MakeCounterpartSharedMemoryPath(n2, id2) {
      assert rest1 == ("/" + rest1)[1..] && rest2 == ("/" + rest2)[1..];
      SuffixDetermines(Flatten(n1), id1, marked, id2);
    }
  }

  /** Two services with one id whose data object is the counterpart object of the other. */
  lemma MarkedNameCollides()
    ensures MakeSharedMemoryPath("counterpart_a", 0) == MakeCounterpartSharedMemoryPath("a", 0) ==
            Ok("/counterpart_a_0")
  {
    assert Flatten("a") == "a";
    var name := "counterpart_a";
    assert DropLeadingSlashes(name) == name;
    assert Flatten(name) == "counterpart_" + "a";
    FamiliesCollideExactlyOnMarkedNames(name, 0, "a", 0);
    assert "/counterpart_" + "a" + "_" + Decimal(0) == "/counterpart_a_0";
  }
}
