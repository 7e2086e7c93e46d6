/** Requirement entries and versions of plugins. */
module PluginVersions {
  import opened Prelude

  // ----- Text ----------------------------------------------------------------

  predicate IsSpace(c: char) { c == ' ' || ('\t' <= c <= '\r') }

  function StripLeft(s: string): (r: string)
    ensures |r| <= |s| && s[|s| - |r|..] == r
  {
    if s != [] && IsSpace(s[0]) then StripLeft(s[1..]) else s
  }

  function StripRight(s: string): (r: string)
    ensures r <= s
  {
    if s != [] && IsSpace(s[|s| - 1]) then StripRight(s[..|s| - 1]) else s
  }

  function Strip(s: string): (r: string)
    ensures |r| <= |s|
  {
    StripRight(StripLeft(s))
  }

  predicate Stripped(s: string) {
    s == "" || (!IsSpace(s[0]) && !IsSpace(s[|s| - 1]))
  }

  lemma {:induction false} StripLeftStripped(s: string)
    ensures StripLeft(s) != "" ==> !IsSpace(StripLeft(s)[0])
  {
    if s != [] && IsSpace(s[0]) { StripLeftStripped(s[1..]); }
  }

  lemma {:induction false} StripRightStripped(s: string)
    ensures StripRight(s) != "" ==> !IsSpace(StripRight(s)[|StripRight(s)| - 1])
  {
    if s != [] && IsSpace(s[|s| - 1]) { StripRightStripped(s[..|s| - 1]); }
  }

  lemma SameHead(s: string)
    ensures StripRight(s) != "" ==> s != "" && StripRight(s)[0] == s[0]
  {}

  lemma StripStripped(s: string)
    ensures Stripped(Strip(s))
  {
    StripLeftStripped(s);
    StripRightStripped(StripLeft(s));
    SameHead(StripLeft(s));
  }

  lemma StripFixes(s: string)
    ensures Strip(s) == s <==> Stripped(s)
  {
    StripStripped(s);
  }

  // ----- Requirement entries --------------------------------------------------

  /** Where the operator first occurs in the text, looking from a place on. */
  function FindFrom(word: string, text: string, from: nat): (r: Option<nat>)
    ensures r.Some? ==> r.value + |word| <= |text|
    decreases |text| + 1 - from
  {
    if from + |word| > |text| then None
    else if text[from..from + |word|] == word then Some(from)
    else FindFrom(word, text, from + 1)
  }

  function Find(word: string, text: string): Option<nat> { FindFrom(word, text, 0) }

  ghost predicate FirstAt(word: string, text: string, at: nat) {
    OccursAt(word, text, at) && forall i :: i < at ==> !OccursAt(word, text, i)
  }

  lemma {:induction false} FindFirst(word: string, text: string, from: nat)
    requires forall i :: i < from ==> !OccursAt(word, text, i)
    ensures var r := FindFrom(word, text, from);
            && (r.Some? ==> FirstAt(word, text, r.value))
            && (r.None? ==> forall i :: !OccursAt(word, text, i))
    decreases |text| + 1 - from
  {
    OccursAtSlice(word, text, from);
    if from + |word| <= |text| && text[from..from + |word|] != word {
      FindFirst(word, text, from + 1);
    }
  }

  lemma FindIs(word: string, text: string, at: nat)
    requires FirstAt(word, text, at)
    ensures Find(word, text) == Some(at)
  {
    FindFirst(word, text, 0);
    assert OccursAt(word, text, at);
  }

  function SplitAt(operator: string, text: string, at: nat): (string, string)
    requires at + |operator| <= |text|
  {
    (Strip(text[..at]), Strip(text[at + |operator|..]))
  }

  const OPERATORS: seq<string> := [">=", "==", "="]

  /** The first operator of the list that occurs splits the text. */
  function SplitBy(text: string, operators: seq<string>): (string, string) {
    if operators == [] then (text, "")
    else
      var at := Find(operators[0], text);
      if at.Some? then SplitAt(operators[0], text, at.value) else SplitBy(text, operators[1..])
  }

  /** "name>=1.2.0" names a plugin and the least version of it; every operator means
      "at least". */
  function Requirement(entry: string): (string, string) { SplitBy(Strip(entry), OPERATORS) }

  /** The loop over the operators. */
  method ParseRequirement(entry: string) returns (name: string, version: string)
    ensures (name, version) == Requirement(entry)
  {
    var text := Strip(entry);
    var operators := OPERATORS;
    assert operators[0..] == operators;
    for i := 0 to |operators|
      invariant SplitBy(text, operators[i..]) == Requirement(entry)
    {
      assert operators[i..][1..] == operators[i + 1..];
      var at := Find(operators[i], text);
      if at.Some? {
        var parts := SplitAt(operators[i], text, at.value);
        return parts.0, parts.1;
      }
    }
    return text, "";
  }

  /** An entry comes back as it was written if and only if neither half has outer
      spaces and the name does not contain the operator. */
  lemma RequirementRoundTrip(name: string, version: string)
    ensures Requirement(name + ">=" + version) == (name, version)
       <==> Stripped(name) && Stripped(version) && Find(">=", name).None?
  {
    HalvesStripped(name + ">=" + version);
    if Stripped(name) && Stripped(version) {
      if Find(">=", name).None? {
        WrittenIsRead(name, version);
      } else {
        NameIsCut(name, version);
      }
    }
  }

  lemma StrippedConcat(a: string, b: string, c: string)
    requires Stripped(a) && Stripped(b) && Stripped(c) && b != ""
    ensures Stripped(a + b + c)
  {
    var text := a + b + c;
    assert text[0] == if a != "" then a[0] else b[0];
    assert text[|text| - 1] == if c != "" then c[|c| - 1] else b[|b| - 1];
  }

  lemma WrittenStripped(name: string, version: string)
    requires Stripped(name) && Stripped(version)
    ensures Strip(name + ">=" + version) == name + ">=" + version
  {
    StrippedConcat(name, ">=", version);
    StripFixes(name + ">=" + version);
  }

  lemma FirstOperator(text: string, at: nat)
    requires Strip(text) == text && Find(">=", text) == Some(at)
    ensures Requirement(text) == SplitAt(">=", text, at)
  {
    assert OPERATORS[0] == ">=";
  }

  /** An operator of two different characters does not occur before the place where it
      was written behind a name without it. */
  lemma OperatorPlace(name: string, operator: string, version: string)
    requires |operator| == 2 && operator[0] != operator[1] && Find(operator, name).None?
    ensures Find(operator, name + operator + version) == Some(|name|)
  {
    var text := name + operator + version;
    FindFirst(operator, name, 0);
    forall i | i < |name| ensures !OccursAt(operator, text, i) {
      assert !OccursAt(operator, name, i);
      OccursAtSlice(operator, text, i);
      if 0 <= i {
        var pair := text[i..i + 2];
        assert pair[0] == text[i] && pair[1] == text[i + 1];
      }
    }
    FindIs(operator, text, |name|);
  }

  lemma Halves(a: string, b: string, c: string)
    ensures (a + b + c)[..|a|] == a && (a + b + c)[|a| + |b|..] == c
  {}

  lemma WrittenIsRead(name: string, version: string)
    requires Stripped(name) && Stripped(version) && Find(">=", name).None?
    ensures Requirement(name + ">=" + version) == (name, version)
  {
    WrittenStripped(name, version);
    OperatorPlace(name, ">=", version);
    FirstOperator(name + ">=" + version, |name|);
    SplitHalves(name, ">=", version);
  }

  lemma SplitHalves(name: string, operator: string, version: string)
    requires Stripped(name) && Stripped(version)
    ensures SplitAt(operator, name + operator + version, |name|) == (name, version)
  {
    Halves(name, operator, version);
    StripFixes(name);
    StripFixes(version);
  }

  lemma NameIsCut(name: string, version: string)
    requires Stripped(name) && Stripped(version) && Find(">=", name).Some?
    ensures |Requirement(name + ">=" + version).0| < |name|
  {
    WrittenStripped(name, version);
    var at := FoundEarlier(name, ">=", version);
    FirstOperator(name + ">=" + version, at);
  }

  lemma FoundEarlier(name: string, operator: string, version: string) returns (at: nat)
    requires Find(operator, name).Some? && operator != ""
    ensures Find(operator, name + operator + version) == Some(at) && at < |name|
  {
    var text := name + operator + version;
    var k := Find(operator, name).value;
    FindFirst(operator, name, 0);
    FindFirst(operator, text, 0);
    assert OccursAt(operator, text, k);
    at := Find(operator, text).value;
  }

  lemma {:induction false} HalvesStrippedBy(text: string, operators: seq<string>)
    requires Stripped(text)
    ensures Stripped(SplitBy(text, operators).0) && Stripped(SplitBy(text, operators).1)
  {
    if operators != [] {
      var at := Find(operators[0], text);
      if at.Some? {
        StripStripped(text[..at.value]);
        StripStripped(text[at.value + |operators[0]|..]);
      } else {
        HalvesStrippedBy(text, operators[1..]);
      }
    }
  }

  lemma HalvesStripped(entry: string)
    ensures Stripped(Requirement(entry).0) && Stripped(Requirement(entry).1)
  {
    StripStripped(entry);
    HalvesStrippedBy(Strip(entry), OPERATORS);
  }

  /** The first operator of the list that occurs splits the text where it was written. */
  lemma {:induction false} SplitByWritten(operators: seq<string>, k: nat, name: string, version: string)
    requires k < |operators| && Stripped(name) && Stripped(version)
    requires var text := name + operators[k] + version;
             && Find(operators[k], text) == Some(|name|)
             && forall j :: 0 <= j < k ==> Find(operators[j], text).None?
    ensures SplitBy(name + operators[k] + version, operators) == (name, version)
  {
    if k == 0 {
      SplitHalves(name, operators[0], version);
    } else {
      var rest := operators[1..];
      assert rest[k - 1] == operators[k] && forall j :: 0 <= j < k - 1 ==> rest[j] == operators[j + 1];
      SplitByWritten(rest, k - 1, name, version);
    }
  }

  /** A pair that ends in an equals sign is not in a text whose only equals signs are those
      of another operator. */
  lemma PairIsNot(wrong: string, name: string, operator: string, version: string, i: int)
    requires |wrong| == 2 && wrong[1] == '=' && 1 <= |operator| <= 2 && '=' !in name && '=' !in version
    requires (name != "" ==> name[|name| - 1] != wrong[0]) && (|operator| == 2 ==> operator[0] != wrong[0])
    ensures var text := name + operator + version;
            0 <= i <= |text| - 2 ==> text[i] != wrong[0] || text[i + 1] != wrong[1]
  {
    var text := name + operator + version;
    if 0 <= i <= |text| - 2 {
      if i + 1 < |name| {
        assert text[i + 1] == name[i + 1];
      } else if i + 1 >= |name| + |operator| {
        assert text[i + 1] == version[i + 1 - |name| - |operator|];
      } else if i < |name| {
        assert text[i] == name[|name| - 1];
      } else {
        assert text[i] == operator[0];
      }
    }
  }

  lemma PairOccurs(word: string, text: string, i: int)
    requires |word| == 2
    ensures OccursAt(word, text, i) <==> 0 <= i <= |text| - 2 && text[i] == word[0] && text[i + 1] == word[1]
  {
    if 0 <= i <= |text| - 2 { assert text[i + 0] == text[i]; }
  }

  lemma NotWritten(wrong: string, name: string, operator: string, version: string)
    requires |wrong| == 2 && wrong[1] == '=' && 1 <= |operator| <= 2 && '=' !in name && '=' !in version
    requires (name != "" ==> name[|name| - 1] != wrong[0]) && (|operator| == 2 ==> operator[0] != wrong[0])
    ensures Find(wrong, name + operator + version).None?
  {
    var text := name + operator + version;
    FindFirst(wrong, text, 0);
    forall i ensures !OccursAt(wrong, text, i) {
      PairIsNot(wrong, name, operator, version, i);
      PairOccurs(wrong, text, i);
    }
  }

  lemma HeadOccurs(word: string, text: string, i: int)
    requires word != ""
    ensures OccursAt(word, text, i) ==> 0 <= i < |text| && text[i] == word[0]
  {
    if OccursAt(word, text, i) { assert text[i + 0] == word[0]; }
  }

  lemma EqualsPlace(operator: string, name: string, version: string)
    requires operator != "" && operator[0] == '=' && '=' !in name
    ensures Find(operator, name + operator + version) == Some(|name|)
  {
    var text := name + operator + version;
    forall i | i < |name| ensures !OccursAt(operator, text, i) {
      HeadOccurs(operator, text, i);
      if 0 <= i { assert text[i] == name[i]; }
    }
    assert OccursAt(operator, text, |name|);
    FindIs(operator, text, |name|);
  }

  lemma WrittenFound(operator: string, name: string, version: string)
    requires operator in OPERATORS && '=' !in name
    ensures Find(operator, name + operator + version) == Some(|name|)
  {
    if operator == OPERATORS[0] {
      NoOperator(operator, name);
      OperatorPlace(name, operator, version);
    } else {
      EqualsPlace(operator, name, version);
    }
  }

  lemma EarlierNotFound(j: nat, k: nat, name: string, version: string)
    requires j < k < |OPERATORS| && '=' !in name && '=' !in version && (name != "" ==> name[|name| - 1] != '>')
    ensures Find(OPERATORS[j], name + OPERATORS[k] + version).None?
  {
    if name != "" { assert name[|name| - 1] in name; }
    NotWritten(OPERATORS[j], name, OPERATORS[k], version);
  }

  /** Every operator means the same: for a name and a version without equals signs, "name==1"
      and "name=1" are read like "name>=1". */
  lemma EveryOperatorReads(name: string, k: nat, version: string)
    requires k < |OPERATORS| && Stripped(name) && Stripped(version)
    requires '=' !in name && '=' !in version && (name != "" ==> name[|name| - 1] != '>')
    ensures Requirement(name + OPERATORS[k] + version) == (name, version)
  {
    StrippedConcat(name, OPERATORS[k], version);
    StripFixes(name + OPERATORS[k] + version);
    WrittenFound(OPERATORS[k], name, version);
    forall j | 0 <= j < k ensures Find(OPERATORS[j], name + OPERATORS[k] + version).None? {
      EarlierNotFound(j, k, name, version);
    }
    SplitByWritten(OPERATORS, k, name, version);
  }

  /** A plain name asks for any version. */
  ghost predicate PlainName(name: string) { Stripped(name) && '=' !in name }

  lemma NoOperator(operator: string, name: string)
    requires '=' !in name && '=' in operator
    ensures Find(operator, name).None?
  {
    FindFirst(operator, name, 0);
    var k :| 0 <= k < |operator| && operator[k] == '=';
    forall i ensures !OccursAt(operator, name, i) {
      if 0 <= i <= |name| - |operator| { assert name[i + k] in name; }
    }
  }

  lemma OperatorsHaveEquals()
    ensures forall k :: 0 <= k < |OPERATORS| ==> '=' in OPERATORS[k]
  {
    assert OPERATORS[0][1] == '=' && OPERATORS[1][0] == '=' && OPERATORS[2][0] == '=';
  }

  lemma {:induction false} SplitByNone(text: string, operators: seq<string>)
    requires forall k :: 0 <= k < |operators| ==> Find(operators[k], text).None?
    ensures SplitBy(text, operators) == (text, "")
  {
    if operators != [] {
      var rest := operators[1..];
      assert forall k :: 0 <= k < |rest| ==> rest[k] == operators[k + 1];
      SplitByNone(text, rest);
    }
  }

  lemma PlainBy(name: string, operators: seq<string>)
    requires PlainName(name) && forall k :: 0 <= k < |operators| ==> '=' in operators[k]
    ensures SplitBy(Strip(name), operators) == (name, "")
  {
    StripFixes(name);
    forall k | 0 <= k < |operators| ensures Find(operators[k], name).None? { NoOperator(operators[k], name); }
    SplitByNone(name, operators);
  }

  lemma PlainEntry(name: string)
    requires PlainName(name)
    ensures Requirement(name) == (name, "")
  {
    OperatorsHaveEquals();
    PlainBy(name, OPERATORS);
  }

  // ----- Versions --------------------------------------------------------------

  /** The pieces between the dots. */
  function Pieces(value: string): (r: seq<string>)
    ensures |r| > 0
  {
    if value == "" then [""]
    else
      var front := Pieces(value[..|value| - 1]);
      var last := value[|value| - 1];
      if last == '.' then front + [""]
      else front[..|front| - 1] + [front[|front| - 1] + [last]]
  }

  predicate IsDigit(c: char) { '0' <= c <= '9' }

  function Digits(piece: string): string {
    if piece == "" then ""
    else
      var front := Digits(piece[..|piece| - 1]);
      if IsDigit(piece[|piece| - 1]) then front + [piece[|piece| - 1]] else front
  }

  /** The decimal number a string of digits writes. */
  function Number(digits: string): int {
    if digits == "" then 0
    else Number(digits[..|digits| - 1]) * 10 + (digits[|digits| - 1] as int - '0' as int)
  }

  function Numbers(pieces: seq<string>): seq<int> {
    if pieces == [] then []
    else
      var front := Numbers(pieces[..|pieces| - 1]);
      var digits := Digits(pieces[|pieces| - 1]);
      if digits == "" then front else front + [Number(digits)]
  }

  function Version(value: string): seq<int> { Numbers(Pieces(value)) }

  method VersionTuple(value: string) returns (parts: seq<int>)
    ensures parts == Version(value)
  {
    parts := [];
    var pieces := Pieces(value);
    for i := 0 to |pieces|
      invariant parts == Numbers(pieces[..i])
    {
      assert pieces[..i + 1][..i] == pieces[..i];
      var digits := Digits(pieces[i]);
      if digits != "" {
        parts := parts + [Number(digits)];
      }
    }
    assert pieces[..|pieces|] == pieces;
  }

  /** Tuples compare at the first difference; a longer tuple beats its own beginning. */
  predicate AtLeast(a: seq<int>, b: seq<int>) {
    if b == [] then true
    else if a == [] then false
    else if a[0] != b[0] then a[0] > b[0]
    else AtLeast(a[1..], b[1..])
  }

  predicate VersionSatisfies(actual: string, required: string) {
    required == "" || AtLeast(Version(actual), Version(required))
  }

  lemma {:induction false} AtLeastReflexive(a: seq<int>)
    ensures AtLeast(a, a)
  {
    if a != [] { AtLeastReflexive(a[1..]); }
  }

  lemma {:induction false} AtLeastTransitive(a: seq<int>, b: seq<int>, c: seq<int>)
    requires AtLeast(a, b) && AtLeast(b, c)
    ensures AtLeast(a, c)
  {
    if c != [] && a[0] == b[0] == c[0] {
      AtLeastTransitive(a[1..], b[1..], c[1..]);
    }
  }

  lemma {:induction false} AtLeastTotal(a: seq<int>, b: seq<int>)
    ensures AtLeast(a, b) || AtLeast(b, a)
    ensures AtLeast(a, b) && AtLeast(b, a) ==> a == b
  {
    if a != [] && b != [] && a[0] == b[0] {
      AtLeastTotal(a[1..], b[1..]);
      assert a == [a[0]] + a[1..] && b == [b[0]] + b[1..];
    }
  }

  /** a reads the same as b up to i, where b ends or a is greater. */
  ghost predicate WinsAt(a: seq<int>, b: seq<int>, i: nat) {
    && i <= |a| && i <= |b|
    && (forall k :: 0 <= k < i ==> a[k] == b[k])
    && (i == |b| || (i < |a| && a[i] > b[i]))
  }

  lemma {:induction false} AtLeastIff(a: seq<int>, b: seq<int>)
    ensures AtLeast(a, b) <==> exists i: nat :: WinsAt(a, b, i)
  {
    if b == [] {
      assert WinsAt(a, b, 0);
    } else if a != [] && a[0] == b[0] {
      AtLeastIff(a[1..], b[1..]);
      forall i: nat | i > 0 ensures WinsAt(a, b, i) <==> WinsAt(a[1..], b[1..], i - 1) { WinsLater(a, b, i); }
      if i: nat :| WinsAt(a[1..], b[1..], i) { assert WinsAt(a, b, i + 1); }
    } else if a != [] && a[0] > b[0] {
      assert WinsAt(a, b, 0);
    }
  }

  lemma WinsLater(a: seq<int>, b: seq<int>, i: nat)
    requires a != [] && b != [] && a[0] == b[0] && i > 0
    ensures WinsAt(a, b, i) <==> WinsAt(a[1..], b[1..], i - 1)
  {
    if WinsAt(a[1..], b[1..], i - 1) {
      forall k | 0 <= k < i ensures a[k] == b[k] {
        if k > 0 { assert a[1..][k - 1] == b[1..][k - 1]; }
      }
    }
  }

  /** Who satisfied a requirement still does after growing. */
  lemma NewerSatisfies(older: string, newer: string, required: string)
    requires VersionSatisfies(older, required) && AtLeast(Version(newer), Version(older))
    ensures VersionSatisfies(newer, required)
  {
    if required != "" { AtLeastTransitive(Version(newer), Version(older), Version(required)); }
  }

  // ----- Written versions -----------------------------------------------------------

  function Digit(d: nat): char
    requires d < 10
  {
    ('0' as int + d) as char
  }

  function Decimal(n: nat): (r: string)
    ensures r != ""
  {
    if n < 10 then [Digit(n)] else Decimal(n / 10) + [Digit(n % 10)]
  }

  function Dotted(numbers: seq<nat>): string {
    if numbers == [] then ""
    else
      var last := |numbers| - 1;
      (if last == 0 then "" else Dotted(numbers[..last]) + ['.']) + Decimal(numbers[last])
  }

  ghost predicate AllDigits(s: string) { forall c :: c in s ==> IsDigit(c) }

  lemma {:induction false} DecimalReads(n: nat)
    ensures AllDigits(Decimal(n)) && Digits(Decimal(n)) == Decimal(n) && Number(Decimal(n)) == n
  {
    if n >= 10 {
      DecimalReads(n / 10);
      assert Decimal(n)[..|Decimal(n)| - 1] == Decimal(n / 10);
    } else {
      assert Decimal(n)[..0] == "";
    }
  }

  lemma PieceStep(s: string, c: char)
    ensures c == '.' ==> Pieces(s + [c]) == Pieces(s) + [""]
    ensures c != '.' ==> Pieces(s + [c]) == Pieces(s)[..|Pieces(s)| - 1] + [Pieces(s)[|Pieces(s)| - 1] + [c]]
  {
    assert (s + [c])[..|s + [c]| - 1] == s;
  }

  /** The last piece grown by a text. */
  function Grown(pieces: seq<string>, b: string): seq<string>
    requires pieces != []
  {
    pieces[..|pieces| - 1] + [pieces[|pieces| - 1] + b]
  }

  lemma GrownByNothing(pieces: seq<string>)
    requires pieces != []
    ensures Grown(pieces, "") == pieces
  {
    assert pieces[|pieces| - 1] + "" == pieces[|pieces| - 1];
  }

  lemma GrownFromNothing(pieces: seq<string>, b: string)
    ensures Grown(pieces + [""], b) == pieces + [b]
  {
    assert "" + b == b;
  }

  lemma GrownTwice(pieces: seq<string>, a: string, c: char)
    requires pieces != []
    ensures Grown(Grown(pieces, a), [c]) == Grown(pieces, a + [c])
  {
    assert pieces[|pieces| - 1] + a + [c] == pieces[|pieces| - 1] + (a + [c]);
  }

  lemma {:induction false} PiecesGrow(a: string, b: string)
    requires AllDigits(b)
    ensures Pieces(a + b) == Grown(Pieces(a), b)
  {
    if b == "" {
      assert a + b == a;
      GrownByNothing(Pieces(a));
    } else {
      var front, last := b[..|b| - 1], b[|b| - 1];
      assert b == front + [last];
      assert last in b && forall c :: c in front ==> c in b;
      PiecesGrow(a, front);
      assert a + b == (a + front) + [last];
      PieceStep(a + front, last);
      GrownTwice(Pieces(a), front, last);
    }
  }

  lemma PieceAdded(a: string, dot: char, n: nat)
    requires dot == '.'
    ensures Pieces(a + [dot] + Decimal(n)) == Pieces(a) + [Decimal(n)]
  {
    DecimalReads(n);
    PieceStep(a, dot);
    PiecesGrow(a + [dot], Decimal(n));
    GrownFromNothing(Pieces(a), Decimal(n));
  }

  function Decimals(numbers: seq<nat>): seq<string> {
    if numbers == [] then [] else Decimals(numbers[..|numbers| - 1]) + [Decimal(numbers[|numbers| - 1])]
  }

  lemma DottedSnoc(front: seq<nat>, n: nat)
    ensures Decimals(front + [n]) == Decimals(front) + [Decimal(n)]
    ensures Dotted(front + [n]) == (if front == [] then "" else Dotted(front) + ['.']) + Decimal(n)
  {
    assert (front + [n])[..|front|] == front;
  }

  lemma {:induction false} DottedPieces(numbers: seq<nat>)
    requires numbers != []
    ensures Pieces(Dotted(numbers)) == Decimals(numbers)
  {
    var front, n := numbers[..|numbers| - 1], numbers[|numbers| - 1];
    assert numbers == front + [n];
    DottedSnoc(front, n);
    if front == [] {
      OnePiece(n);
    } else {
      DottedPieces(front);
      PieceAdded(Dotted(front), '.', n);
    }
  }

  lemma OnePiece(n: nat)
    ensures Pieces("" + Decimal(n)) == [Decimal(n)]
  {
    DecimalReads(n);
    PiecesGrow("", Decimal(n));
    GrownFromNothing([], Decimal(n));
    assert [] + [""] == [""];
  }

  lemma {:induction false} NumbersOf(numbers: seq<nat>)
    ensures Numbers(Decimals(numbers)) == numbers
  {
    if numbers != [] {
      var front, n := numbers[..|numbers| - 1], numbers[|numbers| - 1];
      NumbersOf(front);
      DecimalReads(n);
      assert (Decimals(front) + [Decimal(n)])[..|Decimals(front)|] == Decimals(front);
      assert numbers == front + [n];
    }
  }

  /** A version written as numbers with dots is read as those numbers. */
  lemma VersionRoundTrip(numbers: seq<nat>)
    ensures Version(Dotted(numbers)) == numbers
  {
    if numbers == [] {
      assert Pieces("") == [""];
      assert [""][..0] == [];
    } else {
      DottedPieces(numbers);
      NumbersOf(numbers);
    }
  }

  /** A written version satisfies a written requirement exactly when the required numbers
      run out first, or the first difference is in the actual version's favour. */
  lemma WrittenSatisfiesIff(actual: seq<nat>, required: seq<nat>)
    ensures VersionSatisfies(Dotted(actual), Dotted(required)) <==> exists i: nat :: WinsAt(actual, required, i)
  {
    VersionRoundTrip(actual);
    VersionRoundTrip(required);
    AtLeastIff(actual, required);
    NothingWritten(required);
    if required == [] { assert WinsAt(actual, required, 0); }
  }

  lemma NothingWritten(numbers: seq<nat>)
    ensures Dotted(numbers) == "" <==> numbers == []
  {}
}
