/** The version test of the release verifier: three-part versions (SemVer 2.0.0, items 2 and
    11) in exact, caret and tilde ranges. */
module VersionRanges {
  import opened Bytes
  import opened Options

  type Text = seq<Byte>

  const DOT: Byte := 0x2e
  const LETTER_V: Byte := 0x76
  const CARET: Byte := 0x5e
  const TILDE: Byte := 0x7e

  datatype Version = Version(major: nat, minor: nat, patch: nat)

  function Number(text: Text): Option<nat> {
    if Numeral(text) then Some(DecimalValue(text)) else None
  }

  /** Three numerals between dots. */
  function ParsePlain(t: Text): Option<Version> {
    var i := Find(t, DOT);
    if i == |t| then None else
    var u := t[i + 1..];
    var j := Find(u, DOT);
    if j == |u| then None else
    var major, minor, patch := Number(t[..i]), Number(u[..j]), Number(u[j + 1..]);
    if major.None? || minor.None? || patch.None? then None
    else Some(Version(major.value, minor.value, patch.value))
  }

  /** parseNumericSemver: an optional "v" before the three numerals. */
  function Parse(text: Text): Option<Version> {
    ParsePlain(if text != [] && text[0] == LETTER_V then text[1..] else text)
  }

  function Print(v: Version): Text {
    Decimal(v.major) + [DOT] + (Decimal(v.minor) + [DOT] + Decimal(v.patch))
  }

  lemma NumberExactly(text: Text, n: nat)
    ensures Number(text) == Some(n) <==> text == Decimal(n)
    ensures Numeral(text) ==> forall i :: 0 <= i < |text| ==> text[i] != DOT && text[i] != LETTER_V
  {
    DecimalIsNumeral(n);
    if Numeral(text) {
      NumeralWritesBack(text);
    }
  }

  lemma DotAfterNumeral(n: nat, rest: Text)
    ensures Find(Decimal(n) + [DOT] + rest, DOT) == |Decimal(n)|
    ensures (Decimal(n) + [DOT] + rest)[..|Decimal(n)|] == Decimal(n)
    ensures (Decimal(n) + [DOT] + rest)[|Decimal(n)| + 1..] == rest
  {
    hide Decimal;
    NumberExactly(Decimal(n), n);
    FindAt(Decimal(n) + [DOT] + rest, DOT, |Decimal(n)|);
  }

  lemma PrintedParses(v: Version)
    ensures ParsePlain(Print(v)) == Some(v)
  {
    hide Decimal, Numeral, DecimalValue, Find, Number;
    NumberExactly(Decimal(v.major), v.major);
    NumberExactly(Decimal(v.minor), v.minor);
    NumberExactly(Decimal(v.patch), v.patch);
    DotAfterNumeral(v.major, Decimal(v.minor) + [DOT] + Decimal(v.patch));
    DotAfterNumeral(v.minor, Decimal(v.patch));
  }

  lemma ParsedIsPrinted(t: Text, v: Version)
    requires ParsePlain(t) == Some(v)
    ensures t == Print(v)
  {
    hide Decimal, Find, Number;
    var i := Find(t, DOT);
    var u := t[i + 1..];
    var j := Find(u, DOT);
    NumberExactly(t[..i], v.major);
    NumberExactly(u[..j], v.minor);
    NumberExactly(u[j + 1..], v.patch);
    assert u == u[..j] + [DOT] + u[j + 1..];
    assert t == t[..i] + [DOT] + u;
  }

  /** A text is read as a version exactly when it is that version's canonical text, with or
      without a leading "v". */
  lemma ParsesExactly(text: Text, v: Version)
    ensures Parse(text) == Some(v) <==> text == Print(v) || text == [LETTER_V] + Print(v)
  {
    hide ParsePlain, Decimal;
    PrintedParses(v);
    NumberExactly(Decimal(v.major), v.major);
    assert Print(v)[0] == Decimal(v.major)[0] != LETTER_V by { FirstIsDigit(v); }
    var t := if text != [] && text[0] == LETTER_V then text[1..] else text;
    assert ([LETTER_V] + Print(v))[1..] == Print(v);
    if Parse(text) == Some(v) {
      ParsedIsPrinted(t, v);
      assert text == t || text == [LETTER_V] + t;
    }
  }

  lemma FirstIsDigit(v: Version)
    ensures Print(v) != [] && Print(v)[0] == Decimal(v.major)[0] && 48 <= Print(v)[0] <= 57
  {
    DecimalIsNumeral(v.major);
  }

  // ---- Precedence and ranges ----

  /** compareNumericSemver, as a sign. */
  function Compare(a: Version, b: Version): int {
    if a.major != b.major then a.major - b.major
    else if a.minor != b.minor then a.minor - b.minor
    else a.patch - b.patch
  }

  /** assertLockedVersionSatisfiesRange, without its error texts: an exact range needs equal
      versions, a caret or tilde range is an interval from its version up to a bound. */
  function Satisfies(version: Text, range: Text): bool {
    var actual := Parse(version);
    var exact := Parse(range);
    if actual.None? then false
    else if exact.Some? then Compare(actual.value, exact.value) == 0
    else if range == [] || (range[0] != CARET && range[0] != TILDE) then false
    else
      var lower := Parse(range[1..]);
      if lower.None? then false
      else
        var low := lower.value;
        var upper :=
          if range[0] == TILDE then Version(low.major, low.minor + 1, 0)
          else if low.major > 0 then Version(low.major + 1, 0, 0)
          else if low.minor > 0 then Version(0, low.minor + 1, 0)
          else Version(0, 0, low.patch + 1);
        Compare(actual.value, low) >= 0 && Compare(actual.value, upper) < 0
  }

  /** SemVer item 11 on three parts: the first difference decides. */
  predicate Precedes(a: Version, b: Version) {
    a.major < b.major || (a.major == b.major && (a.minor < b.minor || (a.minor == b.minor && a.patch < b.patch)))
  }

  /** A caret range lets nothing change up to the first non-zero part. */
  predicate CaretAgrees(v: Version, low: Version) {
    && v.major == low.major
    && (low.major == 0 ==> v.minor == low.minor)
    && (low.major == 0 && low.minor == 0 ==> v.patch == low.patch)
  }

  predicate TildeAgrees(v: Version, low: Version) {
    v.major == low.major && v.minor == low.minor
  }

  /** What a declared range means, for a version that is not below it. */
  ghost predicate Meets(v: Version, range: Text) {
    || (exists w :: Parse(range) == Some(w) && v == w)
    || (range != [] && range[0] == CARET && exists low :: Parse(range[1..]) == Some(low) && !Precedes(v, low) && CaretAgrees(v, low))
    || (range != [] && range[0] == TILDE && exists low :: Parse(range[1..]) == Some(low) && !Precedes(v, low) && TildeAgrees(v, low))
  }

  lemma OperatorIsNotVersion(range: Text)
    requires range != [] && range[0] in {CARET, TILDE}
    ensures Parse(range).None?
  {
    if Parse(range).Some? {
      hide Parse, Print;
      var v := Parse(range).value;
      ParsesExactly(range, v);
      FirstIsDigit(v);
    }
  }

  /** The comparison agrees with precedence. */
  lemma CompareIsPrecedence(a: Version, b: Version)
    ensures Compare(a, b) < 0 <==> Precedes(a, b)
    ensures Compare(a, b) == 0 <==> a == b
    ensures Compare(a, b) > 0 <==> Precedes(b, a)
  {
  }

  /** The interval test accepts a version in exactly the meaning of its range. */
  lemma SatisfiesIsMeets(version: Text, range: Text)
    ensures Satisfies(version, range) <==> exists v :: Parse(version) == Some(v) && Meets(v, range)
  {
    hide Parse;
    if range != [] && range[0] in {CARET, TILDE} {
      OperatorIsNotVersion(range);
    }
  }
}
