/** Byte strings: searching and decimal numerals. */
module Bytes {

  type Byte = b: int | 0 <= b < 256

  const MAX_SAFE_INTEGER := 9007199254740991

  const SPACE: Byte := 0x20
  const NEWLINE: Byte := 0x0a
  const EQUALS: Byte := 0x3d
  const SLASH: Byte := 0x2f

  /** Position of the first `b` in `s`, or |s|. */
  function Find(s: seq<Byte>, b: Byte): (i: nat)
    ensures i <= |s|
    ensures i < |s| ==> s[i] == b
    ensures forall j :: 0 <= j < i ==> s[j] != b
  {
    if s == [] || s[0] == b then 0 else 1 + Find(s[1..], b)
  }

  lemma FindAt(s: seq<Byte>, b: Byte, i: nat)
    requires i <= |s| && (i < |s| ==> s[i] == b)
    requires forall j :: 0 <= j < i ==> s[j] != b
    ensures Find(s, b) == i
  {
  }

  function Decimal(n: nat): (text: seq<Byte>)
    ensures text != []
  {
    if n < 10 then [48 + n] else Decimal(n / 10) + [48 + n % 10]
  }

  predicate Digits(text: seq<Byte>) {
    forall i :: 0 <= i < |text| ==> 48 <= text[i] <= 57
  }

  function DecimalValue(text: seq<Byte>): (n: nat)
    requires Digits(text)
  {
    if text == [] then 0 else 10 * DecimalValue(text[..|text| - 1]) + (text[|text| - 1] - 48)
  }

  lemma {:induction false} DecimalReadsBack(n: nat)
    ensures Digits(Decimal(n)) && DecimalValue(Decimal(n)) == n
    ensures n > 0 ==> Decimal(n)[0] != 48
  {
    if n < 10 {
      assert Decimal(n)[..0] == [];
    } else {
      DecimalReadsBack(n / 10);
      assert Decimal(n)[..|Decimal(n)| - 1] == Decimal(n / 10);
    }
  }

  lemma {:induction false} DecimalGrows(m: nat, n: nat)
    requires m <= n
    ensures |Decimal(m)| <= |Decimal(n)|
  {
    if n >= 10 && m >= 10 {
      DecimalGrows(m / 10, n / 10);
    }
  }

  /** One more digit at most for one more unit. */
  lemma {:induction false} DecimalStep(n: nat)
    ensures |Decimal(n)| <= |Decimal(n + 1)| <= |Decimal(n)| + 1
  {
    DecimalGrows(n, n + 1);
    if n >= 10 {
      DecimalStep(n / 10);
    }
  }

  lemma {:induction false} DecimalShort(n: nat)
    ensures |Decimal(n)| <= 1 + n / 10
  {
    if n >= 10 {
      DecimalShort(n / 10);
    }
  }

  /** A numeral without superfluous leading zeros. */
  predicate Numeral(text: seq<Byte>) {
    text != [] && Digits(text) && (text[0] == 48 ==> |text| == 1)
  }

  lemma {:induction false} NumeralValuePositive(text: seq<Byte>)
    requires Digits(text) && text != [] && text[0] != 48
    ensures DecimalValue(text) > 0
  {
    if |text| == 1 {
      assert text[..0] == [];
    } else {
      NumeralValuePositive(text[..|text| - 1]);
    }
  }

  lemma {:induction false} NumeralWritesBack(text: seq<Byte>)
    requires Numeral(text)
    ensures Decimal(DecimalValue(text)) == text
  {
    if |text| == 1 {
      assert text[..0] == [];
    } else {
      var front := text[..|text| - 1];
      NumeralValuePositive(front);
      NumeralWritesBack(front);
      assert text == front + [text[|text| - 1]];
    }
  }

  lemma DecimalIsNumeral(n: nat)
    ensures Numeral(Decimal(n)) && DecimalValue(Decimal(n)) == n
  {
    DecimalReadsBack(n);
  }
}
