/**
 Base-unit money strings (src/domain/money/base-unit.ts) and the decimal and
 hexadecimal numerals they are made from. Amounts are unbounded integers, as
 JavaScript's `BigInt` is.
 */
module BaseUnit {
  import opened Common

  datatype AmountError = NotCanonical | NotPositive | Negative

  predicate IsDigit(c: char) {
    '0' <= c <= '9'
  }

  predicate AllDigits(s: string) {
    forall i :: 0 <= i < |s| ==> IsDigit(s[i])
  }

  predicate IsPositiveBaseUnitString(s: string) {
    |s| > 0 && s[0] != '0' && AllDigits(s)
  }

  predicate IsBaseUnitString(s: string) {
    s == "0" || IsPositiveBaseUnitString(s)
  }

  function DigitValue(c: char): (d: nat)
    requires IsDigit(c)
    ensures d < 10
  {
    c as int - '0' as int
  }

  function DigitChar(d: nat): (c: char)
    requires d < 10
    ensures IsDigit(c) && DigitValue(c) == d
  {
    ('0' as int + d) as char
  }

  /** The integer a run of decimal digits denotes (`BigInt(s)`). */
  function DecimalValue(s: string): nat
    requires AllDigits(s)
  {
    if s == "" then 0 else DecimalValue(s[..|s| - 1]) * 10 + DigitValue(s[|s| - 1])
  }

  /** `value.toString(10)` of a non-negative integer. */
  function Decimal(n: nat): string {
    if n < 10 then [DigitChar(n)] else Decimal(n / 10) + [DigitChar(n % 10)]
  }

  function ParseBaseUnits(s: string): Result<nat, AmountError> {
    if IsBaseUnitString(s) then Ok(DecimalValue(s)) else Err(NotCanonical)
  }

  function ParsePositiveBaseUnits(s: string): Result<nat, AmountError> {
    if IsPositiveBaseUnitString(s) then Ok(DecimalValue(s)) else Err(NotPositive)
  }

  function FormatBaseUnits(value: int): Result<string, AmountError> {
    if value < 0 then Err(Negative) else Ok(Decimal(value))
  }

  // ----- decimal numerals are canonical: printing and parsing undo each other -----

  lemma {:induction false} DecimalRoundTrip(n: nat)
    ensures IsBaseUnitString(Decimal(n))
    ensures n > 0 ==> IsPositiveBaseUnitString(Decimal(n))
    ensures DecimalValue(Decimal(n)) == n
  {
    if n >= 10 {
      DecimalRoundTrip(n / 10);
      var s := Decimal(n);
      assert s[..|s| - 1] == Decimal(n / 10);
    }
  }

  lemma {:induction false} PositiveValue(s: string)
    requires IsPositiveBaseUnitString(s)
    ensures DecimalValue(s) > 0
    ensures |s| > 1 ==> DecimalValue(s) >= 10
  {
    if |s| > 1 {
      PositiveValue(s[..|s| - 1]);
    } else {
      assert s[..|s| - 1] == "";
      assert DigitValue(s[0]) != 0;
    }
  }

  lemma {:induction false} PrintOfParse(s: string)
    requires IsBaseUnitString(s)
    ensures Decimal(DecimalValue(s)) == s
  {
    if |s| > 1 {
      var front := s[..|s| - 1];
      PositiveValue(s);
      PositiveValue(front);
      PrintOfParse(front);
      assert s == front + [s[|s| - 1]];
    } else {
      assert s == [s[0]] && s[..|s| - 1] == "";
    }
  }

  /**
   Amount strings are faithful: formatting a parsed amount gives the string back,
   parsing a formatted amount gives the integer back, anything else is refused.
   */
  lemma AmountRoundTrip(s: string, n: int)
    ensures IsBaseUnitString(s) <==> exists m: nat :: FormatBaseUnits(m) == Ok(s)
    ensures ParseBaseUnits(s).Ok? ==> FormatBaseUnits(ParseBaseUnits(s).value) == Ok(s)
    ensures n >= 0 ==> ParseBaseUnits(FormatBaseUnits(n).value) == Ok(n)
    ensures n > 0 ==> ParsePositiveBaseUnits(FormatBaseUnits(n).value) == Ok(n)
    ensures n < 0 ==> FormatBaseUnits(n).Err?
  {
    if IsBaseUnitString(s) {
      PrintOfParse(s);
      assert FormatBaseUnits(DecimalValue(s)) == Ok(s);
    }
    forall m: nat | FormatBaseUnits(m) == Ok(s) ensures IsBaseUnitString(s) {
      DecimalRoundTrip(m);
    }
    if n >= 0 {
      DecimalRoundTrip(n);
    }
  }

  lemma DecimalInjective(a: nat, b: nat)
    ensures Decimal(a) == Decimal(b) ==> a == b
  {
    DecimalRoundTrip(a);
    DecimalRoundTrip(b);
  }

  // ----- sizes -----

  function Pow(base: nat, exponent: nat): (p: nat)
    ensures base > 0 ==> p > 0
  {
    if exponent == 0 then 1 else base * Pow(base, exponent - 1)
  }

  /** A number has at most `k` decimal digits exactly when it is below `10^k`. */
  lemma {:induction false} DecimalLength(n: nat, k: nat)
    requires k > 0
    ensures |Decimal(n)| <= k <==> n < Pow(10, k)
  {
    if k == 1 {
      assert Pow(10, 1) == 10 * Pow(10, 0);
    } else if n < 10 {
      SmallBelowPow(k);
    } else {
      DecimalLength(n / 10, k - 1);
      var p := Pow(10, k - 1);
      assert Pow(10, k) == 10 * p;
      assert n / 10 < p <==> n < 10 * p;
    }
  }

  lemma {:induction false} SmallBelowPow(k: nat)
    requires k > 0
    ensures Pow(10, k) >= 10
  {
    if k > 1 {
      SmallBelowPow(k - 1);
    } else {
      assert Pow(10, 1) == 10 * Pow(10, 0);
    }
  }

  // ----- hexadecimal words -----

  predicate IsHexDigit(c: char) {
    IsDigit(c) || 'a' <= c <= 'f' || 'A' <= c <= 'F'
  }

  predicate AllHexDigits(s: string) {
    forall i :: 0 <= i < |s| ==> IsHexDigit(s[i])
  }

  function HexDigitValue(c: char): (d: nat)
    requires IsHexDigit(c)
    ensures d < 16
  {
    if IsDigit(c) then DigitValue(c)
    else if 'a' <= c <= 'f' then c as int - 'a' as int + 10
    else c as int - 'A' as int + 10
  }

  function HexValue(s: string): nat
    requires AllHexDigits(s)
  {
    if s == "" then 0 else HexValue(s[..|s| - 1]) * 16 + HexDigitValue(s[|s| - 1])
  }

  lemma {:induction false} HexBound(s: string)
    requires AllHexDigits(s)
    ensures HexValue(s) < Pow(16, |s|)
  {
    if s != "" {
      HexBound(s[..|s| - 1]);
    }
  }

  function HexChar(d: nat): (c: char)
    requires d < 16
    ensures IsHexDigit(c) && HexDigitValue(c) == d
  {
    if d < 10 then ('0' as int + d) as char else ('a' as int + d - 10) as char
  }

  /** A number in so many lower-case hexadecimal digits. */
  function HexPrint(n: nat, width: nat): (s: string)
    ensures |s| == width && AllHexDigits(s)
  {
    if width == 0 then "" else HexPrint(n / 16, width - 1) + [HexChar(n % 16)]
  }

  lemma {:induction false} HexRoundTrip(n: nat, width: nat)
    requires n < Pow(16, width)
    ensures HexValue(HexPrint(n, width)) == n
  {
    if width > 0 {
      var p := Pow(16, width - 1);
      assert Pow(16, width) == 16 * p;
      assert n / 16 < p <==> n < 16 * p;
      HexRoundTrip(n / 16, width - 1);
      assert HexPrint(n, width)[..width - 1] == HexPrint(n / 16, width - 1);
    }
  }

  /** Case does not change the number a hexadecimal word denotes. */
  lemma {:induction false} HexCase(s: string)
    requires AllHexDigits(s)
    ensures AllHexDigits(Lower(s)) && HexValue(Lower(s)) == HexValue(s)
  {
    if s != "" {
      var front := s[..|s| - 1];
      HexCase(front);
      assert Lower(s)[..|s| - 1] == Lower(front);
    }
  }

  lemma {:induction false} PowSplit(base: nat, a: nat, b: nat)
    ensures Pow(base, a + b) == Pow(base, a) * Pow(base, b)
  {
    if a > 0 {
      PowSplit(base, a - 1, b);
      calc {
        Pow(base, a + b);
        base * Pow(base, (a - 1) + b);
        base * (Pow(base, a - 1) * Pow(base, b));
        { MulAssociative(base, Pow(base, a - 1), Pow(base, b)); }
        (base * Pow(base, a - 1)) * Pow(base, b);
        Pow(base, a) * Pow(base, b);
      }
    }
  }

  lemma MulAssociative(x: nat, y: nat, z: nat)
    ensures x * (y * z) == (x * y) * z
  {
  }

  lemma PowDouble(base: nat, a: nat, p: nat)
    requires Pow(base, a) == p
    ensures Pow(base, 2 * a) == p * p
  {
    PowSplit(base, a, a);
  }

  /** `16^64`, the first number that does not fit a 256-bit word, has 78 decimal digits. */
  lemma WordBound()
    ensures Pow(10, 77) < Pow(16, 64) < Pow(10, 78)
  {
    PowersOfSixteen();
    PowersOfTen();
  }

  lemma PowersOfSixteen()
    ensures Pow(16, 64) == 0x1_0000_0000_0000_0000_0000_0000_0000_0000_0000_0000_0000_0000_0000_0000_0000_0000
  {
    assert Pow(16, 0) == 1;
    assert Pow(16, 1) == 16;
    PowDouble(16, 1, 0x100 / 16);
    PowDouble(16, 2, 0x100);
    PowDouble(16, 4, 0x1_0000);
    PowDouble(16, 8, 0x1_0000_0000);
    PowDouble(16, 16, 0x1_0000_0000_0000_0000);
    PowDouble(16, 32, 0x1_0000_0000_0000_0000_0000_0000_0000_0000);
  }

  lemma PowersOfTen()
    ensures Pow(10, 77) == 100000000000000000000000000000000000000000000000000000000000000000000000000000
    ensures Pow(10, 78) == 1000000000000000000000000000000000000000000000000000000000000000000000000000000
  {
    assert Pow(10, 0) == 1;
    assert Pow(10, 1) == 10;
    PowDouble(10, 1, 10);
    PowDouble(10, 2, 100);
    PowSplit(10, 4, 1);
    PowDouble(10, 4, 10000);
    PowSplit(10, 8, 1);
    PowDouble(10, 9, 1000000000);
    PowSplit(10, 18, 1);
    PowDouble(10, 19, 10000000000000000000);
    PowDouble(10, 38, 100000000000000000000000000000000000000);
    PowSplit(10, 76, 1);
    PowSplit(10, 77, 1);
  }

  /** Every 256-bit amount prints to at most 78 digits, and the largest needs all of them. */
  lemma WordDigits(n: nat, words: nat)
    requires words == Pow(16, 64) && n < words
    ensures |Decimal(n)| <= 78
    ensures n == words - 1 ==> |Decimal(n)| == 78
  {
    WordBound();
    DecimalLength(n, 78);
    DecimalLength(n, 77);
  }
}
