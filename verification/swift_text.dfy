/**
 * The textual forms Swift gives `Int` and `Bool`: `String(x)` (the
 * `description`) and the failable `LosslessStringConvertible` initialisers
 * `Int(_:)` and `Bool(_:)` that the paging context parses its dictionary with.
 * `Int` is the 64-bit signed integer of the platform.
 */
module SwiftText {
  import opened Wrappers

  const MinInt: int := -0x8000_0000_0000_0000
  const MaxInt: int := 0x7FFF_FFFF_FFFF_FFFF

  /** Swift's `Int` on a 64-bit platform. */
  type Int = x: int | MinInt <= x <= MaxInt

  predicate IsDigit(c: char) {
    '0' <= c <= '9'
  }

  predicate AllDigits(s: string) {
    forall i | 0 <= i < |s| :: IsDigit(s[i])
  }

  function DigitValue(c: char): (d: nat)
    requires IsDigit(c)
    ensures d < 10
  {
    c as int - '0' as int
  }

  function DigitChar(d: nat): (c: char)
    requires d < 10
    ensures IsDigit(c) && DigitValue(c) == d
  {
    ('0' as int + d) as char
  }

  /** The decimal digits of `n`, most significant first, without leading zeros. */
  function Decimal(n: nat): (s: string)
    ensures |s| > 0 && AllDigits(s)
    ensures n < 10 <==> |s| == 1
    ensures |s| > 1 ==> s[0] != '0'
    decreases n
  {
    if n < 10 then [DigitChar(n)] else Decimal(n / 10) + [DigitChar(n % 10)]
  }

  /** The number a string of decimal digits denotes (leading zeros allowed). */
  function DigitsValue(s: string): nat
    requires AllDigits(s)
    decreases |s|
  {
    if s == [] then 0 else DigitsValue(s[..|s| - 1]) * 10 + DigitValue(s[|s| - 1])
  }

  lemma {:induction false} DecimalRoundTrip(n: nat)
    ensures DigitsValue(Decimal(n)) == n
    decreases n
  {
    if n >= 10 {
      var s := Decimal(n);
      assert s[..|s| - 1] == Decimal(n / 10);
      DecimalRoundTrip(n / 10);
    }
  }

  /** `String(x)` for an `Int`: an optional minus sign followed by the decimal digits. */
  function Describe(x: Int): (s: string)
    ensures |s| > 0
    ensures x < 0 <==> s[0] == '-'
    ensures x >= 0 ==> AllDigits(s)
    ensures x < 0 ==> AllDigits(s[1..])
  {
    if x < 0 then "-" + Decimal(-(x as int)) else Decimal(x)
  }

  /**
   * `Int(s)`: an optional `+` or `-`, then at least one decimal digit and
   * nothing else; a value outside the 64-bit range gives no value.
   */
  function ParseInt(s: string): (r: Option<Int>)
    ensures |s| == 0 ==> r == None
    ensures r.Some? && s[0] != '-' && s[0] != '+' ==> AllDigits(s)
    ensures r.Some? && (s[0] == '-' || s[0] == '+') ==> |s| > 1 && AllDigits(s[1..])
  {
    if |s| == 0 then None
    else
      var negative := s[0] == '-';
      var digits := if s[0] == '-' || s[0] == '+' then s[1..] else s;
      if |digits| == 0 || !AllDigits(digits) then None
      else
        var magnitude: int := DigitsValue(digits);
        var value: int := if negative then -magnitude else magnitude;
        if MinInt <= value <= MaxInt then Some(value) else None
  }

  /** Parsing the description of any `Int` gives that `Int` back. */
  lemma IntRoundTrip(x: Int)
    ensures ParseInt(Describe(x)) == Some(x)
  {
    var s := Describe(x);
    if x < 0 {
      var m: nat := -(x as int);
      assert s[1..] == Decimal(m);
      DecimalRoundTrip(m);
      assert s[0] == '-' && |s[1..]| > 0 && AllDigits(s[1..]);
    } else {
      DecimalRoundTrip(x);
      assert s[0] != '-' && s[0] != '+';
    }
  }

  /** `String(b)` for a `Bool`. */
  function DescribeBool(b: bool): (s: string)
    ensures s == "true" || s == "false"
    ensures s == "true" <==> b
  {
    if b then "true" else "false"
  }

  /** `Bool(s)`: exactly `"true"` or `"false"`, nothing else. */
  function ParseBool(s: string): (r: Option<bool>)
    ensures r.Some? ==> DescribeBool(r.value) == s
  {
    if s == "true" then Some(true)
    else if s == "false" then Some(false)
    else None
  }

  lemma BoolRoundTrip(b: bool)
    ensures ParseBool(DescribeBool(b)) == Some(b)
  {
  }
}
