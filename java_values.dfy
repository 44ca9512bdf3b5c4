/** Java value semantics the body handler relies on: fixed-width integers,
    `Long.parseLong` and ASCII case folding. */
module JavaValues {

  datatype Option<+T> = None | Some(value: T)

  newtype byte = x: int | 0 <= x < 256

  const MinLong: int := -0x8000_0000_0000_0000
  const MaxLong: int := 0x7FFF_FFFF_FFFF_FFFF
  const MinInt: int := -0x8000_0000
  const MaxInt: int := 0x7FFF_FFFF

  predicate IsLong(x: int) { MinLong <= x <= MaxLong }
  predicate IsInt(x: int) { MinInt <= x <= MaxInt }

  /** Two's-complement wrap-around of a Java `long` operation. */
  function WrapLong(x: int): (r: int)
    ensures IsLong(r)
    ensures IsLong(x) ==> r == x
    ensures (r - x) % 0x1_0000_0000_0000_0000 == 0
  {
    if IsLong(x) then x
    else
      var q := (x - MinLong) / 0x1_0000_0000_0000_0000;
      var r := (x - MinLong) % 0x1_0000_0000_0000_0000 + MinLong;
      assert r - x == -q * 0x1_0000_0000_0000_0000;
      r
  }

  /** The narrowing cast `(int)` of a Java `long`. */
  function ToInt(x: int): (r: int)
    ensures IsInt(r)
    ensures IsInt(x) ==> r == x
    ensures (r - x) % 0x1_0000_0000 == 0
  {
    if IsInt(x) then x
    else
      var q := (x - MinInt) / 0x1_0000_0000;
      var r := (x - MinInt) % 0x1_0000_0000 + MinInt;
      assert r - x == -q * 0x1_0000_0000;
      r
  }

  function Min(a: int, b: int): (r: int)
    ensures r <= a && r <= b && (r == a || r == b)
  {
    if a <= b then a else b
  }

  // ----- decimal digits -----

  predicate IsDigit(c: char) { '0' <= c <= '9' }

  predicate AllDigits(s: string) { forall i :: 0 <= i < |s| ==> IsDigit(s[i]) }

  function DigitValue(c: char): (d: nat)
    requires IsDigit(c)
    ensures d < 10
  {
    c as int - '0' as int
  }

  function DigitChar(d: nat): (c: char)
    requires d < 10
    ensures IsDigit(c) && DigitValue(c) == d
  {
    ('0' as int + d) as char
  }

  /** The value of a string of decimal digits, most significant first. */
  function DigitsValue(s: string): nat
    requires AllDigits(s)
    decreases |s|
  {
    if s == [] then 0 else DigitsValue(s[..|s| - 1]) * 10 + DigitValue(s[|s| - 1])
  }

  /** Canonical decimal rendering of a natural number (what `Long.toString` prints). */
  function ToDecimal(n: nat): (s: string)
    decreases n
  {
    if n < 10 then [DigitChar(n)] else ToDecimal(n / 10) + [DigitChar(n % 10)]
  }

  lemma {:induction false} DecimalRoundTrip(n: nat)
    ensures |ToDecimal(n)| >= 1 && AllDigits(ToDecimal(n))
    ensures DigitsValue(ToDecimal(n)) == n
    decreases n
  {
    if n >= 10 {
      DecimalRoundTrip(n / 10);
      var p := ToDecimal(n / 10);
      var s := ToDecimal(n);
      assert s == p + [DigitChar(n % 10)];
      assert s[..|s| - 1] == p;
    }
  }

  /** `Long.parseLong(s)` in radix 10: an optional single sign followed by at least
      one decimal digit, with a value that fits a signed 64-bit integer; `None`
      stands for the `NumberFormatException`. */
  function ParseLong(s: string): (r: Option<int>)
    ensures r.Some? ==> IsLong(r.value)
    ensures r.Some? ==> |s| > 0 && AllDigits(s[1..])
    ensures r.Some? ==> IsDigit(s[0]) || (|s| > 1 && (s[0] == '-' || s[0] == '+'))
    ensures r.Some? && r.value < 0 ==> s[0] == '-'
  {
    if |s| == 0 then None
    else if s[0] == '-' || s[0] == '+' then
      if |s| == 1 || !AllDigits(s[1..]) then None
      else
        var magnitude: int := DigitsValue(s[1..]);
        var v: int := if s[0] == '-' then -magnitude else magnitude;
        if IsLong(v) then Some(v) else None
    else if AllDigits(s) then
      var v := DigitsValue(s);
      assert AllDigits(s[1..]) by { assert forall i :: 0 <= i < |s[1..]| ==> s[1..][i] == s[i + 1]; }
      if v <= MaxLong then Some(v) else None
    else None
  }

  /** Every non-empty digit string, leading zeros included, unsigned or after one
      sign, parses to its value when that value fits a `long`, and is rejected otherwise. */
  lemma ParseLongOfDigits(d: string)
    requires |d| >= 1 && AllDigits(d)
    ensures ParseLong(d) == if DigitsValue(d) <= MaxLong then Some(DigitsValue(d) as int) else None
    ensures ParseLong("+" + d) == if DigitsValue(d) <= MaxLong then Some(DigitsValue(d) as int) else None
    ensures ParseLong("-" + d) == if DigitsValue(d) <= -MinLong then Some(-(DigitsValue(d) as int)) else None
  {
    assert IsDigit(d[0]);
    SignedDigits(d, '+');
    SignedDigits(d, '-');
  }

  lemma SignedDigits(d: string, sign: char)
    requires |d| >= 1 && AllDigits(d) && (sign == '+' || sign == '-')
    ensures var s := [sign] + d; |s| > 1 && s[0] == sign && s[1..] == d && AllDigits(s[1..])
  {
    var s := [sign] + d;
    assert s[1..] == d;
  }

  /** Every canonical, optionally signed, rendering of a 64-bit value parses back to it. */
  lemma ParseLongOfDecimal(n: nat)
    ensures n <= MaxLong ==> ParseLong(ToDecimal(n)) == Some(n)
    ensures n <= MaxLong ==> ParseLong("+" + ToDecimal(n)) == Some(n)
    ensures n <= -MinLong ==> ParseLong("-" + ToDecimal(n)) == Some(-(n as int))
    ensures n > -MinLong ==> ParseLong("-" + ToDecimal(n)) == None
  {
    DecimalRoundTrip(n);
    ParseLongOfDigits(ToDecimal(n));
  }

  // ----- ASCII case folding -----

  function LowerChar(c: char): (r: char)
    ensures 'A' <= c <= 'Z' ==> r as int == c as int + 32
    ensures !('A' <= c <= 'Z') ==> r == c
  {
    if 'A' <= c <= 'Z' then (c as int + 32) as char else c
  }

  /** `String.toLowerCase()` restricted to ASCII letters. */
  function ToLower(s: string): (r: string)
    ensures |r| == |s|
    ensures forall i :: 0 <= i < |s| ==> r[i] == LowerChar(s[i])
  {
    seq(|s|, i requires 0 <= i < |s| => LowerChar(s[i]))
  }

  predicate StartsWith(s: string, prefix: string) {
    |prefix| <= |s| && s[..|prefix|] == prefix
  }

  /** `String.equalsIgnoreCase` restricted to ASCII letters. */
  predicate EqualsIgnoreCase(a: string, b: string) {
    |a| == |b| && forall i :: 0 <= i < |a| ==> LowerChar(a[i]) == LowerChar(b[i])
  }
}
