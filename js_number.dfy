/** JavaScript numbers as the modelled code uses them: finite values, NaN and
    the two infinities, the falsy-default idiom `x || d`, `Math.round` and
    `Number.parseInt(s, 10)`.  Finite values are exact reals: binary
    floating-point rounding is not modelled. */
module JsNumber {
  import opened Wrappers
  import Strings

  datatype Num = Finite(v: real) | NaN | Infinity(positive: bool)

  function Of(i: int): Num
  {
    Finite(i as real)
  }

  /** `Number.isFinite(n)`. */
  predicate IsFinite(n: Num)
  {
    n.Finite?
  }

  /** Truthiness: NaN and zero are falsy. */
  predicate Truthy(n: Num)
  {
    (n.Finite? && n.v != 0.0) || n.Infinity?
  }

  /** `n || 0`: NaN and zero become 0, every other number is kept. */
  function OrZero(n: Num): (r: Num)
    ensures !r.NaN?
    ensures Truthy(n) ==> r == n
    ensures !Truthy(n) ==> r == Finite(0.0)
  {
    if Truthy(n) then n else Finite(0.0)
  }

  /** `n > 0` (false for NaN). */
  predicate Positive(n: Num)
  {
    (n.Finite? && n.v > 0.0) || n == Infinity(true)
  }

  /** `n <= 0` (false for NaN). */
  predicate NonPositive(n: Num)
  {
    (n.Finite? && n.v <= 0.0) || n == Infinity(false)
  }

  /** `a < b` (false when either side is NaN). */
  predicate Less(a: Num, b: Num)
  {
    match (a, b)
    case (Finite(x), Finite(y)) => x < y
    case (Infinity(false), Finite(_)) => true
    case (Finite(_), Infinity(true)) => true
    case (Infinity(false), Infinity(true)) => true
    case _ => false
  }

  /** `a + b` under IEEE-754 rules for NaN and the infinities. */
  function Add(a: Num, b: Num): (r: Num)
    ensures a.Finite? && b.Finite? ==> r == Finite(a.v + b.v)
    ensures a.NaN? || b.NaN? ==> r.NaN?
  {
    match (a, b)
    case (Finite(x), Finite(y)) => Finite(x + y)
    case (NaN, _) => NaN
    case (_, NaN) => NaN
    case (Infinity(p), Infinity(q)) => if p == q then a else NaN
    case (Infinity(_), Finite(_)) => a
    case (Finite(_), Infinity(_)) => b
  }

  /** `Math.round(x)`: the nearest integer, halves rounded up. */
  function Round(x: real): (r: int)
    ensures x - 0.5 < r as real <= x + 0.5
  {
    (x + 0.5).Floor
  }

  lemma RoundInteger(n: int)
    ensures Round(n as real) == n
  {
  }

  predicate IsDigit(c: char)
  {
    '0' <= c <= '9'
  }

  /** The length of the longest prefix of `s` made of decimal digits. */
  function DigitRun(s: string): (n: nat)
    ensures n <= |s|
    ensures forall i :: 0 <= i < n ==> IsDigit(s[i])
    ensures n < |s| ==> !IsDigit(s[n])
  {
    if |s| > 0 && IsDigit(s[0]) then 1 + DigitRun(s[1..]) else 0
  }

  function DigitsValue(ds: string): nat
    requires forall i :: 0 <= i < |ds| ==> IsDigit(ds[i])
  {
    if |ds| == 0 then 0
    else
      var last := ds[|ds| - 1];
      assert IsDigit(last);
      DigitsValue(ds[..|ds| - 1]) * 10 + (last as int - '0' as int)
  }

  /** `Number.parseInt(s, 10)`: leading whitespace is skipped, an optional
      sign is read, then the longest run of decimal digits; with no digit the
      result is NaN, here None. */
  function ParseInt(s: string): Option<int>
  {
    var t := Strings.TrimStart(s);
    var negative := |t| > 0 && t[0] == '-';
    var body := if |t| > 0 && (t[0] == '-' || t[0] == '+') then t[1..] else t;
    var n := DigitRun(body);
    if n == 0 then None
    else
      var magnitude: int := DigitsValue(body[..n]);
      Some(if negative then -magnitude else magnitude)
  }

  /** `v || d` for the result of a parse: NaN and 0 give the default. */
  function ParsedOr(p: Option<int>, d: int): int
  {
    if p.None? || p.value == 0 then d else p.value
  }

  function DigitChar(d: nat): char
    requires d < 10
  {
    ('0' as int + d) as char
  }

  /** The decimal numeral of a natural number, as an input field holds it. */
  function Decimal(n: nat): (r: string)
    ensures |r| > 0
    ensures forall i :: 0 <= i < |r| ==> IsDigit(r[i])
  {
    if n < 10 then [DigitChar(n)] else Decimal(n / 10) + [DigitChar(n % 10)]
  }

  lemma {:induction false} DecimalValue(n: nat)
    ensures DigitsValue(Decimal(n)) == n
  {
    if n >= 10 {
      DecimalValue(n / 10);
      var r := Decimal(n);
      assert r[..|r| - 1] == Decimal(n / 10);
    }
  }

  lemma {:induction false} DigitRunAll(s: string)
    requires forall i :: 0 <= i < |s| ==> IsDigit(s[i])
    ensures DigitRun(s) == |s|
  {
    if |s| > 0 {
      DigitRunAll(s[1..]);
    }
  }

  /** Parsing the numeral of a natural number gives that number back. */
  lemma ParseIntDecimal(n: nat)
    ensures ParseInt(Decimal(n)) == Some(n)
  {
    var s := Decimal(n);
    assert IsDigit(s[0]);
    assert !Strings.IsWhitespace(s[0]);
    assert Strings.TrimStart(s) == s;
    assert s[0] != '-' && s[0] != '+';
    DigitRunAll(s);
    DecimalValue(n);
    assert s[..|s|] == s;
  }

  /** A string without any decimal digit does not parse (NaN). */
  lemma ParseIntNoDigits(s: string)
    requires forall i :: 0 <= i < |s| ==> !IsDigit(s[i])
    ensures ParseInt(s).None?
  {
    var t := Strings.TrimStart(s);
    assert forall i :: 0 <= i < |t| ==> t[i] == s[|s| - |t| + i];
    var body := if |t| > 0 && (t[0] == '-' || t[0] == '+') then t[1..] else t;
    assert |body| > 0 ==> !IsDigit(body[0]);
  }
}
