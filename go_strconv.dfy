/**
 * The conversions of Go's `strconv` and `fmt` packages that the chat client
 * applies to configuration values: Atoi, Itoa / "%d", ParseBool, FormatBool,
 * ParseFloat and the shortest "%g" rendering of a float64.
 *
 * A float64 is modelled as an exact decimal `Decimal(mant, exp)` standing for
 * mant * 10^exp; every value the client parses or prints is a short decimal.
 */
module GoStrconv {
  import opened Wrappers

  const MinInt64: int := -0x8000_0000_0000_0000
  const MaxInt64: int := 0x7FFF_FFFF_FFFF_FFFF

  predicate IsDigit(c: char) {
    '0' <= c <= '9'
  }

  predicate AllDigits(s: string) {
    forall i :: 0 <= i < |s| ==> IsDigit(s[i])
  }

  function DigitValue(c: char): nat
    requires IsDigit(c)
  {
    c as int - '0' as int
  }

  function DigitChar(d: nat): (c: char)
    requires d < 10
    ensures IsDigit(c) && DigitValue(c) == d
  {
    ('0' as int + d) as char
  }

  /** The number a string of decimal digits denotes (most significant first). */
  function DigitsValue(s: string): nat
    requires AllDigits(s)
  {
    if s == [] then 0 else DigitsValue(s[..|s| - 1]) * 10 + DigitValue(s[|s| - 1])
  }

  /** Decimal digits of n, without leading zeros ("0" for zero). */
  function NatDigits(n: nat): (s: string)
    ensures AllDigits(s) && s != []
    ensures DigitsValue(s) == n
    ensures |s| > 1 ==> s[0] != '0'
  {
    if n < 10 then [DigitChar(n)]
    else
      var s := NatDigits(n / 10) + [DigitChar(n % 10)];
      assert s[..|s| - 1] == NatDigits(n / 10);
      s
  }

  /** fmt.Sprintf("%d", n) and strconv.Itoa(n). */
  function Itoa(n: int): string {
    if n < 0 then "-" + NatDigits(-n) else NatDigits(n)
  }

  /** An optional '+' or '-' sign in front of s: (negative, the rest). */
  function SplitSign(s: string): (bool, string) {
    if s != [] && s[0] == '-' then (true, s[1..])
    else if s != [] && s[0] == '+' then (false, s[1..])
    else (false, s)
  }

  /** The integer an Atoi-shaped string denotes, before the int64 range check. */
  function AtoiValue(s: string): Option<int> {
    var (neg, body) := SplitSign(s);
    if body == [] || !AllDigits(body) then None
    else
      var v: int := DigitsValue(body);
      Some(if neg then -v else v)
  }

  predicate InInt64(n: int) {
    MinInt64 <= n <= MaxInt64
  }

  /**
   * strconv.Atoi on a 64-bit platform: an optional sign and at least one
   * decimal digit, with the value inside the int64 range; None is an error.
   */
  function Atoi(s: string): (r: Option<int>)
    ensures r.Some? ==> InInt64(r.value)
    ensures r.Some? <==> AtoiValue(s).Some? && InInt64(AtoiValue(s).value)
  {
    match AtoiValue(s)
    case None => None
    case Some(v) => if InInt64(v) then Some(v) else None
  }

  /**
   * The int a caller gets from strconv.Atoi when it ignores the error:
   * 0 on a syntax error, the nearest int64 bound on a range error.
   */
  function AtoiIgnoringError(s: string): (r: int)
    ensures InInt64(r)
    ensures Atoi(s).Some? ==> r == Atoi(s).value
    ensures AtoiValue(s).None? ==> r == 0
    ensures AtoiValue(s).Some? && AtoiValue(s).value > MaxInt64 ==> r == MaxInt64
    ensures AtoiValue(s).Some? && AtoiValue(s).value < MinInt64 ==> r == MinInt64
  {
    match AtoiValue(s)
    case None => 0
    case Some(v) => if v < MinInt64 then MinInt64 else if v > MaxInt64 then MaxInt64 else v
  }

  /** mustAtoi: the parsed value, or the fallback when Atoi fails. */
  function AtoiOr(s: string, fallback: int): (r: int)
    ensures Atoi(s).Some? ==> r == Atoi(s).value
    ensures Atoi(s).None? ==> r == fallback
  {
    Atoi(s).GetOr(fallback)
  }

  /** mustParseFloat: the parsed value, or the fallback when ParseFloat fails. */
  function ParseFloatOr(s: string, fallback: Decimal): (r: Decimal)
    ensures ParseFloat(s).Some? ==> r == ParseFloat(s).value
    ensures ParseFloat(s).None? ==> r == fallback
  {
    ParseFloat(s).GetOr(fallback)
  }

  lemma {:induction false} ParseNatDigits(n: nat)
    ensures AtoiValue(NatDigits(n)) == Some(n)
  {
    var s := NatDigits(n);
    assert SplitSign(s) == (false, s);
  }

  /** Itoa and Atoi are inverse on the int64 range. */
  lemma {:induction false} AtoiItoa(n: int)
    requires InInt64(n)
    ensures Atoi(Itoa(n)) == Some(n)
  {
    if n < 0 {
      var s := Itoa(n);
      assert SplitSign(s) == (true, NatDigits(-n));
    } else {
      ParseNatDigits(n);
    }
  }

  /** strconv.ParseBool: the six accepted spellings of each truth value. */
  function ParseBool(s: string): (r: Option<bool>)
  {
    if s in {"1", "t", "T", "TRUE", "true", "True"} then Some(true)
    else if s in {"0", "f", "F", "FALSE", "false", "False"} then Some(false)
    else None
  }

  /** strconv.FormatBool and "%v" of a bool. */
  function FormatBool(b: bool): (s: string)
    ensures ParseBool(s) == Some(b)
  {
    if b then "true" else "false"
  }

  // ---------------------------------------------------------------------
  // float64 as an exact decimal
  // ---------------------------------------------------------------------

  datatype Decimal = Decimal(mant: int, exp: int)

  function Pow10(k: nat): (r: nat)
    ensures r >= 1
  {
    if k == 0 then 1 else 10 * Pow10(k - 1)
  }

  /** The real number a Decimal stands for. */
  function Value(d: Decimal): real {
    if d.exp >= 0 then (d.mant * Pow10(d.exp)) as real
    else d.mant as real / Pow10(-d.exp) as real
  }

  function FromInt(n: int): (d: Decimal)
    ensures Value(d) == n as real
  {
    Decimal(n, 0)
  }

  /** Length of the leading run of decimal digits. */
  function DigitRun(s: string): (n: nat)
    ensures n <= |s| && AllDigits(s[..n])
    ensures n < |s| ==> !IsDigit(s[n])
  {
    if s == [] || !IsDigit(s[0]) then 0 else 1 + DigitRun(s[1..])
  }

  /** The exponent suffix of a float literal: empty, or [eE][+-]?digits. */
  function ParseExponent(s: string): Option<int> {
    if s == [] then Some(0)
    else if s[0] != 'e' && s[0] != 'E' then None
    else AtoiValue(s[1..])
  }

  /**
   * strconv.ParseFloat(s, 64) on decimal literals: an optional sign, digits
   * with at most one '.', at least one digit, then an optional exponent.
   */
  function ParseFloat(s: string): (r: Option<Decimal>)
    ensures s == [] ==> r.None?
  {
    var (neg, body) := SplitSign(s);
    var n := DigitRun(body);
    var rest := body[n..];
    var (frac, tail) :=
      if rest != [] && rest[0] == '.' then
        var m := DigitRun(rest[1..]);
        (rest[1..][..m], rest[1..][m..])
      else ([], rest);
    if n + |frac| == 0 then None
    else match ParseExponent(tail)
      case None => None
      case Some(e) =>
        var digits := body[..n] + frac;
        assert AllDigits(digits);
        var v: int := DigitsValue(digits);
        Some(Decimal(if neg then -v else v, e - |frac|))
  }

  /** fmt.Sprintf("%g", f) for f a float64 (the form the flag parser reads back). */
  function FormatG(d: Decimal): string {
    if d.mant == 0 then "0"
    else
      var neg := d.mant < 0;
      var all := NatDigits(if neg then -d.mant else d.mant);
      var z := TrailingZeros(all);
      var digits := all[..|all| - z];
      var dp := |digits| + d.exp + z;
      (if neg then "-" else "") +
      (if dp - 1 < -4 || dp - 1 >= 6 then EForm(digits, dp - 1) else FForm(digits, dp))
  }

  /** Number of trailing '0' digits of a digit string that does not start with '0'. */
  function TrailingZeros(s: string): (z: nat)
    requires s != [] && (|s| > 1 ==> s[0] != '0')
    ensures z < |s| || s == "0"
  {
    if |s| == 1 || s[|s| - 1] != '0' then 0 else 1 + TrailingZeros(s[..|s| - 1])
  }

  function Zeros(k: nat): (s: string)
    ensures |s| == k
  {
    if k == 0 then "" else "0" + Zeros(k - 1)
  }

  /** %f-style digits with the decimal point dp places after the first digit. */
  function FForm(digits: string, dp: int): string {
    if dp <= 0 then "0." + Zeros(-dp) + digits
    else if dp >= |digits| then digits + Zeros(dp - |digits|)
    else digits[..dp] + "." + digits[dp..]
  }

  /** %e-style: d.ddd e±XX with at least two exponent digits. */
  function EForm(digits: string, x: int): string
    requires digits != []
  {
    var ax := if x < 0 then -x else x;
    [digits[0]] + (if |digits| > 1 then "." + digits[1..] else "")
    + "e" + (if x < 0 then "-" else "+")
    + (if ax < 10 then "0" else "") + NatDigits(ax)
  }

  /** int(f): conversion of a float64 to int, truncating toward zero. */
  function Trunc(d: Decimal): (n: int)
    ensures d.exp >= 0 ==> n == d.mant * Pow10(d.exp)
  {
    if d.exp >= 0 then d.mant * Pow10(d.exp)
    else if d.mant >= 0 then d.mant / Pow10(-d.exp)
    else -((-d.mant) / Pow10(-d.exp))
  }
}
