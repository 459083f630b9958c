/**
 * JavaScript's `parseInt` (radix 10) and `parseFloat`, with `None` for `NaN`.
 * Both skip leading white space, accept one sign and read the longest numeric
 * prefix, ignoring whatever follows it.
 */
module JsNumbers {
  import opened Wrappers
  import opened Text

  /** Number of leading decimal digits of `s`. */
  function LeadingDigits(s: string): (k: nat)
    ensures k <= |s|
    ensures forall i :: 0 <= i < k ==> IsDigit(s[i])
    ensures k == |s| || !IsDigit(s[k])
  {
    if s != [] && IsDigit(s[0]) then 1 + LeadingDigits(s[1..]) else 0
  }

  predicate AllDigits(s: string)
  {
    forall i :: 0 <= i < |s| ==> IsDigit(s[i])
  }

  /** The value of a run of decimal digits, most significant first. */
  function DigitsValue(d: string): nat
    requires AllDigits(d)
  {
    if d == [] then 0 else 10 * DigitsValue(d[..|d| - 1]) + (d[|d| - 1] as int - '0' as int)
  }

  function Pow10(n: nat): (r: nat)
    ensures r >= 1
  {
    if n == 0 then 1 else 10 * Pow10(n - 1)
  }

  /** A leading sign: the multiplier it stands for and the text after it. */
  function Signed(t: string): (int, string)
  {
    if t != [] && t[0] == '-' then (-1, t[1..])
    else if t != [] && t[0] == '+' then (1, t[1..])
    else (1, t)
  }

  /** `parseInt(s)` (no radix): `None` when no digit follows the white space and sign. */
  function ParseInt(s: string): Option<int>
  {
    var (sign, body) := Signed(TrimStart(s));
    var k := LeadingDigits(body);
    if k == 0 then None else Some(sign * DigitsValue(body[..k]))
  }

  /** `parseInt(s) || 0`: `NaN` (and zero) become zero. */
  function ParseIntOrZero(s: string): int
  {
    ParseInt(s).GetOr(0)
  }

  /** The exponent part `e[sign]digits` at the start of `t`, if there is one. */
  function Exponent(t: string): int
  {
    if t != [] && (t[0] == 'e' || t[0] == 'E') then
      var (sign, body) := Signed(t[1..]);
      var k := LeadingDigits(body);
      if k == 0 then 0 else sign * DigitsValue(body[..k])
    else 0
  }

  function Scale(x: real, e: int): real
  {
    if e >= 0 then x * (Pow10(e) as real) else x / (Pow10(-e) as real)
  }

  /**
   * `parseFloat(s)`: digits, an optional `.` and fraction digits, and an optional
   * exponent; `None` when neither integer nor fraction digits are present.
   */
  function ParseFloat(s: string): Option<real>
  {
    var (sign, body) := Signed(TrimStart(s));
    var k := LeadingDigits(body);
    var rest := body[k..];
    var frac := if rest != [] && rest[0] == '.' then rest[1..][..LeadingDigits(rest[1..])] else "";
    var after := if rest != [] && rest[0] == '.' then rest[1 + |frac|..] else rest;
    if k == 0 && frac == [] then None
    else
      var mantissa := DigitsValue(body[..k]) as real + DigitsValue(frac) as real / Pow10(|frac|) as real;
      Some(Scale(sign as real * mantissa, Exponent(after)))
  }

  /** `isNaN(parseFloat(s))` is false exactly when a digit comes first after the sign, or after a leading `.`. */
  lemma ParseFloatDefined(s: string)
    ensures var (_, body) := Signed(TrimStart(s));
      ParseFloat(s).Some? <==>
        (body != [] && IsDigit(body[0])) || (|body| >= 2 && body[0] == '.' && IsDigit(body[1]))
  {
  }

  lemma {:induction false} DigitsValueOfNat(n: nat)
    ensures AllDigits(NatToString(n)) && DigitsValue(NatToString(n)) == n
  {
    var r := NatToString(n);
    if n >= 10 {
      DigitsValueOfNat(n / 10);
      assert r[..|r| - 1] == NatToString(n / 10);
    }
  }

  lemma {:induction false} LeadingDigitsOfDigits(d: string, tail: string)
    requires AllDigits(d)
    requires tail == [] || !IsDigit(tail[0])
    ensures LeadingDigits(d + tail) == |d|
  {
    if d != [] {
      assert (d + tail)[1..] == d[1..] + tail;
      LeadingDigitsOfDigits(d[1..], tail);
    }
  }

  lemma TrimStartNoSpace(s: string)
    requires s == [] || !IsWhitespace(s[0])
    ensures TrimStart(s) == s
  {
  }

  /** The sign and digits `String(n)` writes, before any trailing text. */
  lemma {:induction false} SignedIntToString(n: int, tail: string)
    ensures var m := if n < 0 then -n else n;
      TrimStart(IntToString(n) + tail) == IntToString(n) + tail
      && Signed(IntToString(n) + tail) == (if n < 0 then -1 else 1, NatToString(m) + tail)
  {
    var m := if n < 0 then -n else n;
    var d := NatToString(m);
    var x := IntToString(n) + tail;
    if n < 0 {
      assert x == ['-'] + (d + tail);
      assert x[0] == '-' && x[1..] == d + tail;
    } else {
      assert x == d + tail;
      assert x[0] == d[0] && IsDigit(d[0]);
    }
    TrimStartNoSpace(x);
  }

  /** `parseInt` reads the decimal digits of a natural number back as that number. */
  lemma ParseIntOfNat(n: nat)
    ensures ParseInt(NatToString(n)) == Some(n)
  {
    ParseIntOfIntToString(n, "");
    assert IntToString(n) + "" == NatToString(n);
  }

  /** Reading back a written integer: `parseInt(String(n) + tail) == n` when `tail` does not start with a digit. */
  lemma ParseIntOfIntToString(n: int, tail: string)
    requires tail == [] || !IsDigit(tail[0])
    ensures ParseInt(IntToString(n) + tail) == Some(n)
  {
    var m := if n < 0 then -n else n;
    var d := NatToString(m);
    var sign := if n < 0 then -1 else 1;
    SignedIntToString(n, tail);
    DigitsValueOfNat(m);
    LeadingDigitsOfDigits(d, tail);
    assert (d + tail)[..|d|] == d;
    assert sign * m == n;
  }

  /** Reading back a written integer as a float: `parseFloat(String(n)) == n`. */
  lemma ParseFloatOfIntToString(n: int)
    ensures ParseFloat(IntToString(n)) == Some(n as real)
  {
    var m := if n < 0 then -n else n;
    var d := NatToString(m);
    var sign := if n < 0 then -1 else 1;
    SignedIntToString(n, "");
    assert IntToString(n) + "" == IntToString(n);
    assert d + "" == d;
    DigitsValueOfNat(m);
    LeadingDigitsOfDigits(d, "");
    assert d[..|d|] == d;
    assert d[|d|..] == "";
    assert Exponent("") == 0;
    assert DigitsValue("") == 0 && Pow10(0) == 1;
    assert sign as real * (m as real + 0.0 / 1.0) == n as real;
  }
}
