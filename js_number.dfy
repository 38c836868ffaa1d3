/**
  JavaScript's `parseInt(s)` with no radix, as the /api/learn route uses it
  on the `limit` query parameter (frontend/app/api/learn/route.ts): leading
  white space is skipped, one sign is read, "0x" or "0X" selects base 16,
  and the longest digit prefix is the value; no digit at all gives NaN,
  written `None`.
  */
module JsNumber {
  import opened Wrappers
  import opened JsString

  function DigitValue(c: char, radix: nat): (r: Option<nat>)
    ensures r.Some? ==> r.value < radix
  {
    var d: int :=
      if '0' <= c <= '9' then c as int - '0' as int
      else if 'a' <= c <= 'z' then c as int - 'a' as int + 10
      else if 'A' <= c <= 'Z' then c as int - 'A' as int + 10
      else radix;
    if d < radix then Some(d) else None
  }

  /** How many leading characters are digits of `radix`. */
  function DigitRun(s: string, radix: nat): (n: nat)
    ensures n <= |s|
    ensures forall k :: 0 <= k < n ==> DigitValue(s[k], radix).Some?
    ensures n < |s| ==> DigitValue(s[n], radix).None?
    decreases |s|
  {
    if s == [] || DigitValue(s[0], radix).None? then 0 else 1 + DigitRun(s[1..], radix)
  }

  /** The number an all-digit string denotes, most significant digit first. */
  function DigitsValue(s: string, radix: nat): nat
    requires forall k :: 0 <= k < |s| ==> DigitValue(s[k], radix).Some?
    decreases |s|
  {
    if s == [] then 0
    else
      var init := s[..|s| - 1];
      assert forall k :: 0 <= k < |init| ==> init[k] == s[k];
      var high := DigitsValue(init, radix);
      var low := DigitValue(s[|s| - 1], radix).value;
      assert high * radix >= 0 by { NatProduct(high, radix); }
      high * radix + low
  }

  lemma NatProduct(a: nat, b: nat)
    ensures a * b >= 0
  {
  }

  /** The longest digit prefix of `s` in `radix`, or NaN (None) when
      there is none. */
  function UnsignedPrefix(s: string, radix: nat): (r: Option<nat>)
  {
    var n := DigitRun(s, radix);
    if n == 0 then None else Some(DigitsValue(s[..n], radix))
  }

  /** The magnitude after the sign: "0x"/"0X" selects base 16. */
  function Magnitude(u: string): (r: Option<nat>)
  {
    if |u| >= 2 && u[0] == '0' && (u[1] == 'x' || u[1] == 'X') then UnsignedPrefix(u[2..], 16)
    else UnsignedPrefix(u, 10)
  }

  /** `parseInt` once leading white space is gone: one optional sign, then
      the magnitude. */
  function ParseSigned(t: string): (r: Option<int>)
  {
    var negative := |t| > 0 && t[0] == '-';
    var u := if |t| > 0 && (t[0] == '-' || t[0] == '+') then t[1..] else t;
    var magnitude := Magnitude(u);
    if magnitude.None? then None
    else
      var v: int := if negative then -(magnitude.value as int) else magnitude.value as int;
      Some(v)
  }

  /** `parseInt(s)` with no radix; NaN is None. */
  function ParseInt(s: string): (r: Option<int>)
  {
    ParseSigned(TrimStart(s))
  }

  /** The decimal digits of a natural number. */
  function DecimalString(n: nat): (r: string)
    ensures |r| >= 1
    ensures forall k :: 0 <= k < |r| ==> '0' <= r[k] <= '9'
  {
    if n < 10 then [('0' as int + n) as char]
    else DecimalString(n / 10) + [('0' as int + n % 10) as char]
  }

  lemma {:induction false} DecimalValue(n: nat)
    ensures forall k :: 0 <= k < |DecimalString(n)| ==> DigitValue(DecimalString(n)[k], 10).Some?
    ensures DigitsValue(DecimalString(n), 10) == n
  {
    var r := DecimalString(n);
    if n >= 10 {
      DecimalValue(n / 10);
      assert r[..|r| - 1] == DecimalString(n / 10);
    }
  }

  /** Distinct numbers have distinct decimal forms. */
  lemma DecimalInjective(i: nat, j: nat)
    requires DecimalString(i) == DecimalString(j)
    ensures i == j
  {
    DecimalValue(i);
    DecimalValue(j);
  }

  lemma {:induction false} DigitRunAppend(d: string, tail: string, radix: nat)
    requires forall k :: 0 <= k < |d| ==> DigitValue(d[k], radix).Some?
    requires tail == [] || DigitValue(tail[0], radix).None?
    ensures DigitRun(d + tail, radix) == |d|
    decreases |d|
  {
    if d == [] {
      assert d + tail == tail;
    } else {
      assert (d + tail)[1..] == d[1..] + tail;
      DigitRunAppend(d[1..], tail, radix);
    }
  }

  lemma TrimStartNoSpace(s: string)
    requires s == [] || !IsSpace(s[0])
    ensures TrimStart(s) == s
  {
  }

  /** What may follow the digits without changing the number read: not a
      digit, and not an "x" that would turn a lone "0" into a hex prefix. */
  predicate EndsNumber(tail: string) {
    tail == [] || (DigitValue(tail[0], 10).None? && tail[0] != 'x' && tail[0] != 'X')
  }

  /** The decimal form of `n`, followed by text that ends the number,
      reads back as `n`. */
  lemma MagnitudeOfDecimal(n: nat, tail: string)
    requires EndsNumber(tail)
    ensures Magnitude(DecimalString(n) + tail) == Some(n)
  {
    DecimalValue(n);
    MagnitudeOfDigits(DecimalString(n), tail);
  }

  /** Decimal digits followed by text that ends the number read as their
      value. */
  lemma MagnitudeOfDigits(d: string, tail: string)
    requires |d| >= 1 && forall k :: 0 <= k < |d| ==> '0' <= d[k] <= '9'
    requires EndsNumber(tail)
    ensures forall k :: 0 <= k < |d| ==> DigitValue(d[k], 10).Some?
    ensures Magnitude(d + tail) == Some(DigitsValue(d, 10))
  {
    NoHexMarker(d, tail);
    UnsignedPrefixOfDigits(d, tail, 10);
  }

  /** A run of digits followed by a non-digit reads as the run's value. */
  lemma UnsignedPrefixOfDigits(d: string, tail: string, radix: nat)
    requires d != [] && forall k :: 0 <= k < |d| ==> DigitValue(d[k], radix).Some?
    requires tail == [] || DigitValue(tail[0], radix).None?
    ensures UnsignedPrefix(d + tail, radix) == Some(DigitsValue(d, radix))
  {
    DigitRunAppend(d, tail, radix);
    assert (d + tail)[..|d|] == d;
  }

  /** Decimal digits followed by text that ends the number never spell a
      "0x" prefix. */
  lemma NoHexMarker(d: string, tail: string)
    requires |d| >= 1 && forall k :: 0 <= k < |d| ==> '0' <= d[k] <= '9'
    requires EndsNumber(tail)
    ensures var s := d + tail; |s| >= 2 ==> s[1] != 'x' && s[1] != 'X'
  {
    var s := d + tail;
    if |s| >= 2 {
      if |d| >= 2 {
        assert s[1] == d[1];
      } else {
        assert s[1] == tail[0];
      }
    }
  }

  /** `parseInt` reads back the decimal form of any natural number, and
      ignores what follows the digits. */
  lemma ParseIntDecimal(n: nat, tail: string)
    requires EndsNumber(tail)
    ensures ParseInt(DecimalString(n) + tail) == Some(n)
  {
    var d := DecimalString(n) + tail;
    MagnitudeOfDecimal(n, tail);
    assert d[0] == DecimalString(n)[0];
    assert !IsSpace(d[0]);
    TrimStartNoSpace(d);
    assert ParseInt(d) == ParseSigned(d);
    assert d[0] != '-' && d[0] != '+';
  }

  /** `parseInt("10")` is 10. */
  lemma ParseIntTen()
    ensures ParseInt("10") == Some(10)
  {
    assert DecimalString(10) == "10" by {
      assert DecimalString(1) == "1";
    }
    assert "10" + "" == "10";
    ParseIntDecimal(10, "");
  }

  /** A leading minus sign negates it. */
  lemma ParseIntNegative(n: nat, tail: string)
    requires EndsNumber(tail)
    ensures ParseInt("-" + (DecimalString(n) + tail)) == Some(-(n as int))
  {
    MagnitudeOfDecimal(n, tail);
    ParseIntMinus(DecimalString(n) + tail, n);
  }

  /** A minus sign before text of magnitude `v` reads as `-v`. */
  lemma ParseIntMinus(d: string, v: nat)
    requires Magnitude(d) == Some(v)
    ensures ParseInt("-" + d) == Some(-(v as int))
  {
    var m := "-" + d;
    assert m[0] == '-' && m[1..] == d;
    TrimStartNoSpace(m);
  }

  /** A string with no digit is NaN. */
  lemma ParseIntNaN()
    ensures ParseInt("") == None
    ensures ParseInt("abc") == None
  {
    TrimStartNoSpace("");
    TrimStartNoSpace("abc");
    assert DigitValue('a', 10).None?;
  }
}
