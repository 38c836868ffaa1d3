/**
  JavaScript's string `length`. Dafny strings here are sequences of Unicode
  code points; JavaScript stores UTF-16, where a code point above U+FFFF
  takes a surrogate pair, so `length` counts it twice.
  */
module Utf16 {

  /** The UTF-16 code units JavaScript spends on one code point: a surrogate
      pair for a code point above U+FFFF, one unit otherwise. */
  function CodeUnits(c: char): nat {
    if c as int > 0xFFFF then 2 else 1
  }

  /** A string's `length` in JavaScript: its count of UTF-16 code units. */
  function Length(s: string): (n: nat)
    ensures |s| <= n <= 2 * |s|
  {
    if s == [] then 0 else CodeUnits(s[0]) + Length(s[1..])
  }

  lemma {:induction false} LengthAppend(a: string, b: string)
    ensures Length(a + b) == Length(a) + Length(b)
  {
    if a != [] {
      assert (a + b)[1..] == a[1..] + b;
      LengthAppend(a[1..], b);
    } else {
      assert a + b == b;
    }
  }

  /** Without code points above U+FFFF, `length` counts the characters. */
  lemma {:induction false} LengthOfBmp(s: string)
    requires forall i :: 0 <= i < |s| ==> s[i] as int <= 0xFFFF
    ensures Length(s) == |s|
  {
    if s != [] {
      LengthOfBmp(s[1..]);
    }
  }

  /** Code points above U+FFFF each count twice. */
  lemma {:induction false} LengthOfAstral(s: string)
    requires forall i :: 0 <= i < |s| ==> s[i] as int > 0xFFFF
    ensures Length(s) == 2 * |s|
  {
    if s != [] {
      LengthOfAstral(s[1..]);
    }
  }
}
