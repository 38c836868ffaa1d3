/**
  The JavaScript string primitives the application relies on: `trim`, the
  `\s` character class, `toLowerCase`, `startsWith`/`endsWith`, `join` and
  `split(/\s+/)`. Strings are sequences of Unicode code points.
  */
module JsString {

  /** The characters JavaScript's `trim` strips and `\s` matches: the
      WhiteSpace and LineTerminator code points of ECMAScript. */
  predicate IsSpace(c: char) {
    || '\U{0009}' <= c <= '\U{000D}'
    || c == ' ' || c == '\U{00A0}' || c == '\U{1680}'
    || '\U{2000}' <= c <= '\U{200A}'
    || c == '\U{2028}' || c == '\U{2029}' || c == '\U{202F}' || c == '\U{205F}'
    || c == '\U{3000}' || c == '\U{FEFF}'
  }

  predicate AllSpace(s: string) {
    forall i :: 0 <= i < |s| ==> IsSpace(s[i])
  }

  predicate IsUpperAscii(c: char) {
    'A' <= c <= 'Z'
  }

  /** `toLowerCase` on one character, for the ASCII letters. */
  function LowerChar(c: char): (r: char)
    ensures !IsUpperAscii(r)
    ensures IsSpace(r) <==> IsSpace(c)
    ensures !IsUpperAscii(c) ==> r == c
  {
    if IsUpperAscii(c) then (c as int + 32) as char else c
  }

  function ToLower(s: string): (r: string)
    ensures |r| == |s|
    ensures forall i :: 0 <= i < |s| ==> r[i] == LowerChar(s[i])
  {
    seq(|s|, i requires 0 <= i < |s| => LowerChar(s[i]))
  }

  /** `trimStart`: drops the leading run of white space. */
  function TrimStart(s: string): (r: string)
    ensures |r| <= |s| && r == s[|s| - |r|..]
    ensures AllSpace(s[..|s| - |r|])
    ensures r == [] || !IsSpace(r[0])
  {
    if s != [] && IsSpace(s[0]) then TrimStart(s[1..]) else s
  }

  /** `trimEnd`: drops the trailing run of white space. */
  function TrimEnd(s: string): (r: string)
    ensures |r| <= |s| && r == s[..|r|]
    ensures AllSpace(s[|r|..])
    ensures r == [] || !IsSpace(r[|r| - 1])
  {
    if s != [] && IsSpace(s[|s| - 1]) then TrimEnd(s[..|s| - 1]) else s
  }

  /** `trim` */
  function Trim(s: string): (r: string)
    ensures |r| <= |s|
    ensures r == [] || (!IsSpace(r[0]) && !IsSpace(r[|r| - 1]))
  {
    TrimEnd(TrimStart(s))
  }

  /** A string without white space at either end is its own trim. */
  lemma TrimOfTrimmed(s: string)
    requires s == [] || (!IsSpace(s[0]) && !IsSpace(s[|s| - 1]))
    ensures Trim(s) == s
  {
    assert TrimStart(s) == s;
  }

  /** Trimming twice is trimming once. */
  lemma TrimIdempotent(s: string)
    ensures Trim(Trim(s)) == Trim(s)
  {
    TrimOfTrimmed(Trim(s));
  }

  /** `replace(/\s+/g, ' ')`: every maximal run of white space becomes one
      plain space. */
  function CollapseSpaces(s: string): (r: string)
    decreases |s|
    ensures |r| <= |s|
    ensures r == [] <==> s == []
  {
    if s == [] then []
    else if IsSpace(s[0]) then [' '] + CollapseSpaces(TrimStart(s))
    else [s[0]] + CollapseSpaces(s[1..])
  }

  /** Collapsing keeps the kind (space or not) of the first character. */
  lemma CollapseFirst(s: string)
    ensures s != [] ==> (IsSpace(CollapseSpaces(s)[0]) <==> IsSpace(s[0]))
  {
  }

  /** Collapsing keeps the kind (space or not) of the last character. */
  lemma {:induction false} CollapseLast(s: string)
    ensures s != [] ==> var r := CollapseSpaces(s); IsSpace(r[|r| - 1]) <==> IsSpace(s[|s| - 1])
    decreases |s|
  {
    if s == [] { return; }
    var r := CollapseSpaces(s);
    if IsSpace(s[0]) {
      var t := TrimStart(s);
      if t != [] {
        assert t[|t| - 1] == s[|s| - 1];
        CollapseLast(t);
        assert r[|r| - 1] == CollapseSpaces(t)[|CollapseSpaces(t)| - 1];
      }
    } else if |s| > 1 {
      CollapseLast(s[1..]);
      assert r[|r| - 1] == CollapseSpaces(s[1..])[|CollapseSpaces(s[1..])| - 1];
    }
  }

  /** The only white space left is the plain space. */
  lemma {:induction false} CollapsePlain(s: string)
    ensures forall i :: 0 <= i < |CollapseSpaces(s)| && IsSpace(CollapseSpaces(s)[i]) ==> CollapseSpaces(s)[i] == ' '
    decreases |s|
  {
    if s != [] {
      var r := CollapseSpaces(s);
      var t := if IsSpace(s[0]) then TrimStart(s) else s[1..];
      CollapsePlain(t);
      var c := CollapseSpaces(t);
      assert r == [if IsSpace(s[0]) then ' ' else s[0]] + c;
      forall i | 1 <= i < |r| && IsSpace(r[i]) ensures r[i] == ' ' {
        assert r[i] == c[i - 1];
        assert 0 <= i - 1 < |c| && IsSpace(c[i - 1]);
        assert c[i - 1] == ' ';
      }
    }
  }

  /** No two white-space characters are left next to each other. */
  lemma {:induction false} CollapseNoDouble(s: string)
    ensures var r := CollapseSpaces(s); forall i :: 0 <= i < |r| - 1 ==> !(IsSpace(r[i]) && IsSpace(r[i + 1]))
    decreases |s|
  {
    if s != [] {
      var r := CollapseSpaces(s);
      var t := if IsSpace(s[0]) then TrimStart(s) else s[1..];
      CollapseNoDouble(t);
      var c := CollapseSpaces(t);
      assert r == [if IsSpace(s[0]) then ' ' else s[0]] + c;
      CollapseFirst(t);
      forall i | 0 <= i < |r| - 1 ensures !(IsSpace(r[i]) && IsSpace(r[i + 1])) {
        if i > 0 {
          assert r[i] == c[i - 1] && r[i + 1] == c[i];
        } else {
          assert r[1] == c[0];
        }
      }
    }
  }

  function StartsWith(s: string, prefix: string): bool {
    |prefix| <= |s| && s[..|prefix|] == prefix
  }

  function EndsWith(s: string, suffix: string): bool {
    |suffix| <= |s| && s[|s| - |suffix|..] == suffix
  }

  /** `parts.join(sep)` */
  function Join(parts: seq<string>, sep: string): (r: string)
    ensures parts == [] ==> r == ""
    ensures |parts| == 1 ==> r == parts[0]
  {
    if parts == [] then ""
    else if |parts| == 1 then parts[0]
    else parts[0] + sep + Join(parts[1..], sep)
  }

  /** `split(/\s+/)`: the pieces between maximal runs of white space; a
      leading or trailing run yields an empty first or last piece. */
  function SplitSpaces(s: string): (r: seq<string>)
    decreases |s|
    ensures |r| >= 1
  {
    if s == [] then [""]
    else if IsSpace(s[0]) then [""] + SplitSpaces(TrimStart(s))
    else
      var rest := SplitSpaces(s[1..]);
      [[s[0]] + rest[0]] + rest[1..]
  }
}
