/**
  Topic canonicalisation (frontend/lib/discovery.ts). `NormalizeTopic` is the
  key under which learning items are deduplicated: two topics that differ only
  in letter case or in incidental white space must map to the same key.
  */
module Discovery {
  import opened JsString
  import opened Wrappers

  /** The value stored as `event_type` in the user_events table. */
  datatype EventType = RecoShown | TopicClicked | ContentViewed | Saved | QuizCompleted | PlanGenerated

  /** Recommendation slot label. */
  datatype Slot = SlotA | SlotB | SlotC

  function EventTypeName(e: EventType): string {
    match e
    case RecoShown => "reco_shown"
    case TopicClicked => "topic_clicked"
    case ContentViewed => "content_viewed"
    case Saved => "saved"
    case QuizCompleted => "quiz_completed"
    case PlanGenerated => "plan_generated"
  }

  function ParseEventType(s: string): (r: Option<EventType>)
    ensures r.Some? ==> EventTypeName(r.value) == s
    ensures forall e :: EventTypeName(e) == s ==> r == Some(e)
  {
    if s == "reco_shown" then Some(RecoShown)
    else if s == "topic_clicked" then Some(TopicClicked)
    else if s == "content_viewed" then Some(ContentViewed)
    else if s == "saved" then Some(Saved)
    else if s == "quiz_completed" then Some(QuizCompleted)
    else if s == "plan_generated" then Some(PlanGenerated)
    else None
  }

  function SlotName(s: Slot): string {
    match s
    case SlotA => "A"
    case SlotB => "B"
    case SlotC => "C"
  }

  function ParseSlot(s: string): (r: Option<Slot>)
    ensures r.Some? ==> SlotName(r.value) == s
    ensures forall x :: SlotName(x) == s ==> r == Some(x)
  {
    if s == "A" then Some(SlotA)
    else if s == "B" then Some(SlotB)
    else if s == "C" then Some(SlotC)
    else None
  }

  /** No white space at either end. */
  predicate NoEdgeSpace(s: string) {
    s == [] || (!IsSpace(s[0]) && !IsSpace(s[|s| - 1]))
  }

  /** The only white space is the plain space, never two in a row. */
  predicate SingleSpaced(s: string) {
    && (forall i :: 0 <= i < |s| && IsSpace(s[i]) ==> s[i] == ' ')
    && (forall i :: 0 <= i < |s| - 1 ==> !(IsSpace(s[i]) && IsSpace(s[i + 1])))
  }

  predicate NoUpper(s: string) {
    forall i :: 0 <= i < |s| ==> !IsUpperAscii(s[i])
  }

  /** A string `NormalizeTopic` leaves as it is. */
  predicate IsNormalTopic(s: string) {
    NoEdgeSpace(s) && SingleSpaced(s) && NoUpper(s)
  }

  /** `normalizeTopic`: trim, collapse white-space runs, lowercase. */
  function NormalizeTopic(topic: string): (r: string)
    ensures |r| <= |topic|
    ensures IsNormalTopic(r)
  {
    var t := Trim(topic);
    var c := CollapseSpaces(t);
    CollapseTrimmed(t);
    LowerKeepsSpacing(c);
    ToLower(c)
  }

  /** Collapsing a trimmed string leaves it trimmed and single-spaced. */
  lemma CollapseTrimmed(t: string)
    requires NoEdgeSpace(t)
    ensures NoEdgeSpace(CollapseSpaces(t)) && SingleSpaced(CollapseSpaces(t))
  {
    CollapsePlain(t);
    CollapseNoDouble(t);
    CollapseFirst(t);
    CollapseLast(t);
  }

  /** Lowercasing keeps the white space where it is. */
  lemma LowerKeepsSpacing(c: string)
    requires NoEdgeSpace(c) && SingleSpaced(c)
    ensures IsNormalTopic(ToLower(c))
  {
    var r := ToLower(c);
    assert forall i :: 0 <= i < |c| ==> (IsSpace(r[i]) <==> IsSpace(c[i]));
  }

  // ---------------------------------------------------------------------------
  // Facts about the trimming primitives used below.

  lemma {:induction false} TrimStartOfSpacePrefix(w: string, y: string)
    requires AllSpace(w)
    ensures TrimStart(w + y) == TrimStart(y)
    decreases |w|
  {
    if w != [] {
      assert (w + y)[0] == w[0];
      assert (w + y)[1..] == w[1..] + y;
      assert AllSpace(w[1..]) by {
        forall i | 0 <= i < |w| - 1 ensures IsSpace(w[1..][i]) { assert w[1..][i] == w[i + 1]; }
      }
      TrimStartOfSpacePrefix(w[1..], y);
    } else {
      assert w + y == y;
    }
  }

  lemma {:induction false} TrimStartKeepsTail(x: string, y: string)
    requires !AllSpace(x)
    ensures TrimStart(x + y) == TrimStart(x) + y
    decreases |x|
  {
    assert x != [];
    if IsSpace(x[0]) {
      assert (x + y)[1..] == x[1..] + y;
      assert !AllSpace(x[1..]) by {
        var i :| 0 <= i < |x| && !IsSpace(x[i]);
        assert x[1..][i - 1] == x[i];
      }
      TrimStartKeepsTail(x[1..], y);
    }
  }

  lemma {:induction false} TrimEndOfSpaceSuffix(x: string, v: string)
    requires AllSpace(v)
    ensures TrimEnd(x + v) == TrimEnd(x)
    decreases |v|
  {
    if v != [] {
      var v' := v[..|v| - 1];
      assert (x + v)[|x + v| - 1] == v[|v| - 1];
      assert (x + v)[..|x + v| - 1] == x + v';
      assert AllSpace(v') by {
        forall i | 0 <= i < |v'| ensures IsSpace(v'[i]) { assert v'[i] == v[i]; }
      }
      TrimEndOfSpaceSuffix(x, v');
    } else {
      assert x + v == x;
    }
  }

  lemma {:induction false} TrimEndKeepsHead(x: string, y: string)
    requires !AllSpace(y)
    ensures TrimEnd(x + y) == x + TrimEnd(y)
    decreases |y|
  {
    assert y != [];
    if IsSpace(y[|y| - 1]) {
      var y' := y[..|y| - 1];
      assert (x + y)[..|x + y| - 1] == x + y';
      assert !AllSpace(y') by {
        var i :| 0 <= i < |y| && !IsSpace(y[i]);
        assert i < |y| - 1;
        assert y'[i] == y[i];
      }
      TrimEndKeepsHead(x, y');
    }
  }

  lemma TrimOfAllSpace(s: string)
    requires AllSpace(s)
    ensures Trim(s) == []
  {
    TrimStartOfSpacePrefix(s, []);
    assert s + [] == s;
  }

  // ---------------------------------------------------------------------------
  // Properties of normalizeTopic.

  /** An empty or all-white-space topic, and only such a topic, normalizes to "". */
  lemma NormalizeEmptyIffAllSpace(topic: string)
    ensures NormalizeTopic(topic) == "" <==> AllSpace(topic)
  {
    if AllSpace(topic) {
      TrimOfAllSpace(topic);
    } else {
      var i :| 0 <= i < |topic| && !IsSpace(topic[i]);
      TrimStartKeepsTail(topic, []);
      assert topic + [] == topic;
      var ts := TrimStart(topic);
      assert ts != [] && !IsSpace(ts[0]);
      assert !AllSpace(ts);
      TrimEndKeepsHead([], ts);
      assert [] + ts == ts;
      assert TrimEnd(ts) != [];
    }
  }

  /** Every suffix of a single-spaced string is single-spaced. */
  lemma SingleSpacedSuffix(s: string, k: nat)
    requires k <= |s| && SingleSpaced(s)
    ensures SingleSpaced(s[k..])
  {
    forall i | 0 <= i < |s| - k ensures s[k..][i] == s[k + i] { }
  }

  /** A single space followed by a word character collapses to itself. */
  lemma CollapseLoneSpace(rest: string)
    requires rest != [] && IsSpace(rest[0])
    requires |rest| == 1 || !IsSpace(rest[1])
    ensures CollapseSpaces(rest) == [' '] + CollapseSpaces(rest[1..])
  {
    var after := rest[1..];
    assert after == [] || !IsSpace(after[0]);
    assert TrimStart(after) == after;
  }

  lemma {:induction false} CollapseFixesSingleSpaced(s: string)
    requires SingleSpaced(s)
    requires s == [] || !IsSpace(s[0])
    ensures CollapseSpaces(s) == s
    decreases |s|
  {
    if s != [] {
      var rest := s[1..];
      SingleSpacedSuffix(s, 1);
      if rest != [] && IsSpace(rest[0]) {
        assert rest[0] == ' ';
        assert |rest| == 1 || !IsSpace(rest[1]);
        CollapseLoneSpace(rest);
        SingleSpacedSuffix(rest, 1);
        CollapseFixesSingleSpaced(rest[1..]);
        assert [' '] + rest[1..] == rest;
      } else {
        CollapseFixesSingleSpaced(rest);
      }
      assert [s[0]] + rest == s;
    }
  }

  /** A string already in normal form is its own normal form. */
  lemma NormalTopicIsFixed(s: string)
    requires IsNormalTopic(s)
    ensures NormalizeTopic(s) == s
  {
    assert TrimStart(s) == s;
    assert TrimEnd(s) == s;
    CollapseFixesSingleSpaced(s);
    assert ToLower(s) == s;
  }

  /** normalizeTopic is idempotent. */
  lemma NormalizeIdempotent(topic: string)
    ensures NormalizeTopic(NormalizeTopic(topic)) == NormalizeTopic(topic)
  {
    NormalTopicIsFixed(NormalizeTopic(topic));
  }

  // Lowercasing commutes with the white-space steps.

  lemma {:induction false} TrimStartLower(s: string)
    ensures TrimStart(ToLower(s)) == ToLower(TrimStart(s))
    decreases |s|
  {
    if s != [] {
      assert ToLower(s)[1..] == ToLower(s[1..]);
      TrimStartLower(s[1..]);
    }
  }

  lemma {:induction false} TrimEndLower(s: string)
    ensures TrimEnd(ToLower(s)) == ToLower(TrimEnd(s))
    decreases |s|
  {
    if s != [] {
      assert ToLower(s)[..|s| - 1] == ToLower(s[..|s| - 1]);
      TrimEndLower(s[..|s| - 1]);
    }
  }

  /** Lowercasing works character by character. */
  lemma LowerConcat(a: string, b: string)
    ensures ToLower(a + b) == ToLower(a) + ToLower(b)
  {
    var l, r := ToLower(a + b), ToLower(a) + ToLower(b);
    forall i | 0 <= i < |l| ensures l[i] == r[i] {
      if i < |a| { assert (a + b)[i] == a[i]; } else { assert (a + b)[i] == b[i - |a|]; }
    }
  }

  lemma {:induction false} CollapseLower(s: string)
    ensures CollapseSpaces(ToLower(s)) == ToLower(CollapseSpaces(s))
    decreases |s|
  {
    if s != [] {
      var l := ToLower(s);
      assert l[0] == LowerChar(s[0]);
      if IsSpace(s[0]) {
        var t := TrimStart(s);
        assert t == TrimStart(s[1..]);
        TrimStartLower(s);
        CollapseLower(t);
        assert CollapseSpaces(l) == [' '] + ToLower(CollapseSpaces(t));
        LowerConcat([' '], CollapseSpaces(t));
        assert ToLower([' ']) == [' '];
      } else {
        assert l[1..] == ToLower(s[1..]);
        CollapseLower(s[1..]);
        assert CollapseSpaces(l) == [LowerChar(s[0])] + ToLower(CollapseSpaces(s[1..]));
        LowerConcat([s[0]], CollapseSpaces(s[1..]));
        assert ToLower([s[0]]) == [LowerChar(s[0])];
      }
    }
  }

  /** Trimming commutes with lowercasing. */
  lemma TrimLower(s: string)
    ensures Trim(ToLower(s)) == ToLower(Trim(s))
  {
    TrimStartLower(s);
    TrimEndLower(TrimStart(s));
  }

  /** Lowercasing twice is lowercasing once. */
  lemma LowerTwice(c: string)
    ensures ToLower(ToLower(c)) == ToLower(c)
  {
  }

  lemma NormalizeOfLower(s: string)
    ensures NormalizeTopic(ToLower(s)) == NormalizeTopic(s)
  {
    TrimLower(s);
    CollapseLower(Trim(s));
    LowerTwice(CollapseSpaces(Trim(s)));
  }

  /** Topics that differ only in letter case normalize to the same key. */
  lemma NormalizeIgnoresCase(a: string, b: string)
    requires ToLower(a) == ToLower(b)
    ensures NormalizeTopic(a) == NormalizeTopic(b)
  {
    NormalizeOfLower(a);
    NormalizeOfLower(b);
  }

  lemma CollapseLeadingRun(w: string, y: string)
    requires AllSpace(w) && w != []
    ensures CollapseSpaces(w + y) == [' '] + CollapseSpaces(TrimStart(y))
  {
    assert (w + y)[0] == w[0];
    TrimStartOfSpacePrefix(w, y);
  }

  lemma CollapseCons(c: char, rest: string)
    requires !IsSpace(c)
    ensures CollapseSpaces([c] + rest) == [c] + CollapseSpaces(rest)
  {
    assert ([c] + rest)[1..] == rest;
  }

  /** Collapsing a string that starts with white space. */
  lemma CollapseSpaceHead(s: string)
    requires s != [] && IsSpace(s[0])
    ensures CollapseSpaces(s) == [' '] + CollapseSpaces(TrimStart(s))
  {
  }

  /** Replacing one white-space run by any other non-empty one does not change
      how the string collapses. */
  lemma {:induction false} CollapseAnyRun(x: string, w: string, y: string)
    requires AllSpace(w) && w != []
    ensures CollapseSpaces(x + w + y) == CollapseSpaces(x + [' '] + y)
    decreases |x|
  {
    var s, s' := x + w + y, x + [' '] + y;
    if x == [] {
      assert s == w + y && s' == [' '] + y;
      CollapseLeadingRun(w, y);
      CollapseLeadingRun([' '], y);
    } else if !IsSpace(x[0]) {
      CollapseWordHead(x, w, y);
      CollapseWordHead(x, [' '], y);
      CollapseAnyRun(x[1..], w, y);
    } else if AllSpace(x) {
      assert AllSpace(x + w) && AllSpace(x + [' ']);
      assert s == (x + w) + y && s' == (x + [' ']) + y;
      CollapseLeadingRun(x + w, y);
      CollapseLeadingRun(x + [' '], y);
    } else {
      CollapseInnerRun(x, w, y);
      CollapseInnerRun(x, [' '], y);
      CollapseAnyRun(TrimStart(x), w, y);
    }
  }

  lemma CollapseWordHead(x: string, m: string, y: string)
    requires x != [] && !IsSpace(x[0])
    ensures CollapseSpaces(x + m + y) == [x[0]] + CollapseSpaces(x[1..] + m + y)
  {
    var rest := x[1..] + m + y;
    assert x + m + y == [x[0]] + rest;
    CollapseCons(x[0], rest);
  }

  lemma CollapseInnerRun(x: string, w: string, y: string)
    requires x != [] && IsSpace(x[0]) && !AllSpace(x)
    ensures |TrimStart(x)| < |x|
    ensures CollapseSpaces(x + w + y) == [' '] + CollapseSpaces(TrimStart(x) + w + y)
  {
    var s := x + w + y;
    TrimStartKeepsTail2(x, w, y);
    assert s[0] == x[0];
    CollapseSpaceHead(s);
  }

  /** Trimming either keeps the inner run in place or removes it with an edge. */
  lemma TrimAroundRun(x: string, w: string, y: string)
    requires AllSpace(w) && w != []
    ensures
      || Trim(x + w + y) == Trim(x + [' '] + y)
      || (exists x', y' :: Trim(x + w + y) == x' + w + y' && Trim(x + [' '] + y) == x' + [' '] + y')
  {
    if AllSpace(x) {
      TrimRunAtStart(x, w, y);
    } else if AllSpace(y) {
      TrimRunAtEnd(x, w, y);
    } else {
      TrimRunInside(x, w, y);
    }
  }

  /** A run with only white space before it is trimmed away with the start. */
  lemma TrimRunAtStart(x: string, w: string, y: string)
    requires AllSpace(x) && AllSpace(w)
    ensures Trim(x + w + y) == Trim(x + [' '] + y)
  {
    assert AllSpace(x + w) && AllSpace(x + [' ']);
    TrimStartOfSpacePrefix(x + w, y);
    TrimStartOfSpacePrefix(x + [' '], y);
  }

  /** A run with only white space after it is trimmed away with the end. */
  lemma TrimRunAtEnd(x: string, w: string, y: string)
    requires !AllSpace(x) && AllSpace(w) && AllSpace(y)
    ensures Trim(x + w + y) == Trim(x + [' '] + y)
  {
    var t := TrimStart(x);
    TrimStartKeepsTail2(x, w, y);
    assert Trim(x + w + y) == TrimEnd(t + w + y);
    TrimEndOfTwoRuns(t, w, y);
    TrimStartKeepsTail2(x, [' '], y);
    assert Trim(x + [' '] + y) == TrimEnd(t + [' '] + y);
    TrimEndOfTwoRuns(t, [' '], y);
  }

  lemma TrimEndOfTwoRuns(t: string, m: string, y: string)
    requires AllSpace(m) && AllSpace(y)
    ensures TrimEnd(t + m + y) == TrimEnd(t)
  {
    TrimEndOfSpaceSuffix(t + m, y);
    TrimEndOfSpaceSuffix(t, m);
  }

  /** A run with word characters on both sides survives trimming. */
  lemma TrimRunInside(x: string, w: string, y: string)
    requires !AllSpace(x) && !AllSpace(y)
    ensures var t := TrimStart(x);
      Trim(x + w + y) == t + w + TrimEnd(y) && Trim(x + [' '] + y) == t + [' '] + TrimEnd(y)
  {
    TrimMiddle(x, w, y);
    TrimMiddle(x, [' '], y);
  }

  /** Trimming `x + m + y` touches only `x` and `y` when both hold a word
      character. */
  lemma TrimMiddle(x: string, m: string, y: string)
    requires !AllSpace(x) && !AllSpace(y)
    ensures Trim(x + m + y) == TrimStart(x) + m + TrimEnd(y)
  {
    TrimStartKeepsTail2(x, m, y);
    TrimEndKeepsHead(TrimStart(x) + m, y);
  }

  /** A word character in `x` shields `m` and `y` from trimming the start. */
  lemma TrimStartKeepsTail2(x: string, m: string, y: string)
    requires !AllSpace(x)
    ensures TrimStart(x + m + y) == TrimStart(x) + m + y
  {
    var i :| 0 <= i < |x| && !IsSpace(x[i]);
    assert (x + m)[i] == x[i];
    TrimStartKeepsTail(x + m, y);
    TrimStartKeepsTail(x, m);
  }

  /** Topics that differ only in the length or kind of one inner white-space
      run normalize to the same key. */
  lemma NormalizeIgnoresSpaceKind(x: string, w1: string, w2: string, y: string)
    requires AllSpace(w1) && w1 != []
    requires AllSpace(w2) && w2 != []
    ensures NormalizeTopic(x + w1 + y) == NormalizeTopic(x + w2 + y)
  {
    NormalizeOneRun(x, w1, y);
    NormalizeOneRun(x, w2, y);
  }

  lemma NormalizeOneRun(x: string, w: string, y: string)
    requires AllSpace(w) && w != []
    ensures NormalizeTopic(x + w + y) == NormalizeTopic(x + [' '] + y)
  {
    TrimAroundRun(x, w, y);
    if Trim(x + w + y) != Trim(x + [' '] + y) {
      var x', y' :| Trim(x + w + y) == x' + w + y' && Trim(x + [' '] + y) == x' + [' '] + y';
      CollapseAnyRun(x', w, y');
    }
  }

  /** White space added at either end does not change the key. */
  lemma NormalizeIgnoresEdgeSpace(w: string, x: string, v: string)
    requires AllSpace(w) && AllSpace(v)
    ensures NormalizeTopic(w + x + v) == NormalizeTopic(x)
  {
    assert w + x + v == w + (x + v);
    TrimStartOfSpacePrefix(w, x + v);
    if AllSpace(x) {
      assert AllSpace(x + v);
      TrimOfAllSpace(x + v);
      TrimOfAllSpace(x);
    } else {
      TrimStartKeepsTail(x, v);
      TrimEndOfSpaceSuffix(TrimStart(x), v);
    }
  }
}
