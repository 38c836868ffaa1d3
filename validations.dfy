/**
  The zod input schemas of frontend/lib/validations.ts. Each schema is a
  parser from decoded JSON to the typed record of `Types`, behaving as zod's
  `parse` does: the value must be an object, every declared key must hold a
  value of the declared shape and bounds, an `.optional()` key may be absent,
  and keys the schema does not declare are dropped. String lengths are
  JavaScript lengths, counted in UTF-16 code units.
  */
module Validations {
  import opened Wrappers
  import opened Json
  import opened Types
  import Utf16

  // ---------------------------------------------------------------------
  // Generic building blocks
  // ---------------------------------------------------------------------

  /** `.min(lo).max(hi)` on a string: its UTF-16 length is in bounds. */
  predicate InLen(s: string, lo: nat, hi: nat) {
    lo <= Utf16.Length(s) <= hi
  }

  predicate AllInLen(ss: seq<string>, lo: nat, hi: nat) {
    forall i :: 0 <= i < |ss| ==> InLen(ss[i], lo, hi)
  }

  predicate IsHexDigit(c: char) {
    '0' <= c <= '9' || 'a' <= c <= 'f' || 'A' <= c <= 'F'
  }

  /** `z.string().uuid()`: five dash-separated groups of 8, 4, 4, 4 and 12
      hexadecimal digits. */
  predicate IsUuid(s: string) {
    && |s| == 36
    && (forall i :: 0 <= i < 36 && (i == 8 || i == 13 || i == 18 || i == 23) ==> s[i] == '-')
    && (forall i :: 0 <= i < 36 && !(i == 8 || i == 13 || i == 18 || i == 23) ==> IsHexDigit(s[i]))
  }

  predicate IsSchemeChar(c: char) {
    'a' <= c <= 'z' || 'A' <= c <= 'Z' || '0' <= c <= '9' || c == '+' || c == '-' || c == '.'
  }

  /** `z.string().url()`, reduced to its syntactic core: an absolute URL starts
      with a scheme (a letter, then letters, digits, `+`, `-` or `.`) and a colon. */
  predicate IsUrl(s: string) {
    && |s| > 0 && ('a' <= s[0] <= 'z' || 'A' <= s[0] <= 'Z')
    && exists k :: 1 <= k < |s| && s[k] == ':' && forall j :: 0 <= j < k ==> IsSchemeChar(s[j])
  }

  function MapSeq<A, B>(xs: seq<A>, f: A -> B): (r: seq<B>)
    ensures |r| == |xs|
    ensures forall i :: 0 <= i < |xs| ==> r[i] == f(xs[i])
  {
    seq(|xs|, i requires 0 <= i < |xs| => f(xs[i]))
  }

  /** Parses every element with `p`; fails as soon as one element fails. */
  function ParseEach<T>(items: seq<Value>, p: Value -> Option<T>): (r: Option<seq<T>>)
    ensures r.Some? <==> forall i :: 0 <= i < |items| ==> p(items[i]).Some?
    ensures r.Some? ==> |r.value| == |items| && forall i :: 0 <= i < |items| ==> p(items[i]) == Some(r.value[i])
  {
    if items == [] then Some([])
    else
      var head := p(items[0]);
      var tail := ParseEach(items[1..], p);
      assert forall j :: 0 <= j < |items| - 1 ==> items[1..][j] == items[j + 1];
      if head.Some? && tail.Some? then Some([head.value] + tail.value)
      else None
  }

  /** Decoding an encoded sequence gives it back when every element round-trips. */
  lemma ParseEachMap<T>(xs: seq<T>, f: T -> Value, p: Value -> Option<T>)
    requires forall i :: 0 <= i < |xs| ==> p(f(xs[i])) == Some(xs[i])
    ensures ParseEach(MapSeq(xs, f), p) == Some(xs)
  {
    var r := ParseEach(MapSeq(xs, f), p);
    assert r.value == xs;
  }

  /** `z.string()` with no bounds. */
  function AnyStr(v: Value): (r: Option<string>)
    ensures r.Some? <==> v.JStr?
    ensures r.Some? ==> v == JStr(r.value)
  {
    if v.JStr? then Some(v.s) else None
  }

  /** `z.string().min(lo).max(hi)` */
  function StrOf(v: Value, lo: nat, hi: nat): (r: Option<string>)
    ensures r.Some? <==> v.JStr? && InLen(v.s, lo, hi)
    ensures r.Some? ==> v == JStr(r.value)
  {
    if v.JStr? && InLen(v.s, lo, hi) then Some(v.s) else None
  }

  /** zod measures JavaScript lengths: a string of code points above U+FFFF
      (emoji, say) counts two units for each of them. */
  lemma StrOfAstral(s: string, lo: nat, hi: nat)
    requires forall i :: 0 <= i < |s| ==> s[i] as int > 0xFFFF
    ensures StrOf(JStr(s), lo, hi).Some? <==> lo <= 2 * |s| <= hi
  {
    Utf16.LengthOfAstral(s);
  }

  /** Within the Basic Multilingual Plane the bound is on characters. */
  lemma StrOfBmp(s: string, lo: nat, hi: nat)
    requires forall i :: 0 <= i < |s| ==> s[i] as int <= 0xFFFF
    ensures StrOf(JStr(s), lo, hi).Some? <==> lo <= |s| <= hi
  {
    Utf16.LengthOfBmp(s);
  }

  /** `z.string().url().max(2000)` */
  function UrlOf(v: Value): (r: Option<string>)
    ensures r.Some? <==> v.JStr? && IsUrl(v.s) && Utf16.Length(v.s) <= 2000
    ensures r.Some? ==> v == JStr(r.value)
  {
    if v.JStr? && IsUrl(v.s) && Utf16.Length(v.s) <= 2000 then Some(v.s) else None
  }

  /** `z.string().uuid()` */
  function UuidOf(v: Value): (r: Option<string>)
    ensures r.Some? <==> v.JStr? && IsUuid(v.s)
    ensures r.Some? ==> v == JStr(r.value)
  {
    if v.JStr? && IsUuid(v.s) then Some(v.s) else None
  }

  /** `z.array(p).min(lo).max(hi)` */
  function ArrayOf<T>(v: Value, lo: nat, hi: nat, p: Value -> Option<T>): (r: Option<seq<T>>)
    ensures r.Some? <==> v.JArr? && lo <= |v.items| <= hi && forall i :: 0 <= i < |v.items| ==> p(v.items[i]).Some?
    ensures r.Some? ==> |r.value| == |v.items| && forall i :: 0 <= i < |v.items| ==> p(v.items[i]) == Some(r.value[i])
  {
    if v.JArr? && lo <= |v.items| <= hi then ParseEach(v.items, p) else None
  }

  /** A required key: absent keys fail. */
  function Req<T>(v: Value, key: string, p: Value -> Option<T>): (r: Option<T>)
    ensures r.Some? ==> v.JObj? && key in v.fields && p(v.fields[key]) == r
  {
    if v.JObj? && key in v.fields then p(v.fields[key]) else None
  }

  /** An `.optional()` key: `Some(None)` when absent, `Some(Some(x))` when
      present and valid, `None` (reject) when present and invalid. */
  function Opt<T>(v: Value, key: string, p: Value -> Option<T>): (r: Option<Option<T>>)
    requires v.JObj?
    ensures r == Some(None) <==> key !in v.fields
    ensures r.Some? && r.value.Some? ==> key in v.fields && p(v.fields[key]) == r.value
    ensures key in v.fields && p(v.fields[key]).None? ==> r.None?
  {
    if key !in v.fields then Some(None)
    else match p(v.fields[key])
      case Some(x) => Some(Some(x))
      case None => None
  }

  function StrJson(s: string): Value {
    JStr(s)
  }

  function StrsJson(ss: seq<string>): Value {
    JArr(MapSeq(ss, StrJson))
  }

  /** A sequence of strings within the bounds decodes to itself. */
  lemma StrsRoundTrip(ss: seq<string>, lo: nat, hi: nat, minLen: nat, maxLen: nat)
    requires AllInLen(ss, minLen, maxLen) && lo <= |ss| <= hi
    ensures ArrayOf(StrsJson(ss), lo, hi, x => StrOf(x, minLen, maxLen)) == Some(ss)
  {
    ParseEachMap(ss, StrJson, x => StrOf(x, minLen, maxLen));
  }

  /** Decoded strings satisfy the element bounds. */
  lemma StrsBounds(v: Value, lo: nat, hi: nat, minLen: nat, maxLen: nat)
    ensures var r := ArrayOf(v, lo, hi, x => StrOf(x, minLen, maxLen));
      r.Some? ==> lo <= |r.value| <= hi && AllInLen(r.value, minLen, maxLen)
  {
    var r := ArrayOf(v, lo, hi, x => StrOf(x, minLen, maxLen));
    if r.Some? {
      forall i | 0 <= i < |r.value| ensures InLen(r.value[i], minLen, maxLen) {
        assert StrOf(v.items[i], minLen, maxLen) == Some(r.value[i]);
      }
    }
  }

  // ---------------------------------------------------------------------
  // LearnContentSchema
  // ---------------------------------------------------------------------

  predicate ValidSourceLink(s: SourceLink) {
    InLen(s.title, 1, 200) && IsUrl(s.url) && Utf16.Length(s.url) <= 2000
  }

  function SourceLinkJson(s: SourceLink): Value {
    JObj(map["title" := JStr(s.title), "url" := JStr(s.url)])
  }

  function ParseSourceLink(v: Value): (r: Option<SourceLink>)
    ensures r.Some? ==> ValidSourceLink(r.value)
  {
    var title := Req(v, "title", x => StrOf(x, 1, 200));
    var url := Req(v, "url", UrlOf);
    if title.Some? && url.Some? then Some(SourceLink(title.value, url.value)) else None
  }

  lemma SourceLinkRoundTrip(s: SourceLink)
    requires ValidSourceLink(s)
    ensures ParseSourceLink(SourceLinkJson(s)) == Some(s)
  {
  }

  predicate ValidLearnContent(c: LearnContent) {
    && InLen(c.title, 1, 200)
    && InLen(c.hook, 1, 500)
    && |c.bullets| == 3 && AllInLen(c.bullets, 1, 200)
    && InLen(c.example, 1, 2000)
    && InLen(c.microAction, 1, 200)
    && InLen(c.quizQuestion, 1, 500)
    && InLen(c.quizAnswer, 1, 1000)
    && (c.sources.Some? ==> forall i :: 0 <= i < |c.sources.value| ==> ValidSourceLink(c.sources.value[i]))
  }

  const LearnContentKeys: set<string> :=
    {"title", "hook", "bullets", "example", "micro_action", "quiz_question", "quiz_answer", "sources"}

  /** The JSON a parsed learning card serialises to: the declared keys only. */
  function LearnContentJson(c: LearnContent): (r: Value)
    ensures r.JObj? && r.fields.Keys <= LearnContentKeys
  {
    var base := map[
      "title" := JStr(c.title), "hook" := JStr(c.hook), "bullets" := StrsJson(c.bullets),
      "example" := JStr(c.example), "micro_action" := JStr(c.microAction),
      "quiz_question" := JStr(c.quizQuestion), "quiz_answer" := JStr(c.quizAnswer)];
    match c.sources
    case None => JObj(base)
    case Some(ss) => JObj(base["sources" := JArr(MapSeq(ss, SourceLinkJson))])
  }

  /** `LearnContentSchema.parse` */
  function ParseLearnContent(v: Value): (r: Option<LearnContent>)
    ensures r.Some? ==> ValidLearnContent(r.value)
  {
    if !v.JObj? then None
    else
      var title := Req(v, "title", x => StrOf(x, 1, 200));
      var hook := Req(v, "hook", x => StrOf(x, 1, 500));
      var bullets := Req(v, "bullets", x => ArrayOf(x, 3, 3, y => StrOf(y, 1, 200)));
      var example := Req(v, "example", x => StrOf(x, 1, 2000));
      var microAction := Req(v, "micro_action", x => StrOf(x, 1, 200));
      var quizQuestion := Req(v, "quiz_question", x => StrOf(x, 1, 500));
      var quizAnswer := Req(v, "quiz_answer", x => StrOf(x, 1, 1000));
      var sources := Opt(v, "sources", (x: Value) => if x.JArr? then ParseEach(x.items, ParseSourceLink) else None);
      if && title.Some? && hook.Some? && bullets.Some? && example.Some?
         && microAction.Some? && quizQuestion.Some? && quizAnswer.Some? && sources.Some?
      then
        StrsBounds(v.fields["bullets"], 3, 3, 1, 200);
        Some(LearnContent(title.value, hook.value, bullets.value, example.value,
                          microAction.value, quizQuestion.value, quizAnswer.value, sources.value))
      else None
  }

  /** Encoding a valid card and parsing it back gives the same card. */
  lemma LearnContentRoundTrip(c: LearnContent)
    requires ValidLearnContent(c)
    ensures ParseLearnContent(LearnContentJson(c)) == Some(c)
  {
    LearnContentFields(c);
    StrsRoundTrip(c.bullets, 3, 3, 1, 200);
    if c.sources.Some? {
      forall i | 0 <= i < |c.sources.value|
        ensures ParseSourceLink(SourceLinkJson(c.sources.value[i])) == Some(c.sources.value[i])
      {
        SourceLinkRoundTrip(c.sources.value[i]);
      }
      ParseEachMap(c.sources.value, SourceLinkJson, ParseSourceLink);
    }
  }

  /** What each key of an encoded card holds. */
  lemma LearnContentFields(c: LearnContent)
    ensures var v := LearnContentJson(c);
      && v.fields["title"] == JStr(c.title) && v.fields["hook"] == JStr(c.hook)
      && v.fields["bullets"] == StrsJson(c.bullets) && v.fields["example"] == JStr(c.example)
      && v.fields["micro_action"] == JStr(c.microAction) && v.fields["quiz_question"] == JStr(c.quizQuestion)
      && v.fields["quiz_answer"] == JStr(c.quizAnswer)
      && ("sources" in v.fields <==> c.sources.Some?)
      && (c.sources.Some? ==> v.fields["sources"] == JArr(MapSeq(c.sources.value, SourceLinkJson)))
  {
    assert "bullets" != "example" && "bullets" != "sources" && "example" != "sources";
  }

  /** Parsing is idempotent on its own output: the stripped card parses to
      the same card. */
  lemma LearnContentParseIdempotent(v: Value)
    ensures ParseLearnContent(v).Some? ==>
      ParseLearnContent(LearnContentJson(ParseLearnContent(v).value)) == ParseLearnContent(v)
  {
    if ParseLearnContent(v).Some? {
      LearnContentRoundTrip(ParseLearnContent(v).value);
    }
  }

  /** Keys the schema does not declare neither make a card valid nor invalid. */
  lemma LearnContentIgnoresUnknownKeys(m: map<string, Value>, k: string, x: Value)
    requires k !in LearnContentKeys
    ensures ParseLearnContent(JObj(m[k := x])) == ParseLearnContent(JObj(m))
  {
    var m' := m[k := x];
    assert forall key :: key in LearnContentKeys ==> (key in m' <==> key in m) && (key in m ==> m'[key] == m[key]);
  }

  /** When `sources` is present, one bad entry rejects the whole card. */
  lemma LearnContentBadSourceRejects(m: map<string, Value>, i: nat)
    requires "sources" in m && m["sources"].JArr? && i < |m["sources"].items|
    requires ParseSourceLink(m["sources"].items[i]).None?
    ensures ParseLearnContent(JObj(m)).None?
  {
  }

  /** `sources` is optional: a card without it is accepted as long as the
      rest is valid. */
  lemma LearnContentSourcesOptional(c: LearnContent)
    requires ValidLearnContent(c) && c.sources.None?
    ensures "sources" !in LearnContentJson(c).fields
    ensures ParseLearnContent(LearnContentJson(c)) == Some(c)
  {
    LearnContentRoundTrip(c);
  }

  // ---------------------------------------------------------------------
  // ExpandedContentSchema
  // ---------------------------------------------------------------------

  predicate ValidExpandedContent(e: ExpandedContent) {
    && 3 <= |e.paragraphs| <= 10 && AllInLen(e.paragraphs, 1, 5000)
    && (e.additionalBullets.Some? ==> AllInLen(e.additionalBullets.value, 1, 500))
  }

  function ExpandedContentJson(e: ExpandedContent): (r: Value)
    ensures r.JObj? && "paragraphs" in r.fields
    ensures r.fields.Keys <= {"paragraphs", "additional_bullets"}
  {
    var base := map["paragraphs" := StrsJson(e.paragraphs)];
    match e.additionalBullets
    case None => JObj(base)
    case Some(bs) => JObj(base["additional_bullets" := StrsJson(bs)])
  }

  function AnyStrsOf(v: Value, minLen: nat, maxLen: nat): (r: Option<seq<string>>)
    ensures r.Some? ==> v.JArr? && |r.value| == |v.items| && AllInLen(r.value, minLen, maxLen)
  {
    if v.JArr? then
      var r := ParseEach(v.items, x => StrOf(x, minLen, maxLen));
      assert r.Some? ==> forall i :: 0 <= i < |v.items| ==> StrOf(v.items[i], minLen, maxLen) == Some(r.value[i]);
      r
    else None
  }

  /** `ExpandedContentSchema.parse` */
  function ParseExpandedContent(v: Value): (r: Option<ExpandedContent>)
    ensures r.Some? ==> ValidExpandedContent(r.value)
  {
    if !v.JObj? then None
    else
      var paragraphs := Req(v, "paragraphs", x => ArrayOf(x, 3, 10, y => StrOf(y, 1, 5000)));
      var extra := Opt(v, "additional_bullets", x => AnyStrsOf(x, 1, 500));
      if paragraphs.Some? && extra.Some? then
        StrsBounds(v.fields["paragraphs"], 3, 10, 1, 5000);
        Some(ExpandedContent(paragraphs.value, extra.value))
      else None
  }

  lemma ExpandedContentRoundTrip(e: ExpandedContent)
    requires ValidExpandedContent(e)
    ensures ParseExpandedContent(ExpandedContentJson(e)) == Some(e)
  {
    StrsRoundTrip(e.paragraphs, 3, 10, 1, 5000);
    if e.additionalBullets.Some? {
      ParseEachMap(e.additionalBullets.value, StrJson, x => StrOf(x, 1, 500));
    }
  }

  // ---------------------------------------------------------------------
  // LessonPlanContentSchema
  // ---------------------------------------------------------------------

  predicate ValidResource(r: ResourceItem) {
    InLen(r.title, 1, 200) && IsUrl(r.url) && Utf16.Length(r.url) <= 2000
  }

  predicate ValidDay(d: DayPlanItem) {
    1 <= d.day <= 365 && InLen(d.focus, 1, 200) && 1 <= |d.activities| <= 10 && AllInLen(d.activities, 1, 500)
  }

  predicate ValidLessonPlanContent(c: LessonPlanContent) {
    && 2 <= |c.goals| <= 10 && AllInLen(c.goals, 1, 500)
    && 3 <= |c.resources| <= 20 && (forall i :: 0 <= i < |c.resources| ==> ValidResource(c.resources[i]))
    && 2 <= |c.exercises| <= 15 && AllInLen(c.exercises, 1, 1000)
    && 7 <= |c.dailyPlan| <= 90 && (forall i :: 0 <= i < |c.dailyPlan| ==> ValidDay(c.dailyPlan[i]))
  }

  function ResourceJson(r: ResourceItem): Value {
    JObj(map["title" := JStr(r.title), "url" := JStr(r.url), "type" := JStr(ResourceTypeName(r.kind))])
  }

  function ParseResource(v: Value): (r: Option<ResourceItem>)
    ensures r.Some? ==> ValidResource(r.value)
  {
    var title := Req(v, "title", x => StrOf(x, 1, 200));
    var url := Req(v, "url", UrlOf);
    var kind := Req(v, "type", (x: Value) => if x.JStr? then ParseResourceType(x.s) else None);
    if title.Some? && url.Some? && kind.Some? then Some(ResourceItem(title.value, url.value, kind.value)) else None
  }

  /** `z.number().int().min(1).max(365)` */
  function DayNumberOf(v: Value): (r: Option<int>)
    ensures r.Some? <==> v.JNum? && v.n.Floor as real == v.n && 1.0 <= v.n <= 365.0
    ensures r.Some? ==> 1 <= r.value <= 365 && v == JNum(r.value as real)
  {
    if v.JNum? && v.n.Floor as real == v.n && 1.0 <= v.n <= 365.0 then Some(v.n.Floor) else None
  }

  function DayJson(d: DayPlanItem): Value {
    JObj(map["day" := JNum(d.day as real), "focus" := JStr(d.focus), "activities" := StrsJson(d.activities)])
  }

  function ParseDay(v: Value): (r: Option<DayPlanItem>)
    ensures r.Some? ==> ValidDay(r.value)
  {
    var day := Req(v, "day", DayNumberOf);
    var focus := Req(v, "focus", x => StrOf(x, 1, 200));
    var activities := Req(v, "activities", x => ArrayOf(x, 1, 10, y => StrOf(y, 1, 500)));
    if day.Some? && focus.Some? && activities.Some? then
      StrsBounds(v.fields["activities"], 1, 10, 1, 500);
      Some(DayPlanItem(day.value, focus.value, activities.value))
    else None
  }

  function LessonPlanContentJson(c: LessonPlanContent): Value {
    JObj(map[
      "goals" := StrsJson(c.goals),
      "resources" := JArr(MapSeq(c.resources, ResourceJson)),
      "exercises" := StrsJson(c.exercises),
      "daily_plan" := JArr(MapSeq(c.dailyPlan, DayJson))])
  }

  /** `LessonPlanContentSchema.parse` */
  function ParseLessonPlanContent(v: Value): (r: Option<LessonPlanContent>)
    ensures r.Some? ==> ValidLessonPlanContent(r.value)
  {
    if !v.JObj? then None
    else
      var goals := Req(v, "goals", x => ArrayOf(x, 2, 10, y => StrOf(y, 1, 500)));
      var resources := Req(v, "resources", x => ArrayOf(x, 3, 20, ParseResource));
      var exercises := Req(v, "exercises", x => ArrayOf(x, 2, 15, y => StrOf(y, 1, 1000)));
      var days := Req(v, "daily_plan", x => ArrayOf(x, 7, 90, ParseDay));
      if goals.Some? && resources.Some? && exercises.Some? && days.Some? then
        StrsBounds(v.fields["goals"], 2, 10, 1, 500);
        StrsBounds(v.fields["exercises"], 2, 15, 1, 1000);
        Some(LessonPlanContent(goals.value, resources.value, exercises.value, days.value))
      else None
  }

  lemma DayRoundTrip(d: DayPlanItem)
    requires ValidDay(d)
    ensures ParseDay(DayJson(d)) == Some(d)
  {
    StrsRoundTrip(d.activities, 1, 10, 1, 500);
    assert (d.day as real).Floor == d.day;
  }

  lemma ResourcesRoundTrip(rs: seq<ResourceItem>)
    requires 3 <= |rs| <= 20 && forall i :: 0 <= i < |rs| ==> ValidResource(rs[i])
    ensures ArrayOf(JArr(MapSeq(rs, ResourceJson)), 3, 20, ParseResource) == Some(rs)
  {
    forall i | 0 <= i < |rs| ensures ParseResource(ResourceJson(rs[i])) == Some(rs[i]) {
      EnumRoundTrips(Adjacent, rs[i].kind, Concise, AutoTheme, SavedLearning);
    }
    ParseEachMap(rs, ResourceJson, ParseResource);
  }

  lemma DaysRoundTrip(ds: seq<DayPlanItem>)
    requires 7 <= |ds| <= 90 && forall i :: 0 <= i < |ds| ==> ValidDay(ds[i])
    ensures ArrayOf(JArr(MapSeq(ds, DayJson)), 7, 90, ParseDay) == Some(ds)
  {
    forall i | 0 <= i < |ds| ensures ParseDay(DayJson(ds[i])) == Some(ds[i]) {
      DayRoundTrip(ds[i]);
    }
    ParseEachMap(ds, DayJson, ParseDay);
  }

  lemma LessonPlanContentRoundTrip(c: LessonPlanContent)
    requires ValidLessonPlanContent(c)
    ensures ParseLessonPlanContent(LessonPlanContentJson(c)) == Some(c)
  {
    var v := LessonPlanContentJson(c);
    StrsRoundTrip(c.goals, 2, 10, 1, 500);
    StrsRoundTrip(c.exercises, 2, 15, 1, 1000);
    ResourcesRoundTrip(c.resources);
    DaysRoundTrip(c.dailyPlan);
    assert Req(v, "goals", x => ArrayOf(x, 2, 10, y => StrOf(y, 1, 500))) == Some(c.goals);
    assert Req(v, "resources", x => ArrayOf(x, 3, 20, ParseResource)) == Some(c.resources);
    assert Req(v, "exercises", x => ArrayOf(x, 2, 15, y => StrOf(y, 1, 1000))) == Some(c.exercises);
    assert Req(v, "daily_plan", x => ArrayOf(x, 7, 90, ParseDay)) == Some(c.dailyPlan);
  }

  /** A daily plan entry whose `day` is not a whole number in 1..365 rejects
      the whole plan. */
  lemma LessonPlanBadDayRejects(m: map<string, Value>, i: nat)
    requires "daily_plan" in m && m["daily_plan"].JArr? && i < |m["daily_plan"].items|
    requires var d := m["daily_plan"].items[i]; d.JObj? && "day" in d.fields && d.fields["day"] == JNum(0.5)
    ensures ParseLessonPlanContent(JObj(m)).None?
  {
    assert ParseDay(m["daily_plan"].items[i]).None?;
  }

  // ---------------------------------------------------------------------
  // Request-body schemas
  // ---------------------------------------------------------------------

  datatype CreateLessonPlanInput = CreateLessonPlanInput(topic: string, content: LessonPlanContent, learnItemId: Option<string>)

  /** `CreateLessonPlanSchema.parse` */
  function ParseCreateLessonPlan(v: Value): (r: Option<CreateLessonPlanInput>)
    ensures r.Some? ==> InLen(r.value.topic, 1, 500) && ValidLessonPlanContent(r.value.content)
    ensures r.Some? ==> (r.value.learnItemId.Some? ==> IsUuid(r.value.learnItemId.value))
    ensures r.Some? ==> v.JObj? && (r.value.learnItemId.None? <==> "learn_item_id" !in v.fields)
  {
    if !v.JObj? then None
    else
      var topic := Req(v, "topic", x => StrOf(x, 1, 500));
      var content := Req(v, "content", ParseLessonPlanContent);
      var learnItemId := Opt(v, "learn_item_id", UuidOf);
      if topic.Some? && content.Some? && learnItemId.Some? then
        Some(CreateLessonPlanInput(topic.value, content.value, learnItemId.value))
      else None
  }

  datatype CreateLearnItemInput = CreateLearnItemInput(topic: string, sourceType: SourceType, content: LearnContent)

  /** `CreateLearnItemSchema.parse` */
  function ParseCreateLearnItem(v: Value): (r: Option<CreateLearnItemInput>)
    ensures r.Some? ==> InLen(r.value.topic, 1, 500) && ValidLearnContent(r.value.content)
    ensures r.Some? ==> v.JObj? && "source_type" in v.fields && v.fields["source_type"] == JStr(SourceTypeName(r.value.sourceType))
    ensures r.Some? ==> "topic" in v.fields && v.fields["topic"] == JStr(r.value.topic)
  {
    if !v.JObj? then None
    else
      var topic := Req(v, "topic", x => StrOf(x, 1, 500));
      var sourceType := Req(v, "source_type", (x: Value) => if x.JStr? then ParseSourceType(x.s) else None);
      var content := Req(v, "content", ParseLearnContent);
      if topic.Some? && sourceType.Some? && content.Some? then
        Some(CreateLearnItemInput(topic.value, sourceType.value, content.value))
      else None
  }

  function CreateLearnItemJson(i: CreateLearnItemInput): Value {
    JObj(map["topic" := JStr(i.topic), "source_type" := JStr(SourceTypeName(i.sourceType)),
             "content" := LearnContentJson(i.content)])
  }

  /** A body built from a valid topic, source type and card is accepted as is. */
  lemma CreateLearnItemRoundTrip(i: CreateLearnItemInput)
    requires InLen(i.topic, 1, 500) && ValidLearnContent(i.content)
    ensures ParseCreateLearnItem(CreateLearnItemJson(i)) == Some(i)
  {
    LearnContentRoundTrip(i.content);
    EnumRoundTrips(i.sourceType, Article, Concise, AutoTheme, SavedLearning);
  }

  /** A topic outside 1..500 characters, or a source type outside the four
      names, is rejected whatever the rest of the body holds. */
  lemma CreateLearnItemRejects(m: map<string, Value>)
    requires "topic" in m && "source_type" in m
    requires (m["topic"].JStr? && !InLen(m["topic"].s, 1, 500))
          || (m["source_type"].JStr? && m["source_type"].s !in SourceTypeNames)
    ensures ParseCreateLearnItem(JObj(m)).None?
  {
  }

  datatype UpdateLearnItemInput = UpdateLearnItemInput(id: string, expanded: ExpandedContent)

  /** `UpdateLearnItemSchema.parse` */
  function ParseUpdateLearnItem(v: Value): (r: Option<UpdateLearnItemInput>)
    ensures r.Some? ==> IsUuid(r.value.id) && ValidExpandedContent(r.value.expanded)
  {
    if !v.JObj? then None
    else
      var id := Req(v, "id", UuidOf);
      var expanded := Req(v, "expanded_content", ParseExpandedContent);
      if id.Some? && expanded.Some? then Some(UpdateLearnItemInput(id.value, expanded.value)) else None
  }

  datatype UpdateUserPrefsInput = UpdateUserPrefsInput(
    preferredTopics: Option<seq<string>>, depth: Option<Depth>, theme: Option<ThemePref>)

  /** `UpdateUserPrefsSchema.parse`: the refinement counts the keys of the
      parsed (stripped) object, so at least one declared key must be present. */
  function ParseUpdateUserPrefs(v: Value): (r: Option<UpdateUserPrefsInput>)
    ensures r.Some? ==> r.value.preferredTopics.Some? || r.value.depth.Some? || r.value.theme.Some?
    ensures r.Some? ==> (r.value.preferredTopics.Some? ==>
      |r.value.preferredTopics.value| <= 20 && AllInLen(r.value.preferredTopics.value, 1, 100))
    ensures r.Some? ==> v.JObj? && (r.value.preferredTopics.Some? <==> "preferred_topics" in v.fields)
    ensures r.Some? ==> v.JObj? && (r.value.depth.Some? <==> "depth" in v.fields) && (r.value.theme.Some? <==> "theme" in v.fields)
  {
    if !v.JObj? then None
    else
      var topics := Opt(v, "preferred_topics", x => ArrayOf(x, 0, 20, y => StrOf(y, 1, 100)));
      var depth := Opt(v, "depth", (x: Value) => if x.JStr? then ParseDepth(x.s) else None);
      var theme := Opt(v, "theme", (x: Value) => if x.JStr? then ParseThemePref(x.s) else None);
      if topics.Some? && depth.Some? && theme.Some? then
        var parsed := UpdateUserPrefsInput(topics.value, depth.value, theme.value);
        if parsed.preferredTopics.None? && parsed.depth.None? && parsed.theme.None? then None
        else
          StrsBounds(if "preferred_topics" in v.fields then v.fields["preferred_topics"] else JNull, 0, 20, 1, 100);
          Some(parsed)
      else None
  }

  /** An object holding none of the three declared keys (the empty object,
      or one with only unknown keys) is rejected. */
  lemma UpdateUserPrefsRejectsNoKeys(m: map<string, Value>)
    requires "preferred_topics" !in m && "depth" !in m && "theme" !in m
    ensures ParseUpdateUserPrefs(JObj(m)).None?
  {
  }

  /** A lone valid `theme` is enough. */
  lemma UpdateUserPrefsThemeOnly(t: ThemePref)
    ensures ParseUpdateUserPrefs(JObj(map["theme" := JStr(ThemePrefName(t))]))
         == Some(UpdateUserPrefsInput(None, None, Some(t)))
  {
    EnumRoundTrips(Adjacent, Article, Concise, t, SavedLearning);
  }

  /** Twenty-one preferred topics are one too many. */
  lemma UpdateUserPrefsTooManyTopics(m: map<string, Value>)
    requires "preferred_topics" in m && m["preferred_topics"].JArr? && |m["preferred_topics"].items| > 20
    ensures ParseUpdateUserPrefs(JObj(m)).None?
  {
  }

  datatype CreateSavedItemInput = CreateSavedItemInput(itemType: SavedKind, itemId: Option<string>, learnItemId: Option<string>)

  /** `CreateSavedItemSchema.parse`: `item_type` defaults to "learning", and
      the refinement demands `item_id` or `learn_item_id`. */
  function ParseCreateSavedItem(v: Value): (r: Option<CreateSavedItemInput>)
    ensures r.Some? ==> r.value.itemId.Some? || r.value.learnItemId.Some?
    ensures r.Some? ==> v.JObj?
    ensures r.Some? && "item_type" !in v.fields ==> r.value.itemType == SavedLearning
    ensures r.Some? && "item_type" in v.fields ==> v.fields["item_type"] == JStr(SavedKindName(r.value.itemType))
    ensures r.Some? ==> (r.value.itemId.Some? ==> IsUuid(r.value.itemId.value))
    ensures r.Some? ==> (r.value.learnItemId.Some? ==> IsUuid(r.value.learnItemId.value))
  {
    if !v.JObj? then None
    else
      var kind := Opt(v, "item_type", (x: Value) => if x.JStr? then ParseSavedKind(x.s) else None);
      var itemId := Opt(v, "item_id", UuidOf);
      var learnItemId := Opt(v, "learn_item_id", UuidOf);
      if kind.Some? && itemId.Some? && learnItemId.Some? then
        var parsed := CreateSavedItemInput(kind.value.GetOr(SavedLearning), itemId.value, learnItemId.value);
        if parsed.itemId.None? && parsed.learnItemId.None? then None else Some(parsed)
      else None
  }

  /** Neither id present: rejected, whatever `item_type` says. */
  lemma CreateSavedItemNeedsAnId(m: map<string, Value>)
    requires "item_id" !in m && "learn_item_id" !in m
    ensures ParseCreateSavedItem(JObj(m)).None?
  {
  }

  /** Only `item_id` given: accepted as a "learning" item. */
  lemma CreateSavedItemDefaultsToLearning(id: string)
    requires IsUuid(id)
    ensures ParseCreateSavedItem(JObj(map["item_id" := JStr(id)]))
         == Some(CreateSavedItemInput(SavedLearning, Some(id), None))
  {
  }
}
