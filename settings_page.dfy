/**
  The settings page (frontend/app/settings/page.tsx): loading the stored
  preferences into the form, with the stored topics split into curated
  (the checkboxes) and custom ones, and the body its save button sends to
  /api/prefs.
  */
module SettingsPage {
  import opened Wrappers
  import opened Json
  import opened Types
  import opened Validations
  import opened Table
  import opened TopicPicker

  predicate IsCustom(t: string) {
    !IsCurated(t)
  }

  /** The `forEach` of `loadPrefs`: curated topics to one list, the others to
      the other, each in the stored order. */
  method SplitTopics(topics: seq<string>) returns (curated: seq<string>, custom: seq<string>)
    ensures curated == Where(topics, IsCurated)
    ensures custom == Where(topics, IsCustom)
    ensures multiset(curated) + multiset(custom) == multiset(topics)
  {
    curated := [];
    custom := [];
    var i := 0;
    while i < |topics|
      invariant 0 <= i <= |topics|
      invariant curated == Where(topics[..i], IsCurated)
      invariant custom == Where(topics[..i], IsCustom)
    {
      WhereSnoc(topics, i, IsCurated);
      WhereSnoc(topics, i, IsCustom);
      if IsCurated(topics[i]) {
        curated := curated + [topics[i]];
      } else {
        custom := custom + [topics[i]];
      }
      i := i + 1;
    }
    assert topics[..i] == topics;
    SplitIsPartition(topics);
  }

  /** Every stored topic lands in exactly one of the two lists. */
  lemma {:induction false} SplitIsPartition(topics: seq<string>)
    ensures multiset(Where(topics, IsCurated)) + multiset(Where(topics, IsCustom)) == multiset(topics)
    decreases |topics|
  {
    if topics != [] {
      SplitIsPartition(topics[1..]);
      assert topics == [topics[0]] + topics[1..];
      if IsCurated(topics[0]) {
        assert Where(topics, IsCurated) == [topics[0]] + Where(topics[1..], IsCurated);
        assert Where(topics, IsCustom) == Where(topics[1..], IsCustom);
      } else {
        assert Where(topics, IsCurated) == Where(topics[1..], IsCurated);
        assert Where(topics, IsCustom) == [topics[0]] + Where(topics[1..], IsCustom);
      }
    }
  }

  /** The page's form state. */
  datatype Form = Form(selected: seq<string>, custom: seq<string>, depth: Option<Value>, theme: Value)

  /** The strings of an array of strings. */
  function StringsOf(v: Value): (r: Option<seq<string>>)
    ensures r.Some? ==> v == StrsJson(r.value)
  {
    if v.JArr? && forall i :: 0 <= i < |v.items| ==> v.items[i].JStr? then
      var ss := seq(|v.items|, i requires 0 <= i < |v.items| => v.items[i].s);
      assert v.items == MapSeq(ss, StrJson);
      Some(ss)
    else None
  }

  /** `data.prefs.theme || 'auto'` */
  function ThemeOrAuto(theme: Option<Value>): (r: Value)
    ensures Truthy(theme) ==> r == theme.value
    ensures !Truthy(theme) ==> r == JStr("auto")
  {
    if Truthy(theme) then theme.value else JStr("auto")
  }

  /** `loadPrefs`, given the answer of GET /api/prefs: nothing for no
      preferences; otherwise the stored topics split and the depth and theme
      copied into the form. */
  method LoadPrefs(data: Value) returns (form: Option<Form>)
    ensures !Truthy(Get(data, "prefs")) ==> form.None?
    ensures form.Some? ==> Truthy(Get(data, "prefs"))
    ensures form.Some? ==>
      var prefs := Get(data, "prefs").value;
      Get(prefs, "preferred_topics").Some? && StringsOf(Get(prefs, "preferred_topics").value).Some? &&
      multiset(form.value.selected) + multiset(form.value.custom) == multiset(StringsOf(Get(prefs, "preferred_topics").value).value) &&
      form.value.selected == Where(StringsOf(Get(prefs, "preferred_topics").value).value, IsCurated) &&
      form.value.custom == Where(StringsOf(Get(prefs, "preferred_topics").value).value, IsCustom) &&
      form.value.depth == Get(prefs, "depth") &&
      form.value.theme == ThemeOrAuto(Get(prefs, "theme"))
    ensures (Truthy(Get(data, "prefs")) && Get(Get(data, "prefs").value, "preferred_topics").Some? &&
             StringsOf(Get(Get(data, "prefs").value, "preferred_topics").value).Some?) ==> form.Some?
  {
    var prefs := Get(data, "prefs");
    if !Truthy(prefs) {
      return None;
    }
    var stored := Get(prefs.value, "preferred_topics");
    if stored.None? || StringsOf(stored.value).None? {
      return None;
    }
    var curated, custom := SplitTopics(StringsOf(stored.value).value);
    form := Some(Form(curated, custom, Get(prefs.value, "depth"), ThemeOrAuto(Get(prefs.value, "theme"))));
  }

  const TooFewCurated: string := "Please select at least 3 curated topics"

  /** The `preferred_topics`/`depth`/`theme` object, without the keys whose
      value is `undefined`. */
  function PrefsBody(topics: seq<string>, depth: Option<Value>, theme: Option<Value>): (v: Value)
    ensures v.JObj? && "preferred_topics" in v.fields && v.fields["preferred_topics"] == StrsJson(topics)
    ensures ("depth" in v.fields <==> depth.Some?) && (depth.Some? ==> v.fields["depth"] == depth.value)
    ensures ("theme" in v.fields <==> theme.Some?) && (theme.Some? ==> v.fields["theme"] == theme.value)
  {
    var m := map["preferred_topics" := StrsJson(topics)];
    var m := if depth.Some? then m["depth" := depth.value] else m;
    JObj(if theme.Some? then m["theme" := theme.value] else m)
  }

  /** `handleSave`: refused below three curated topics; otherwise the
      curated topics followed by the custom ones, with depth and theme. */
  function SaveBody(form: Form): (r: Result<Value, string>)
    ensures r.Err? <==> |form.selected| < 3
    ensures r.Err? ==> r.error == TooFewCurated
    ensures r.Ok? ==> r.value == PrefsBody(form.selected + form.custom, form.depth, Some(form.theme))
  {
    if |form.selected| < 3 then Err(TooFewCurated)
    else Ok(PrefsBody(form.selected + form.custom, form.depth, Some(form.theme)))
  }

  /** A form the page saves with a valid depth and theme and at most twenty
      topics of at most a hundred characters passes the preferences schema
      with every field it sent. */
  lemma SaveBodyPassesSchema(form: Form, d: Depth, t: ThemePref)
    requires |form.selected| >= 3 && |form.selected + form.custom| <= 20
    requires AllInLen(form.selected + form.custom, 1, 100)
    requires form.depth == Some(JStr(DepthName(d))) && form.theme == JStr(ThemePrefName(t))
    ensures ParseUpdateUserPrefs(SaveBody(form).value) ==
      Some(UpdateUserPrefsInput(Some(form.selected + form.custom), Some(d), Some(t)))
  {
    var v := SaveBody(form).value;
    StrsRoundTrip(form.selected + form.custom, 0, 20, 1, 100);
    EnumRoundTrips(TopicChoice, Article, d, t, SavedLearning);
    assert Opt(v, "preferred_topics", x => ArrayOf(x, 0, 20, y => StrOf(y, 1, 100))) == Some(Some(form.selected + form.custom));
  }

  /** Saving and reloading gives the same two lists back, when the selected
      topics are curated ones and the custom ones are not. */
  lemma ReloadSplitsAsSaved(selected: seq<string>, custom: seq<string>)
    requires forall t :: t in selected ==> IsCurated(t)
    requires CustomOk(custom)
    ensures Where(selected + custom, IsCurated) == selected
    ensures Where(selected + custom, IsCustom) == custom
  {
    WhereAppend(selected, custom, IsCurated);
    WhereAppend(selected, custom, IsCustom);
    WhereAll(selected, IsCurated);
    WhereAll(custom, IsCustom);
    WhereNone(selected, IsCustom);
    WhereNone(custom, IsCurated);
  }
}
