/**
  The onboarding page (frontend/app/onboarding/page.tsx): the first
  preferences a new user saves. It shares the topic picker with the settings
  page; its save button wants two topics of any kind and sends no theme.
  */
module OnboardingPage {
  import opened Wrappers
  import opened Json
  import opened Types
  import opened Validations
  import opened Store
  import PrefsRoute
  import opened SettingsPage
  import opened HomePage

  const TooFewTopics: string := "Please select at least 2 topics"

  /** `handleSave`: refused below two topics in all; otherwise the selected
      topics followed by the custom ones, and the depth. */
  function SaveBody(selected: seq<string>, custom: seq<string>, depth: Depth): (r: Result<Value, string>)
    ensures r.Err? <==> |selected| + |custom| < 2
    ensures r.Err? ==> r.error == TooFewTopics
    ensures r.Ok? ==> r.value == PrefsBody(selected + custom, Some(JStr(DepthName(depth))), None)
  {
    if |selected + custom| < 2 then Err(TooFewTopics)
    else Ok(PrefsBody(selected + custom, Some(JStr(DepthName(depth))), None))
  }

  /** A body with two to twenty topics of one to a hundred characters passes
      the preferences schema, without a theme. */
  lemma SaveBodyPassesSchema(selected: seq<string>, custom: seq<string>, depth: Depth)
    requires 2 <= |selected + custom| <= 20 && AllInLen(selected + custom, 1, 100)
    ensures ParseUpdateUserPrefs(SaveBody(selected, custom, depth).value) ==
      Some(UpdateUserPrefsInput(Some(selected + custom), Some(depth), None))
  {
    var v := SaveBody(selected, custom, depth).value;
    StrsRoundTrip(selected + custom, 0, 20, 1, 100);
    EnumRoundTrips(TopicChoice, Article, depth, AutoTheme, SavedLearning);
    assert Opt(v, "preferred_topics", x => ArrayOf(x, 0, 20, y => StrOf(y, 1, 100))) == Some(Some(selected + custom));
  }

  /** Saving onboarding stores the topics and depth and leaves the theme as
      it was; for a new user there is none, so the home page applies no
      theme. */
  lemma OnboardingLeavesTheme(prefs: map<string, PrefsRow>, userId: string, selected: seq<string>, custom: seq<string>,
                              depth: Depth, now: int)
    requires |selected| + |custom| >= 2
    ensures var row := UpsertPrefsRow(prefs, userId, PrefsRoute.UpdateOf(SaveBody(selected, custom, depth).value, now));
      row.preferredTopics == Some(StrsJson(selected + custom)) &&
      row.depth == Some(JStr(DepthName(depth))) &&
      row.theme == (if userId in prefs then prefs[userId].theme else None)
    ensures userId !in prefs ==>
      var row := UpsertPrefsRow(prefs, userId, PrefsRoute.UpdateOf(SaveBody(selected, custom, depth).value, now));
      AppliedTheme(PrefsJson(row)).None?
  {
    var row := UpsertPrefsRow(prefs, userId, PrefsRoute.UpdateOf(SaveBody(selected, custom, depth).value, now));
    if userId !in prefs {
      assert Get(PrefsJson(row), "theme") == Some(JNull);
    }
  }
}
