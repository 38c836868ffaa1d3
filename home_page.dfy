/**
  The home page (frontend/app/page.tsx): the stored theme it applies on
  load, the body it stores a theme choice with, and the requests behind
  "teach me", a clarifying angle and a suggested topic.

  `prefs` is the signed-in user's `user_prefs` row as the page holds it,
  `JNull` when there is none.
  */
module HomePage {
  import opened Wrappers
  import opened Json
  import opened Types
  import opened JsString
  import opened Validations
  import opened Store
  import opened Generate
  import opened Prompts
  import PrefsRoute
  import opened ThemeDropdown

  // ---------------------------------------------------------------------
  // Theme
  // ---------------------------------------------------------------------

  /** `checkUser`: a truthy stored theme is applied, "auto" as "system";
      `None` when the page applies none. */
  function AppliedTheme(prefs: Value): (r: Option<Value>)
    ensures r.None? <==> !Truthy(Get(prefs, "theme"))
    ensures r.Some? && Get(prefs, "theme") == Some(JStr("auto")) ==> r == Some(JStr("system"))
    ensures r.Some? && Get(prefs, "theme") != Some(JStr("auto")) ==> r == Get(prefs, "theme")
  {
    var theme := Get(prefs, "theme");
    if !Truthy(theme) then None
    else if theme == Some(JStr("auto")) then Some(JStr("system"))
    else theme
  }

  /** `x || fallback` */
  function Or(v: Option<Value>, fallback: Value): (r: Value)
    ensures Truthy(v) ==> r == v.value
    ensures !Truthy(v) ==> r == fallback
  {
    if Truthy(v) then v.value else fallback
  }

  /** `handleThemeChange`: the body that stores the menu's choice, with the
      current topics and depth, or `[]` and "concise" in their place. */
  function ThemeChangeBody(prefs: Value, t: ThemePref): (v: Value)
    ensures v.JObj? && v.fields.Keys == {"preferred_topics", "depth", "theme"}
    ensures v.fields["theme"] == JStr(ThemePrefName(t))
    ensures v.fields["preferred_topics"] == Or(Get(prefs, "preferred_topics"), JArr([]))
    ensures v.fields["depth"] == Or(Get(prefs, "depth"), JStr("concise"))
  {
    JObj(map["preferred_topics" := Or(Get(prefs, "preferred_topics"), JArr([])),
             "depth" := Or(Get(prefs, "depth"), JStr("concise")),
             "theme" := JStr(ThemePrefName(t))])
  }

  /** A theme picked in the menu is stored under its database name and, on
      the next visit, applied as the very theme that was picked. */
  lemma ThemeChoiceRoundTrip(table: map<string, PrefsRow>, userId: string, prefs: Value, u: UiTheme, now: int)
    ensures var row := UpsertPrefsRow(table, userId, PrefsRoute.UpdateOf(ThemeChangeBody(prefs, DbTheme(u)), now));
      row.theme == Some(JStr(ThemePrefName(DbTheme(u)))) &&
      AppliedTheme(PrefsJson(row)) == Some(JStr(UiThemeName(u)))
  {
    var row := UpsertPrefsRow(table, userId, PrefsRoute.UpdateOf(ThemeChangeBody(prefs, DbTheme(u)), now));
    assert Get(PrefsJson(row), "theme") == Some(JStr(ThemePrefName(DbTheme(u))));
  }

  // ---------------------------------------------------------------------
  // Generation requests
  // ---------------------------------------------------------------------

  /** A body for /api/generate with the user's topics and depth, and the
      subject under `key`; keys whose value is `undefined` are left out. */
  function GenerateBody(kind: string, prefs: Value, key: string, subject: string): (v: Value)
    requires key == "topic" || key == "custom_topic"
    ensures Get(v, "type") == Some(JStr(kind)) && Get(v, key) == Some(JStr(subject))
    ensures Get(v, "depth") == Get(prefs, "depth") && Get(v, "preferred_topics") == Get(prefs, "preferred_topics")
    ensures v.JObj? && v.fields.Keys <= {"type", "preferred_topics", "depth", key}
  {
    var m := map["type" := JStr(kind)];
    var m := if Get(prefs, "preferred_topics").Some? then m["preferred_topics" := Get(prefs, "preferred_topics").value] else m;
    var m := if Get(prefs, "depth").Some? then m["depth" := Get(prefs, "depth").value] else m;
    JObj(m[key := JStr(subject)])
  }

  /** `teachInput.trim().split(/\s+/)` */
  function Words(input: string): seq<string> {
    SplitSpaces(Trim(input))
  }

  datatype TeachStep =
    | Idle                       // empty input or no preferences: nothing happens
    | AskClarify(request: Value) // ask the model for clarifying angles
    | GenerateCard(request: Value) // ask the model for a card right away

  /** `handleTeachMe`'s routing: up to two words ask for clarification, more
      generate a card; either way the raw input is the custom topic. */
  function HandleTeachMe(input: string, prefs: Value): (s: TeachStep)
    ensures s.Idle? <==> Trim(input) == "" || prefs == JNull
    ensures s.AskClarify? <==> !s.Idle? && |Words(input)| <= 2
    ensures s.AskClarify? ==> s.request == GenerateBody("clarify_topic", prefs, "custom_topic", input)
    ensures s.GenerateCard? ==> s.request == GenerateBody("learn_item", prefs, "custom_topic", input)
  {
    if Trim(input) == "" || prefs == JNull then Idle
    else if |Words(input)| <= 2 then AskClarify(GenerateBody("clarify_topic", prefs, "custom_topic", input))
    else GenerateCard(GenerateBody("learn_item", prefs, "custom_topic", input))
  }

  /** The prompt each teach-me request reaches the model with: the clarify
      prompt or the card prompt, around the input exactly as typed. */
  lemma TeachMePrompts(input: string, prefs: Value, num: real -> string)
    ensures var s := HandleTeachMe(input, prefs);
      s.AskClarify? ==> PromptFor(s.request, num) == Ok(ClarifyHead + input + ClarifyTail)
    ensures var s := HandleTeachMe(input, prefs);
      s.GenerateCard? ==> PromptFor(s.request, num) == Ok(LearnItemPrompt(input, ""))
  {
    ClarifyBodyPrompt(input, prefs, num);
    CardBodyPrompt(input, prefs, num);
  }

  lemma ClarifyBodyPrompt(input: string, prefs: Value, num: real -> string)
    ensures PromptFor(GenerateBody("clarify_topic", prefs, "custom_topic", input), num) == Ok(ClarifyHead + input + ClarifyTail)
  {
    ClarifyPromptQuotes(GenerateBody("clarify_topic", prefs, "custom_topic", input), num);
  }

  lemma CardBodyPrompt(input: string, prefs: Value, num: real -> string)
    ensures PromptFor(GenerateBody("learn_item", prefs, "custom_topic", input), num) == Ok(LearnItemPrompt(input, ""))
  {
    var v := GenerateBody("learn_item", prefs, "custom_topic", input);
    assert Get(v, "topic") == None;
    LearnItemPromptQuotes(v, num);
  }

  predicate NoSpace(w: string) {
    forall i :: 0 <= i < |w| ==> !IsSpace(w[i])
  }

  /** A run of non-space characters splits to itself. */
  lemma {:induction false} SplitOneWord(w: string)
    requires w != [] && NoSpace(w)
    ensures SplitSpaces(w) == [w]
    decreases |w|
  {
    assert !IsSpace(w[0]);
    var rest := SplitSpaces(w[1..]);
    if |w| == 1 {
      assert w[1..] == [];
      assert rest == [""];
    } else {
      assert NoSpace(w[1..]) by {
        forall i | 0 <= i < |w[1..]| ensures !IsSpace(w[1..][i]) {
          assert w[1..][i] == w[i + 1];
        }
      }
      SplitOneWord(w[1..]);
    }
    assert SplitSpaces(w) == [[w[0]] + rest[0]] + rest[1..];
    assert [w[0]] + w[1..] == w;
  }

  /** A word, one space and a rest that does not start with a space split
      into the word and the pieces of the rest. */
  lemma {:induction false} SplitFirstWord(w: string, rest: string)
    requires w != [] && NoSpace(w) && (rest == [] || !IsSpace(rest[0]))
    ensures SplitSpaces(w + " " + rest) == [w] + SplitSpaces(rest)
    decreases |w|
  {
    var s := w + " " + rest;
    var x := s[1..];
    if |w| == 1 {
      assert x == " " + rest;
      SplitLeadingSpace(rest);
    } else {
      assert x == w[1..] + " " + rest;
      assert NoSpace(w[1..]) by {
        forall i | 0 <= i < |w[1..]| ensures !IsSpace(w[1..][i]) {
          assert w[1..][i] == w[i + 1];
        }
      }
      SplitFirstWord(w[1..], rest);
    }
    assert s == [w[0]] + x;
    SplitCons(w[0], x);
    assert [w[0]] + w[1..] == w;
  }

  /** A single space before a word starts an empty piece. */
  lemma SplitLeadingSpace(rest: string)
    requires rest == [] || !IsSpace(rest[0])
    ensures SplitSpaces(" " + rest) == [""] + SplitSpaces(rest)
  {
    var t := " " + rest;
    assert t[0] == ' ' && t[1..] == rest;
    assert TrimStart(rest) == rest;
  }

  /** A word character joins the first piece. */
  lemma SplitCons(c: char, x: string)
    requires !IsSpace(c)
    ensures var tail := SplitSpaces(x); SplitSpaces([c] + x) == [[c] + tail[0]] + tail[1..]
  {
    assert ([c] + x)[1..] == x;
  }

  /** One word asks for clarification. */
  lemma OneWordClarifies(a: string, prefs: Value)
    requires a != [] && NoSpace(a) && prefs != JNull
    ensures HandleTeachMe(a, prefs).AskClarify?
  {
    TrimOfTrimmed(a);
    SplitOneWord(a);
  }

  /** Two words ask for clarification. */
  lemma TwoWordsClarify(a: string, b: string, prefs: Value)
    requires a != [] && b != [] && NoSpace(a) && NoSpace(b) && prefs != JNull
    ensures HandleTeachMe(a + " " + b, prefs).AskClarify?
  {
    var ab := a + " " + b;
    assert ab[0] == a[0] && ab[|ab| - 1] == b[|b| - 1];
    TrimOfTrimmed(ab);
    SplitOneWord(b);
    SplitFirstWord(a, b);
  }

  /** Three words generate a card. */
  lemma ThreeWordsGenerate(a: string, b: string, c: string, prefs: Value)
    requires a != [] && b != [] && c != [] && NoSpace(a) && NoSpace(b) && NoSpace(c) && prefs != JNull
    ensures HandleTeachMe(a + " " + b + " " + c, prefs).GenerateCard?
  {
    var bc := b + " " + c;
    var abc := a + " " + bc;
    assert abc == a + " " + b + " " + c;
    assert abc[0] == a[0] && abc[|abc| - 1] == c[|c| - 1];
    TrimOfTrimmed(abc);
    SplitOneWord(c);
    SplitFirstWord(b, c);
    SplitFirstWord(a, bc);
  }

  /** `fullTopic` of `handleClarifySelect`. */
  function ClarifiedTopic(input: string, angle: string): (t: string)
    ensures |t| == |input| + 2 + |angle|
    ensures t[..|input|] == input && t[|input| + 2..] == angle
  {
    input + ": " + angle
  }

  /** `handleClarifySelect`: the card request for the chosen angle. */
  function HandleClarifySelect(input: string, angle: string, prefs: Value): (r: Option<Value>)
    ensures r.None? <==> prefs == JNull
    ensures r.Some? ==> r.value == GenerateBody("learn_item", prefs, "custom_topic", ClarifiedTopic(input, angle))
  {
    if prefs == JNull then None else Some(GenerateBody("learn_item", prefs, "custom_topic", ClarifiedTopic(input, angle)))
  }

  /** `handleTopicSelect`: the card request for a suggested topic. */
  function HandleTopicSelect(topic: string, prefs: Value): (r: Option<Value>)
    ensures r.None? <==> prefs == JNull
    ensures r.Some? ==> r.value == GenerateBody("learn_item", prefs, "topic", topic)
  {
    if prefs == JNull then None else Some(GenerateBody("learn_item", prefs, "topic", topic))
  }

  /** The chosen angle reaches the model inside the card prompt, after the
      original input. */
  lemma ClarifyPrompt(input: string, angle: string, prefs: Value, num: real -> string)
    requires prefs != JNull
    ensures PromptFor(HandleClarifySelect(input, angle, prefs).value, num) ==
      Ok(LearnItemPrompt(input + ": " + angle, ""))
  {
    var v := HandleClarifySelect(input, angle, prefs).value;
    assert Get(v, "topic") == None;
    LearnItemPromptQuotes(v, num);
    assert ClarifiedTopic(input, angle) == input + ": " + angle;
  }

  /** A suggested topic that is not empty reaches the model as the card's
      subject. */
  lemma TopicSelectPrompt(topic: string, prefs: Value, num: real -> string)
    requires prefs != JNull && topic != ""
    ensures PromptFor(HandleTopicSelect(topic, prefs).value, num) ==
      Ok(LearnItemPrompt(topic, ""))
  {
    LearnItemPromptQuotes(HandleTopicSelect(topic, prefs).value, num);
  }

  // ---------------------------------------------------------------------
  // Storing the generated card
  // ---------------------------------------------------------------------

  /** The POST /api/learn body sent after generation, or `None` when the
      generation answer is null (reading `error` throws) or carries an
      error. */
  function SaveRequest(topic: string, source: SourceType, content: Value): (r: Option<Value>)
    ensures r.None? <==> content == JNull || Truthy(Get(content, "error"))
    ensures r.Some? ==> r.value == JObj(map["topic" := JStr(topic), "source_type" := JStr(SourceTypeName(source)), "content" := content])
  {
    if content == JNull || Truthy(Get(content, "error")) then None
    else Some(JObj(map["topic" := JStr(topic), "source_type" := JStr(SourceTypeName(source)), "content" := content]))
  }

  /** A valid card is stored with the topic exactly as typed (not trimmed,
      not normalised) and the source type of the handler that asked for it. */
  lemma CardStoredAsSent(topic: string, source: SourceType, c: LearnContent)
    requires InLen(topic, 1, 500) && ValidLearnContent(c)
    ensures SaveRequest(topic, source, LearnContentJson(c)).Some?
    ensures ParseCreateLearnItem(SaveRequest(topic, source, LearnContentJson(c)).value) ==
      Some(CreateLearnItemInput(topic, source, c))
  {
    var i := CreateLearnItemInput(topic, source, c);
    assert "error" !in LearnContentJson(c).fields;
    assert SaveRequest(topic, source, LearnContentJson(c)) == Some(CreateLearnItemJson(i));
    CreateLearnItemRoundTrip(i);
  }

  // The save each handler makes once its card has been generated.

  /** `handleTopicSelect`'s save: the suggested topic as chosen, as a
      `topic_choice` card. */
  function TopicSelectSave(topic: string, content: Value): (r: Option<Value>)
    ensures r.Some? <==> content != JNull && !Truthy(Get(content, "error"))
    ensures r.Some? ==> Get(r.value, "topic") == Some(JStr(topic)) && Get(r.value, "content") == Some(content)
    ensures r.Some? ==> Get(r.value, "source_type") == Some(JStr("topic_choice"))
  {
    SaveRequest(topic, TopicChoice, content)
  }

  /** `handleTeachMe`'s save for more than two words: the input exactly as
      typed, as a `teach_me` card. */
  function TeachMeSave(input: string, content: Value): (r: Option<Value>)
    ensures r.Some? <==> content != JNull && !Truthy(Get(content, "error"))
    ensures r.Some? ==> Get(r.value, "topic") == Some(JStr(input)) && Get(r.value, "content") == Some(content)
    ensures r.Some? ==> Get(r.value, "source_type") == Some(JStr("teach_me"))
  {
    SaveRequest(input, TeachMe, content)
  }

  /** `handleClarifySelect`'s save: `fullTopic`, the input and the chosen
      angle, as a `teach_me` card. */
  function ClarifySave(input: string, angle: string, content: Value): (r: Option<Value>)
    ensures r.Some? <==> content != JNull && !Truthy(Get(content, "error"))
    ensures r.Some? ==> Get(r.value, "topic") == Some(JStr(input + ": " + angle)) && Get(r.value, "content") == Some(content)
    ensures r.Some? ==> Get(r.value, "source_type") == Some(JStr("teach_me"))
  {
    SaveRequest(ClarifiedTopic(input, angle), TeachMe, content)
  }

  /** A valid card saved after picking a suggestion reaches the table as a
      topic choice under the suggested topic. */
  lemma TopicSelectSaveParses(topic: string, c: LearnContent)
    requires InLen(topic, 1, 500) && ValidLearnContent(c)
    ensures TopicSelectSave(topic, LearnContentJson(c)).Some?
    ensures ParseCreateLearnItem(TopicSelectSave(topic, LearnContentJson(c)).value) ==
      Some(CreateLearnItemInput(topic, TopicChoice, c))
  {
    CardStoredAsSent(topic, TopicChoice, c);
  }

  /** A valid card saved after a teach-me of three or more words reaches the
      table as a teach-me card under the raw input. */
  lemma TeachMeSaveParses(input: string, c: LearnContent)
    requires InLen(input, 1, 500) && ValidLearnContent(c)
    ensures TeachMeSave(input, LearnContentJson(c)).Some?
    ensures ParseCreateLearnItem(TeachMeSave(input, LearnContentJson(c)).value) ==
      Some(CreateLearnItemInput(input, TeachMe, c))
  {
    CardStoredAsSent(input, TeachMe, c);
  }

  /** A valid card saved after picking an angle reaches the table as a
      teach-me card under "input: angle". */
  lemma ClarifySaveParses(input: string, angle: string, c: LearnContent)
    requires InLen(ClarifiedTopic(input, angle), 1, 500) && ValidLearnContent(c)
    ensures ClarifySave(input, angle, LearnContentJson(c)).Some?
    ensures ParseCreateLearnItem(ClarifySave(input, angle, LearnContentJson(c)).value) ==
      Some(CreateLearnItemInput(input + ": " + angle, TeachMe, c))
  {
    CardStoredAsSent(ClarifiedTopic(input, angle), TeachMe, c);
  }
}
