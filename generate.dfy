/**
  The generation endpoint of frontend/app/api/generate/route.ts: the prompt
  templates, the structural checks applied to the model's JSON, the removal
  of markdown code fences, the bounded retry loop and the request dispatch
  with its mapping of failures to HTTP statuses.

  The language model is an oracle `reply` giving, for each attempt, either
  a failure of the API call, a reply without a text block, or the text of
  the reply. `JSON.parse` is the parameter `parse`, and JavaScript's
  number-to-string conversion (used when a number is interpolated into a
  prompt) is the parameter `num`.
  */
module Generate {
  import opened Wrappers
  import opened Json
  import opened JsString
  import opened Http
  import Validations
  import opened Prompts

  // ---------------------------------------------------------------------
  // Structural checks on the model's output
  // ---------------------------------------------------------------------

  /** `Array.isArray(v) && v.length === n && v.every(x => typeof x === 'string')` */
  predicate IsStrArrayOfLen(v: Option<Value>, n: nat) {
    v.Some? && v.value.JArr? && |v.value.items| == n && forall i :: 0 <= i < n ==> v.value.items[i].JStr?
  }

  /** `isValidLearnContent` */
  predicate IsValidLearnContent(v: Value)
    ensures IsValidLearnContent(v) ==> v.JObj? && LearnContentCheckedKeys <= v.fields.Keys
  {
    && IsNonNullObject(v)
    && IsStr(Get(v, "title"))
    && IsStr(Get(v, "hook"))
    && IsStrArrayOfLen(Get(v, "bullets"), 3)
    && IsStr(Get(v, "example"))
    && IsStr(Get(v, "micro_action"))
    && IsStr(Get(v, "quiz_question"))
    && IsStr(Get(v, "quiz_answer"))
  }

  predicate IsTopicOption(v: Value) {
    IsNonNullObject(v) && IsStr(Get(v, "topic")) && IsStr(Get(v, "hook"))
  }

  /** `isValidTopicOptions` */
  predicate IsValidTopicOptions(v: Value)
    ensures IsValidTopicOptions(v) ==>
      && v.JObj? && "options" in v.fields && v.fields["options"].JArr? && |v.fields["options"].items| == 3
      && forall i :: 0 <= i < 3 ==> v.fields["options"].items[i].JObj?
  {
    && IsNonNullObject(v)
    && var options := Get(v, "options");
       options.Some? && options.value.JArr? && |options.value.items| == 3
       && forall i :: 0 <= i < 3 ==> IsTopicOption(options.value.items[i])
  }

  /** `isValidClarifyResponse` */
  predicate IsValidClarifyResponse(v: Value)
    ensures IsValidClarifyResponse(v) ==> v.JObj? && "question" in v.fields && "options" in v.fields
  {
    IsNonNullObject(v) && IsStr(Get(v, "question")) && IsStrArrayOfLen(Get(v, "options"), 3)
  }

  const LearnContentCheckedKeys: set<string> :=
    {"title", "hook", "bullets", "example", "micro_action", "quiz_question", "quiz_answer"}

  /** `sources` and every other key outside the seven checked ones has no
      bearing on the check. */
  lemma LearnContentCheckIgnoresOtherKeys(m: map<string, Value>, k: string, x: Value)
    requires k !in LearnContentCheckedKeys
    ensures IsValidLearnContent(JObj(m[k := x])) == IsValidLearnContent(JObj(m))
  {
    var m' := m[k := x];
    assert forall key :: key in LearnContentCheckedKeys ==> Get(JObj(m'), key) == Get(JObj(m), key);
  }

  /** Empty strings pass all three checks. */
  lemma ChecksAcceptEmptyStrings()
    ensures IsValidLearnContent(JObj(map[
      "title" := JStr(""), "hook" := JStr(""), "bullets" := JArr([JStr(""), JStr(""), JStr("")]),
      "example" := JStr(""), "micro_action" := JStr(""), "quiz_question" := JStr(""), "quiz_answer" := JStr("")]))
    ensures IsValidTopicOptions(JObj(map["options" := JArr([EmptyOption, EmptyOption, EmptyOption])]))
    ensures IsValidClarifyResponse(JObj(map["question" := JStr(""), "options" := JArr([JStr(""), JStr(""), JStr("")])]))
  {
    var opts := JArr([EmptyOption, EmptyOption, EmptyOption]);
    assert Get(JObj(map["options" := opts]), "options") == Some(opts);
  }

  const EmptyOption: Value := JObj(map["topic" := JStr(""), "hook" := JStr("")])

  /** Everything the stricter `LearnContentSchema` accepts passes the check
      here; the converse fails, because the check accepts empty strings. */
  lemma SchemaAcceptedPassesCheck(v: Value)
    ensures Validations.ParseLearnContent(v).Some? ==> IsValidLearnContent(v)
  {
    var r := Validations.ParseLearnContent(v);
    if r.Some? {
      var b := Validations.Req(v, "bullets", x => Validations.ArrayOf(x, 3, 3, y => Validations.StrOf(y, 1, 200)));
      assert b.Some?;
      var items := v.fields["bullets"].items;
      forall i | 0 <= i < 3 ensures items[i].JStr? {
        assert Validations.StrOf(items[i], 1, 200).Some?;
      }
    }
  }

  lemma CheckWeakerThanSchema()
    ensures var v := JObj(map[
      "title" := JStr(""), "hook" := JStr(""), "bullets" := JArr([JStr(""), JStr(""), JStr("")]),
      "example" := JStr(""), "micro_action" := JStr(""), "quiz_question" := JStr(""), "quiz_answer" := JStr("")]);
      IsValidLearnContent(v) && Validations.ParseLearnContent(v).None?
  {
  }

  // ---------------------------------------------------------------------
  // Markdown fences
  // ---------------------------------------------------------------------

  /** Drops one leading "```json", or else one leading "```". */
  function DropOpeningFence(t: string): (r: string)
    ensures |r| <= |t|
  {
    if StartsWith(t, "```json") then t[7..] else if StartsWith(t, "```") then t[3..] else t
  }

  /** Drops one trailing "```". */
  function DropClosingFence(t: string): (r: string)
    ensures |r| <= |t|
  {
    if EndsWith(t, "```") then t[..|t| - 3] else t
  }

  /** The clean-up before `JSON.parse`: trim, drop the fences, trim again. */
  function StripFences(text: string): (r: string)
    ensures |r| <= |text|
    ensures r == [] || (!IsSpace(r[0]) && !IsSpace(r[|r| - 1]))
  {
    var afterOpen := DropOpeningFence(Trim(text));
    var closed := DropClosingFence(afterOpen);
    assert |closed| <= |afterOpen| <= |text|;
    Trim(closed)
  }

  lemma JsonFenceIsFence(t: string)
    ensures StartsWith(t, "```json") ==> StartsWith(t, "```")
  {
    if StartsWith(t, "```json") {
      assert t[..3] == t[..7][..3];
    }
  }

  /** Text without fences comes back trimmed and otherwise unchanged. */
  lemma StripFencesNoFence(text: string)
    requires !StartsWith(Trim(text), "```") && !EndsWith(Trim(text), "```")
    ensures StripFences(text) == Trim(text)
  {
    var t := Trim(text);
    JsonFenceIsFence(t);
    assert DropOpeningFence(t) == t;
    assert DropClosingFence(t) == t;
    TrimIdempotent(text);
  }

  lemma DropOpeningJson(x: string)
    ensures DropOpeningFence("```json" + x) == x
  {
    var s := "```json" + x;
    assert s[..7] == "```json";
    assert s[7..] == x;
  }

  lemma DropOpeningPlain(x: string)
    requires !StartsWith(x, "json")
    ensures DropOpeningFence("```" + x) == x
  {
    var s := "```" + x;
    assert s[..3] == "```";
    assert s[3..] == x;
  }

  lemma DropClosing(x: string)
    ensures DropClosingFence(x + "```") == x
  {
    var s := x + "```";
    assert s[|s| - 3..] == "```";
    assert s[..|s| - 3] == x;
  }

  lemma NotJsonAfterAppend(x: string)
    requires !StartsWith(x, "json")
    ensures !StartsWith(x + "```", "json")
  {
    var y := x + "```";
    if |x| >= 4 {
      assert y[..4] == x[..4];
    } else {
      assert y[|x|] == '`';
    }
  }

  /** A "```json" fence pair around `x` leaves `trim(x)`, whatever `x` is,
      so at most one opening and one closing fence are removed. */
  lemma StripFencesJson(x: string)
    ensures StripFences("```json" + x + "```") == Trim(x)
  {
    var s := "```json" + x + "```";
    assert s == "```json" + (x + "```");
    assert s[0] == '`' && s[|s| - 1] == '`';
    TrimOfTrimmed(s);
    DropOpeningJson(x + "```");
    DropClosing(x);
  }

  /** A bare "```" fence pair around `x` leaves `trim(x)` when `x` does not
      itself start with "json". */
  lemma StripFencesPlain(x: string)
    requires !StartsWith(x, "json")
    ensures StripFences("```" + x + "```") == Trim(x)
  {
    var s := "```" + x + "```";
    assert s == "```" + (x + "```");
    assert s[0] == '`' && s[|s| - 1] == '`';
    TrimOfTrimmed(s);
    NotJsonAfterAppend(x);
    DropOpeningPlain(x + "```");
    DropClosing(x);
  }

  // ---------------------------------------------------------------------
  // Prompts
  // ---------------------------------------------------------------------

  /** `${v}` in a template literal; `None` is `undefined`. */
  function TemplateStr(v: Option<Value>, num: real -> string): string {
    match v
    case None => "undefined"
    case Some(x) => ValueString(x, num)
  }

  /** JavaScript's `String(v)` for a decoded JSON value. */
  function ValueString(v: Value, num: real -> string): string
    decreases v, 0
  {
    match v
    case JNull => "null"
    case JBool(b) => if b then "true" else "false"
    case JNum(n) => num(n)
    case JStr(s) => s
    case JArr(items) => Join(seq(|items|, i requires 0 <= i < |items| => ElementString(items[i], num)), ",")
    case JObj(_) => "[object Object]"
  }

  /** How `join` renders an element: null as the empty string. */
  function ElementString(v: Value, num: real -> string): string
    decreases v, 1
  {
    if v == JNull then "" else ValueString(v, num)
  }

  /** `getSystemPrompt(depth)`: the crisp instruction only for "concise". */
  function SystemPrompt(depth: Option<Value>): string {
    SystemPromptHead + (if depth == Some(JStr("concise")) then ConciseInstruction else DeeperInstruction) + SystemPromptTail
  }

  /** The micro-learning prompt about `subject`, with an optional follow-up
      `note` between the quoted subject and the reply format. */
  function LearnItemPrompt(subject: string, note: string): string {
    LearnItemHead + subject + LearnItemMid + note + LearnItemTail
  }

  /** `getPromptForType(request)`. A type outside the five handled ones, and
      `preferred_topics` that is not an array for "topic_options", make it
      throw; the error is returned as `Err(message)`, worded as V8 words it
      for a missing, a null and any other non-array value. */
  function PromptFor(body: Value, num: real -> string): (r: Result<string, string>)
    ensures var kind := Get(body, "type");
      r.Ok? ==> kind in {Some(JStr("topic_options")), Some(JStr("adjacent_options")), Some(JStr("clarify_topic")),
                         Some(JStr("learn_item")), Some(JStr("learn_more"))}
  {
    var kind := Get(body, "type");
    if kind == Some(JStr("topic_options")) then
      match Get(body, "preferred_topics")
      case Some(JArr(items)) =>
        Ok(TopicOptionsHead + Join(seq(|items|, i requires 0 <= i < |items| => ElementString(items[i], num)), ", ") + TopicOptionsTail)
      case None => Err("Cannot read properties of undefined (reading 'join')")
      case Some(JNull) => Err("Cannot read properties of null (reading 'join')")
      case _ => Err("preferred_topics.join is not a function")
    else if kind == Some(JStr("adjacent_options")) then
      Ok(AdjacentHead + TemplateStr(Get(body, "topic"), num) + AdjacentTail)
    else if kind == Some(JStr("clarify_topic")) then
      Ok(ClarifyHead + TemplateStr(Get(body, "custom_topic"), num) + ClarifyTail)
    else if kind == Some(JStr("learn_item")) || kind == Some(JStr("learn_more")) then
      var prior := Get(body, "prior_item");
      var note := if kind == Some(JStr("learn_more")) && Truthy(prior)
        then FollowUpHead + TemplateStr(Get(prior.value, "title"), num) + FollowUpTail
        else "";
      var topic := Get(body, "topic");
      var subject := if Truthy(topic) then topic else Get(body, "custom_topic");
      Ok(LearnItemPrompt(TemplateStr(subject, num), note))
    else
      Err("Unknown generation type: " + TemplateStr(kind, num))
  }

  /** The clarify prompt quotes `custom_topic`. */
  lemma ClarifyPromptQuotes(body: Value, num: real -> string)
    requires Get(body, "type") == Some(JStr("clarify_topic"))
    ensures PromptFor(body, num) == Ok(ClarifyHead + TemplateStr(Get(body, "custom_topic"), num) + ClarifyTail)
  {
  }

  /** The "learn_item" prompt quotes a truthy `topic`, else `custom_topic`,
      and carries no follow-up note. */
  lemma LearnItemPromptQuotes(body: Value, num: real -> string)
    requires Get(body, "type") == Some(JStr("learn_item"))
    ensures var subject := if Truthy(Get(body, "topic")) then Get(body, "topic") else Get(body, "custom_topic");
      PromptFor(body, num) == Ok(LearnItemPrompt(TemplateStr(subject, num), ""))
  {
    assert "learn_item" != "learn_more" by {
      assert "learn_item"[6] != "learn_more"[6];
    }
  }

  /** "expand_content" and "lesson_plan" have no prompt: they end in the
      "Unknown generation type" error. */
  lemma ExpandAndLessonPlanUnknown(body: Value, num: real -> string)
    requires Get(body, "type") == Some(JStr("expand_content")) || Get(body, "type") == Some(JStr("lesson_plan"))
    ensures PromptFor(body, num) == Err("Unknown generation type: " + Get(body, "type").value.s)
  {
  }

  /** The follow-up note appears only for "learn_more" with a truthy
      `prior_item`; for "learn_item" the prompt ignores `prior_item`. */
  lemma FollowUpOnlyForLearnMore(m: map<string, Value>, prior: Value, num: real -> string)
    requires "type" in m && m["type"] == JStr("learn_item")
    ensures PromptFor(JObj(m["prior_item" := prior]), num) == PromptFor(JObj(m - {"prior_item"}), num)
  {
    var a := JObj(m["prior_item" := prior]);
    var b := JObj(m - {"prior_item"});
    assert Get(a, "type") == Get(b, "type") && Get(a, "topic") == Get(b, "topic");
    assert Get(a, "custom_topic") == Get(b, "custom_topic");
  }

  /** Which check the dispatch applies to each type (`None`: the default
      branch, which answers 400). */
  function CheckFor(kind: Option<Value>): Option<Value -> bool> {
    if kind == Some(JStr("topic_options")) || kind == Some(JStr("adjacent_options")) then Some(IsValidTopicOptions)
    else if kind == Some(JStr("clarify_topic")) then Some(IsValidClarifyResponse)
    else if kind == Some(JStr("learn_item")) || kind == Some(JStr("learn_more")) then Some(IsValidLearnContent)
    else None
  }

  /** Every type that gets a prompt also gets a check: the 400 "Invalid
      generation type" branch cannot be reached, because unknown types have
      already thrown while building the prompt. */
  lemma DefaultBranchUnreachable(body: Value, num: real -> string)
    ensures PromptFor(body, num).Ok? ==> CheckFor(Get(body, "type")).Some?
    ensures CheckFor(Get(body, "type")).None? ==> PromptFor(body, num).Err?
  {
  }

  // ---------------------------------------------------------------------
  // The retry loop
  // ---------------------------------------------------------------------

  const ModelName: string := "claude-sonnet-4-20250514"
  const MaxTokens: nat := 1024

  /** One request sent to the model. */
  datatype ModelCall = ModelCall(model: string, maxTokens: nat, system: string, user: string)

  /** What the model API gave back for one attempt. */
  datatype ModelReply = ApiFailure(message: string) | NoText | Text(text: string)

  /** The request of attempt `attempt`: the prompt itself first, then the
      prompt with the reminder to answer with bare JSON. */
  function CallFor(system: string, userPrompt: string, attempt: nat): (c: ModelCall)
    ensures c.model == ModelName && c.maxTokens == 1024 && c.system == system
    ensures attempt == 0 ==> c.user == userPrompt
    ensures attempt > 0 ==> c.user == userPrompt + RetrySuffix && |c.user| > |userPrompt|
  {
    ModelCall(ModelName, MaxTokens, system, if attempt == 0 then userPrompt else userPrompt + RetrySuffix)
  }

  /** The outcome of one attempt: the decoded value if it passes `check`,
      otherwise the message of the error the attempt throws. `decode` is
      `JSON.parse` applied to the reply text after `StripFences`. */
  function AttemptResult(reply: ModelReply, check: Value -> bool, decode: string -> Result<Value, string>): (r: Result<Value, string>)
    ensures r.Ok? <==> reply.Text? && decode(reply.text).Ok? && check(decode(reply.text).value)
    ensures r.Ok? ==> r == decode(reply.text)
    ensures reply.ApiFailure? ==> r == Err(reply.message)
    ensures reply.NoText? ==> r == Err("No text content in response")
    ensures reply.Text? && decode(reply.text).Err? ==> r == decode(reply.text)
    ensures reply.Text? && decode(reply.text).Ok? && !check(decode(reply.text).value) ==>
      r == Err("Response does not match expected schema")
  {
    match reply
    case ApiFailure(m) => Err(m)
    case NoText => Err("No text content in response")
    case Text(t) =>
      match decode(t)
      case Err(m) => Err(m)
      case Ok(v) => if check(v) then Ok(v) else Err("Response does not match expected schema")
  }

  /** What an attempt decodes: `JSON.parse` of the reply text after
      `StripFences`. */
  function Decoder(parse: string -> Result<Value, string>): string -> Result<Value, string> {
    t => parse(StripFences(t))
  }

  /** The number of attempts `maxRetries` allows. */
  function Attempts(maxRetries: int): nat {
    if maxRetries < 0 then 0 else maxRetries + 1
  }

  /** `generateWithRetry`: attempts 0..maxRetries in order, returning the
      first value that passes `check`; if none does, the error of the last
      attempt ("Generation failed" when there was no attempt at all). */
  method GenerateWithRetry(system: string, userPrompt: string, check: Value -> bool, maxRetries: int,
                           reply: nat -> ModelReply, decode: string -> Result<Value, string>)
    returns (r: Result<Value, string>, calls: seq<ModelCall>)
    ensures |calls| <= Attempts(maxRetries)
    ensures forall k :: 0 <= k < |calls| ==> calls[k] == CallFor(system, userPrompt, k)
    ensures forall k :: 0 <= k < |calls| - 1 ==> AttemptResult(reply(k), check, decode).Err?
    ensures r.Ok? ==> |calls| >= 1 && r == AttemptResult(reply(|calls| - 1), check, decode) && check(r.value)
    ensures r.Err? ==> |calls| == Attempts(maxRetries)
    ensures r.Err? && |calls| > 0 ==> r == AttemptResult(reply(|calls| - 1), check, decode)
    ensures r.Err? && |calls| == 0 ==> r == Err("Generation failed")
    ensures forall j: nat :: j < Attempts(maxRetries) && AttemptResult(reply(j), check, decode).Ok? ==>
      r.Ok? && |calls| - 1 <= j
  {
    var lastError: Option<string> := None;
    calls := [];
    var attempt := 0;
    while attempt <= maxRetries
      invariant 0 <= attempt <= Attempts(maxRetries)
      invariant |calls| == attempt
      invariant forall k :: 0 <= k < attempt ==> calls[k] == CallFor(system, userPrompt, k)
      invariant forall k :: 0 <= k < attempt ==> AttemptResult(reply(k), check, decode).Err?
      invariant attempt == 0 <==> lastError.None?
      invariant attempt > 0 ==> Err(lastError.value) == AttemptResult(reply(attempt - 1), check, decode)
      decreases maxRetries - attempt
    {
      calls := calls + [CallFor(system, userPrompt, attempt)];
      var outcome := AttemptResult(reply(attempt), check, decode);
      if outcome.Ok? {
        r := outcome;
        return;
      }
      lastError := Some(outcome.error);
      attempt := attempt + 1;
    }
    r := Err(lastError.GetOr("Generation failed"));
  }

  // ---------------------------------------------------------------------
  // POST /api/generate
  // ---------------------------------------------------------------------

  const MissingFields: string := "Missing required fields: type and depth"

  /** A body that got past the 400 check: not null, `type` and `depth` truthy. */
  predicate Admitted(body: Value) {
    body != JNull && Truthy(Get(body, "type")) && Truthy(Get(body, "depth"))
  }

  /** `POST`. `body` is what `req.json()` produced, or the message of its
      failure. Every thrown error ends as 500 with its message. */
  method Post(body: Result<Value, string>, reply: nat -> ModelReply, parse: string -> Result<Value, string>, num: real -> string)
    returns (res: Reply, calls: seq<ModelCall>)
    ensures res.status == 200 || res.status == 400 || res.status == 500
    ensures body.Err? ==> res == ErrorReply(500, body.error) && calls == []
    ensures body == Ok(JNull) ==> res.status == 500 && calls == []
    ensures body.Ok? && body.value != JNull && !Admitted(body.value) ==> res == ErrorReply(400, MissingFields) && calls == []
    ensures res.status == 400 ==> res == ErrorReply(400, MissingFields)
    ensures body.Ok? && Admitted(body.value) && PromptFor(body.value, num).Err? ==>
      res == ErrorReply(500, PromptFor(body.value, num).error) && calls == []
    ensures body.Ok? && Admitted(body.value) && PromptFor(body.value, num).Ok? ==>
      && 1 <= |calls| <= 2
      && calls[0] == CallFor(SystemPrompt(Get(body.value, "depth")), PromptFor(body.value, num).value, 0)
      && (res.status == 200 ==> CheckFor(Get(body.value, "type")).value(res.body))
    ensures body.Ok? && Admitted(body.value) && PromptFor(body.value, num).Ok? ==>
      var check := CheckFor(Get(body.value, "type")).value;
      var first := AttemptResult(reply(0), check, Decoder(parse));
      var second := AttemptResult(reply(1), check, Decoder(parse));
      && |calls| == (if first.Ok? then 1 else 2)
      && res == (if first.Ok? then OkReply(first.value)
                 else if second.Ok? then OkReply(second.value)
                 else ErrorReply(500, second.error))
    ensures res.status == 200 ==> body.Ok? && Admitted(body.value) && calls != []
  {
    calls := [];
    if body.Err? {
      res := ErrorReply(500, body.error);
      return;
    }
    var v := body.value;
    var kind := Prop(v, "type");
    var depth := Prop(v, "depth");
    if kind.Err? {
      res := ErrorReply(500, kind.error.what);
      return;
    }
    if !Truthy(kind.value) || !Truthy(depth.value) {
      res := ErrorReply(400, MissingFields);
      return;
    }
    var system := SystemPrompt(depth.value);
    var userPrompt := PromptFor(v, num);
    if userPrompt.Err? {
      res := ErrorReply(500, userPrompt.error);
      return;
    }
    DefaultBranchUnreachable(v, num);
    var check := CheckFor(kind.value).value;
    var result;
    result, calls := GenerateWithRetry(system, userPrompt.value, check, 1, reply, Decoder(parse));
    if result.Ok? {
      res := OkReply(result.value);
    } else {
      res := ErrorReply(500, result.error);
    }
  }
}
