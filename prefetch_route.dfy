/**
  POST /api/learn/prefetch (frontend/app/api/learn/prefetch/route.ts): look
  up the caller's card for a topic under its normalised form, answer it
  from the table while it has not expired, otherwise ask the generation
  endpoint for a new card and upsert it on (user_id, topic).

  The call to the generation endpoint is an oracle: `gen` is what the
  fetch produced. `freshId` is what `uuidv4()` returns, `now` the clock and
  `expiresAt` the value of `calculateExpiresAt()`.
  */
module PrefetchRoute {
  import opened Wrappers
  import opened Json
  import opened Types
  import opened Validations
  import opened Discovery
  import opened JsString
  import opened Table
  import opened Store
  import opened Http

  datatype PrefetchInput = PrefetchInput(topic: string, preferredTopics: seq<string>, depth: Depth)

  /** `PrefetchSchema.parse` */
  function ParsePrefetch(v: Value): (r: Option<PrefetchInput>)
    ensures r.Some? ==> InLen(r.value.topic, 1, 500) && 3 <= |r.value.preferredTopics| <= 20
    ensures r.Some? ==> v.JObj? && "depth" in v.fields && v.fields["depth"] == JStr(DepthName(r.value.depth))
    ensures r.Some? ==> "topic" in v.fields && v.fields["topic"] == JStr(r.value.topic)
  {
    if !v.JObj? then None
    else
      var topic := Req(v, "topic", x => StrOf(x, 1, 500));
      var topics := Req(v, "preferred_topics", x => ArrayOf(x, 3, 20, AnyStr));
      var depth := Req(v, "depth", (x: Value) => if x.JStr? then ParseDepth(x.s) else None);
      if topic.Some? && topics.Some? && depth.Some? then Some(PrefetchInput(topic.value, topics.value, depth.value))
      else None
  }

  function PrefetchJson(i: PrefetchInput): Value {
    JObj(map["topic" := JStr(i.topic), "preferred_topics" := StrsJson(i.preferredTopics), "depth" := JStr(DepthName(i.depth))])
  }

  /** A body built from valid fields passes the schema unchanged. */
  lemma PrefetchRoundTrip(i: PrefetchInput)
    requires InLen(i.topic, 1, 500) && 3 <= |i.preferredTopics| <= 20
    ensures ParsePrefetch(PrefetchJson(i)) == Some(i)
  {
    ParseEachMap(i.preferredTopics, StrJson, AnyStr);
    EnumRoundTrips(Adjacent, Article, i.depth, AutoTheme, SavedLearning);
  }

  /** Two preferred topics are too few, whatever else the body holds. */
  lemma PrefetchTooFewTopics(m: map<string, Value>)
    requires "preferred_topics" in m && m["preferred_topics"].JArr? && |m["preferred_topics"].items| < 3
    ensures ParsePrefetch(JObj(m)).None?
  {
  }

  /** The row the lookup finds: the caller's row for the normalised topic,
      when exactly one exists. */
  function Lookup(rows: seq<LearnItemRow>, userId: string, topic: string): (r: Option<LearnItemRow>)
    ensures r.Some? ==> r.value in rows && r.value.userId == userId && r.value.topic == NormalizeTopic(topic)
  {
    Single(rows, (x: LearnItemRow) => SameUserTopic(x, userId, NormalizeTopic(topic)))
  }

  /** Topics that differ only in letter case, or in the kind and length of
      a white-space run, find the same row. */
  lemma LookupIgnoresCaseAndSpacing(rows: seq<LearnItemRow>, userId: string, a: string, b: string,
                                    x: string, w1: string, w2: string, y: string)
    requires ToLower(a) == ToLower(b)
    requires |w1| > 0 && |w2| > 0 && AllSpace(w1) && AllSpace(w2)
    ensures Lookup(rows, userId, a) == Lookup(rows, userId, b)
    ensures Lookup(rows, userId, x + w1 + y) == Lookup(rows, userId, x + w2 + y)
  {
    NormalizeIgnoresCase(a, b);
    NormalizeIgnoresSpaceKind(x, w1, w2, y);
  }

  /** In a table unique on (user_id, topic), the lookup finds a row exactly
      when the caller has one for the normalised topic. */
  lemma LookupFindsStoredRow(rows: seq<LearnItemRow>, userId: string, topic: string)
    requires LearnItemsUnique(rows)
    ensures Lookup(rows, userId, topic).Some? <==>
      exists k :: 0 <= k < |rows| && SameUserTopic(rows[k], userId, NormalizeTopic(topic))
  {
    var p := (x: LearnItemRow) => SameUserTopic(x, userId, NormalizeTopic(topic));
    if k :| 0 <= k < |rows| && p(rows[k]) {
      OnlyIndexMatches(rows, k, userId, NormalizeTopic(topic));
    }
  }

  /** A stored card is served while it has no expiry or expires after now. */
  predicate Live(row: LearnItemRow, now: int) {
    row.expiresAt.None? || row.expiresAt.value > now
  }

  /** What the fetch of the generation endpoint produced: it threw, or it
      answered a status and a body (None when the body is not JSON). */
  datatype Generated = FetchThrew(message: string) | Responded(status: nat, body: Option<Value>)

  predicate IsOk(status: nat) {
    200 <= status <= 299
  }

  /** The body sent to the generation endpoint: the topic as given, not
      normalised. */
  function GenerateBody(i: PrefetchInput): Value {
    JObj(map["type" := JStr("learn_item"), "preferred_topics" := StrsJson(i.preferredTopics),
             "depth" := JStr(DepthName(i.depth)), "topic" := JStr(i.topic)])
  }

  const RateLimitedReply: Reply :=
    Reply(429, JObj(map["error" := JStr("Rate limit reached. Please wait a moment and try again."),
                        "rateLimited" := JBool(true)]))

  /** The answer to a non-ok generation response (lines 87-108). */
  function GenerateFailure(status: nat, body: Option<Value>): (r: Reply)
    ensures r.status == (if status == 0 then 500 else status) && r.body.JObj?
    ensures r == RateLimitedReply <==> status == 429 && body.Some? && body.value != JNull
    ensures "rateLimited" in r.body.fields <==> r == RateLimitedReply
  {
    var message: Value :=
      if body.Some? && body.value != JNull && Truthy(Get(body.value, "error")) then body.value.fields["error"]
      else JStr("Generation failed");
    if body.Some? && body.value != JNull && status == 429 then RateLimitedReply
    else Reply(if status == 0 then 500 else status, JObj(map["error" := message, "status" := JNum(status as real)]))
  }

  /** A 429 is passed on as "rate limited" only when its body parsed to
      something other than null: reading `.error` of null throws inside the
      `try`, and the rate-limit test after it is skipped. */
  lemma RateLimitNeedsABody(body: Option<Value>)
    ensures GenerateFailure(429, body).status == 429
    ensures (GenerateFailure(429, body) == RateLimitedReply) <==> body.Some? && body.value != JNull
    ensures body.Some? && body.value == JNull ==>
      GenerateFailure(429, body).body == JObj(map["error" := JStr("Generation failed"), "status" := JNum(429 as real)])
  {
  }

  /** The error text of a failed generation is passed on when truthy. */
  lemma GenerateFailureMessage(status: nat, message: string)
    requires status != 429 && message != ""
    ensures GenerateFailure(status, Some(JObj(map["error" := JStr(message)])))
         == Reply(if status == 0 then 500 else status, JObj(map["error" := JStr(message), "status" := JNum(status as real)]))
  {
  }

  /** The stored card for (user, normalised topic) after a successful upsert. */
  predicate StoredCard(rows: seq<LearnItemRow>, k: int, userId: string, topic: string, id: string,
                      content: Value, expiresAt: int) {
    0 <= k < |rows| && SameUserTopic(rows[k], userId, NormalizeTopic(topic)) &&
    rows[k].id == id && rows[k].sourceType == TopicChoice && rows[k].content == content &&
    rows[k].expiresAt == Some(expiresAt)
  }

  /** The answer when the fetch of the generation endpoint throws. */
  function FetchFailedReply(message: string): Reply {
    Reply(500, JObj(map["error" := JStr("Failed to generate content. Please try again."),
                        "details" := JStr(message)]))
  }

  /** The row step 3 upserts: the stored row's id when it has one, else a
      fresh id; the normalised topic; a `topic_choice` card. */
  function CardRow(userId: string, i: PrefetchInput, existing: Option<LearnItemRow>, cleanContent: Value,
                   freshId: string, now: int, expiresAt: int): LearnItemRow
  {
    var itemId := if existing.Some? && existing.value.id != "" then existing.value.id else freshId;
    LearnItemRow(itemId, userId, NormalizeTopic(i.topic), TopicChoice, cleanContent, Some(expiresAt), None, None, now)
  }

  /** Step 3 of the handler: upsert the generated card, `_meta` already
      removed (lines 115-142). */
  method StoreCard(db: Database, userId: string, i: PrefetchInput, existing: Option<LearnItemRow>, cleanContent: Value,
                   freshId: string, now: int, expiresAt: int, writeFails: bool)
    returns (res: Reply)
    requires db.Valid()
    modifies db
    ensures db.Valid()
    ensures db.savedItems == old(db.savedItems) && db.lessonPlans == old(db.lessonPlans)
    ensures db.events == old(db.events) && db.prefs == old(db.prefs)
    ensures res.status == 200 || (res == DbErrorReply(500) && db.learnItems == old(db.learnItems))
    ensures res.status == 200 ==>
      var id := if existing.Some? && existing.value.id != "" then existing.value.id else freshId;
      (exists k :: StoredCard(db.learnItems, k, userId, i.topic, id, cleanContent, expiresAt) &&
        res.body == JObj(map["item" := LearnItemJson(db.learnItems[k]), "cached" := JBool(false)])) &&
      |Where(db.learnItems, (x: LearnItemRow) => SameUserTopic(x, userId, NormalizeTopic(i.topic)))| == 1
    // the write succeeds exactly when the store accepts the row, and then the
    // table is the upsert's result
    ensures res.status == 200 <==>
      !writeFails && UpsertLearnItemRows(old(db.learnItems), CardRow(userId, i, existing, cleanContent, freshId, now, expiresAt)).Some?
    ensures res.status == 200 ==>
      db.learnItems == UpsertLearnItemRows(old(db.learnItems), CardRow(userId, i, existing, cleanContent, freshId, now, expiresAt)).value
  {
    var itemId := if existing.Some? && existing.value.id != "" then existing.value.id else freshId;
    var row := CardRow(userId, i, existing, cleanContent, freshId, now, expiresAt);
    var before := db.learnItems;
    var ok := db.UpsertLearnItem(row, writeFails);
    if !ok {
      return DbErrorReply(500);
    }
    UpsertLeavesOneRow(before, row);
    var k :| 0 <= k < |db.learnItems| && SameUserTopic(db.learnItems[k], row.userId, row.topic) &&
      db.learnItems[k].id == row.id && db.learnItems[k].sourceType == row.sourceType &&
      db.learnItems[k].content == row.content && db.learnItems[k].expiresAt == row.expiresAt;
    assert StoredCard(db.learnItems, k, userId, i.topic, itemId, cleanContent, expiresAt);
    res := OkReply(JObj(map["item" := LearnItemJson(db.learnItems[k]), "cached" := JBool(false)]));
  }

  method Post(db: Database, user: Option<string>, body: Result<Value, string>, gen: Generated,
              freshId: string, now: int, expiresAt: int, writeFails: bool)
    returns (res: Reply, sent: Option<Value>)
    requires db.Valid()
    modifies db
    ensures db.Valid()
    ensures db.savedItems == old(db.savedItems) && db.lessonPlans == old(db.lessonPlans)
    ensures db.events == old(db.events) && db.prefs == old(db.prefs)
    ensures user.None? ==> res == Unauthorized && sent.None?
    ensures user.Some? && body.Err? ==> res == InvalidJson && sent.None?
    ensures user.Some? && body.Ok? && ParsePrefetch(body.value).None? ==> res == InvalidData && sent.None?
    // a live card is served from the table; nothing is generated or written
    ensures user.Some? && body.Ok? && ParsePrefetch(body.value).Some? ==>
      var i := ParsePrefetch(body.value).value;
      var hit := Lookup(old(db.learnItems), user.value, i.topic);
      (hit.Some? && Live(hit.value, now) ==>
        res == OkReply(JObj(map["item" := LearnItemJson(hit.value), "cached" := JBool(true)])) && sent.None?) &&
      (!(hit.Some? && Live(hit.value, now)) ==> sent == Some(GenerateBody(i)))
    ensures sent.None? || res.status != 200 ==> db.learnItems == old(db.learnItems)
    ensures gen.FetchThrew? && sent.Some? ==> res == FetchFailedReply(gen.message)
    ensures gen.Responded? && !IsOk(gen.status) && sent.Some? ==> res == GenerateFailure(gen.status, gen.body)
    // a 2xx body that is not JSON, or is null, throws outside any `try`
    ensures gen.Responded? && IsOk(gen.status) && sent.Some? && (gen.body.None? || gen.body.value == JNull) ==>
      res == Crash
    // a generated card replaces or creates the one row for (user, normalised topic)
    ensures sent.Some? && res.status == 200 ==>
      var i := ParsePrefetch(body.value).value;
      var hit := Lookup(old(db.learnItems), user.value, i.topic);
      var id := if hit.Some? && hit.value.id != "" then hit.value.id else freshId;
      gen.Responded? && gen.body.Some? && RestWithout(gen.body.value, "_meta").Ok? &&
      (exists k :: StoredCard(db.learnItems, k, user.value, i.topic, id, RestWithout(gen.body.value, "_meta").value, expiresAt) &&
        res.body == JObj(map["item" := LearnItemJson(db.learnItems[k]), "cached" := JBool(false)])) &&
      |Where(db.learnItems, (x: LearnItemRow) => SameUserTopic(x, user.value, NormalizeTopic(i.topic)))| == 1
    // a 2xx object card is stored exactly when the upsert is accepted; otherwise "database error"
    ensures user.Some? && body.Ok? && ParsePrefetch(body.value).Some? && sent.Some? &&
            gen.Responded? && IsOk(gen.status) && gen.body.Some? && RestWithout(gen.body.value, "_meta").Ok? ==>
      var i := ParsePrefetch(body.value).value;
      var hit := Lookup(old(db.learnItems), user.value, i.topic);
      var row := CardRow(user.value, i, hit, RestWithout(gen.body.value, "_meta").value, freshId, now, expiresAt);
      && (res.status == 200 <==> !writeFails && UpsertLearnItemRows(old(db.learnItems), row).Some?)
      && (res.status == 200 ==> db.learnItems == UpsertLearnItemRows(old(db.learnItems), row).value)
      && (res.status != 200 ==> res == DbErrorReply(500))
  {
    sent := None;
    if user.None? {
      return Unauthorized, sent;
    }
    if body.Err? {
      return InvalidJson, sent;
    }
    var parsed := ParsePrefetch(body.value);
    if parsed.None? {
      return InvalidData, sent;
    }
    var i := parsed.value;
    var existing := Lookup(db.learnItems, user.value, i.topic);
    if existing.Some? && Live(existing.value, now) {
      return OkReply(JObj(map["item" := LearnItemJson(existing.value), "cached" := JBool(true)])), sent;
    }
    sent := Some(GenerateBody(i));
    if gen.FetchThrew? {
      return FetchFailedReply(gen.message), sent;
    }
    if !IsOk(gen.status) {
      return GenerateFailure(gen.status, gen.body), sent;
    }
    if gen.body.None? {
      return Crash, sent;
    }
    var cleanContent := RestWithout(gen.body.value, "_meta");
    if cleanContent.Err? {
      return Crash, sent;
    }
    res := StoreCard(db, user.value, i, existing, cleanContent.value, freshId, now, expiresAt, writeFails);
  }
}
