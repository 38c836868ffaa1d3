/**
  /api/prefs (frontend/app/api/prefs/route.ts): GET the caller's
  preferences, POST (upsert) the ones the body carries.

  The POST handler does not run the preferences schema: whatever JSON the
  body holds under `preferred_topics`, `depth` and `theme` is written.
  */
module PrefsRoute {
  import opened Wrappers
  import opened Json
  import opened Types
  import opened Validations
  import opened Store
  import opened Http

  /** `.eq('user_id', user.id).single()`, with "no row" answered as null. */
  function PrefsOrNull(prefs: map<string, PrefsRow>, userId: string): (v: Value)
    ensures userId !in prefs <==> v == JNull
  {
    if userId in prefs then PrefsJson(prefs[userId]) else JNull
  }

  method Get(db: Database, user: Option<string>) returns (res: Reply)
    requires db.Valid()
    ensures user.None? ==> res == Unauthorized
    ensures user.Some? ==> res == OkReply(JObj(map["prefs" := PrefsOrNull(db.prefs, user.value)]))
  {
    if user.None? {
      return Unauthorized;
    }
    res := OkReply(JObj(map["prefs" := PrefsOrNull(db.prefs, user.value)]));
  }

  /** `updateData`: a column for each key of the body that is not
      undefined (`const { name } = body` on a body that is not null). */
  function UpdateOf(body: Value, now: int): (u: PrefsUpdate)
    ensures u.preferredTopics.Some? <==> body.JObj? && "preferred_topics" in body.fields
    ensures u.depth.Some? <==> body.JObj? && "depth" in body.fields
    ensures u.theme.Some? <==> body.JObj? && "theme" in body.fields
    ensures u.preferredTopics.Some? ==> u.preferredTopics.value == body.fields["preferred_topics"]
    ensures u.depth.Some? ==> u.depth.value == body.fields["depth"]
    ensures u.theme.Some? ==> u.theme.value == body.fields["theme"]
  {
    PrefsUpdate(Json.Get(body, "preferred_topics"), Json.Get(body, "depth"), Json.Get(body, "theme"), now)
  }

  method Post(db: Database, user: Option<string>, body: Result<Value, string>, now: int, writeFails: bool)
    returns (res: Reply)
    requires db.Valid()
    modifies db
    ensures db.Valid()
    ensures db.learnItems == old(db.learnItems) && db.savedItems == old(db.savedItems)
    ensures db.lessonPlans == old(db.lessonPlans) && db.events == old(db.events)
    ensures user.None? ==> res == Unauthorized && db.prefs == old(db.prefs)
    ensures user.Some? && (body.Err? || body.value.JNull?) ==> res == Crash && db.prefs == old(db.prefs)
    ensures user.Some? && body.Ok? && !body.value.JNull? ==>
      var row := UpsertPrefsRow(old(db.prefs), user.value, UpdateOf(body.value, now));
      (!writeFails ==> res == OkReply(JObj(map["prefs" := PrefsJson(row)])) && db.prefs == old(db.prefs)[user.value := row]) &&
      (writeFails ==> res == DbErrorReply(500) && db.prefs == old(db.prefs))
  {
    if user.None? {
      return Unauthorized;
    }
    if body.Err? || body.value.JNull? {
      return Crash;
    }
    var ok, row := db.UpsertPrefs(user.value, UpdateOf(body.value, now), writeFails);
    if !ok {
      return DbErrorReply(500);
    }
    res := OkReply(JObj(map["prefs" := PrefsJson(row)]));
  }

  /** After a POST, a GET answers every key the body carried with the value
      it carried, and every key it left out with the value stored before. */
  lemma PostThenGet(prefs: map<string, PrefsRow>, userId: string, body: Value, now: int, key: string)
    requires PrefsKeyed(prefs) && body.JObj?
    requires key == "preferred_topics" || key == "depth" || key == "theme"
    ensures var after := PrefsOrNull(prefs[userId := UpsertPrefsRow(prefs, userId, UpdateOf(body, now))], userId);
      after.JObj? && key in after.fields &&
      (key in body.fields ==> after.fields[key] == body.fields[key]) &&
      (key !in body.fields && userId in prefs ==> after.fields[key] == PrefsJson(prefs[userId]).fields[key]) &&
      (key !in body.fields && userId !in prefs ==> after.fields[key] == JNull)
  {
  }

  /** Values the preferences schema rejects are stored all the same. */
  lemma PostSkipsSchema(prefs: map<string, PrefsRow>, userId: string, now: int)
    ensures var body := JObj(map["theme" := JStr("purple")]);
      ParseUpdateUserPrefs(body).None? &&
      UpsertPrefsRow(prefs, userId, UpdateOf(body, now)).theme == Some(JStr("purple"))
  {
    var body := JObj(map["theme" := JStr("purple")]);
    assert ParseThemePref("purple").None?;
  }
}
