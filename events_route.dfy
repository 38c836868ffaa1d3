/**
  /api/events (frontend/app/api/events/route.ts): validate an analytics
  event and append it to user_events, logging a `content_viewed` event at
  most once per learn item and session.

  `num` is the number-to-string conversion that both the query string and
  the database's `->>` text of a JSON number go through.
  */
module EventsRoute {
  import opened Wrappers
  import opened Json
  import opened Discovery
  import opened Validations
  import opened Table
  import opened Store
  import opened Http
  import opened Generate

  /** `EventSchema`'s output; unknown keys are stripped. */
  datatype EventInput = EventInput(
    eventType: EventType,
    topic: Option<string>,
    learnItemId: Option<string>,
    slot: Option<Slot>,
    meta: Option<map<string, Value>>)

  function EventTypeOf(v: Value): (r: Option<EventType>)
    ensures r.Some? ==> v == JStr(EventTypeName(r.value))
  {
    if v.JStr? then ParseEventType(v.s) else None
  }

  function SlotOf(v: Value): (r: Option<Slot>)
    ensures r.Some? ==> v == JStr(SlotName(r.value))
  {
    if v.JStr? then ParseSlot(v.s) else None
  }

  /** `z.record(z.any())`: any object. */
  function RecordOf(v: Value): (r: Option<map<string, Value>>)
    ensures r.Some? <==> v.JObj?
    ensures r.Some? ==> v == JObj(r.value)
  {
    if v.JObj? then Some(v.fields) else None
  }

  /** `EventSchema.parse` */
  function ParseEvent(v: Value): (r: Option<EventInput>)
    ensures r.Some? ==> v.JObj? && "event_type" in v.fields && v.fields["event_type"] == JStr(EventTypeName(r.value.eventType))
    ensures r.Some? ==> (r.value.learnItemId.Some? ==> IsUuid(r.value.learnItemId.value))
    ensures r.Some? ==> (r.value.topic.Some? <==> "topic" in v.fields) && (r.value.meta.Some? <==> "meta" in v.fields)
    ensures v.JObj? && "slot" in v.fields && SlotOf(v.fields["slot"]).None? ==> r.None?
  {
    if !v.JObj? then None
    else
      var eventType := Req(v, "event_type", EventTypeOf);
      var topic := Opt(v, "topic", AnyStr);
      var learnItemId := Opt(v, "learn_item_id", UuidOf);
      var slot := Opt(v, "slot", SlotOf);
      var meta := Opt(v, "meta", RecordOf);
      if eventType.Some? && topic.Some? && learnItemId.Some? && slot.Some? && meta.Some? then
        Some(EventInput(eventType.value, topic.value, learnItemId.value, slot.value, meta.value))
      else None
  }

  /** An optional key of an object. */
  function WithOpt(m: map<string, Value>, key: string, o: Option<Value>): map<string, Value> {
    if o.Some? then m[key := o.value] else m
  }

  /** The request body that carries an event. */
  function EventJson(e: EventInput): Value {
    JObj(WithOpt(WithOpt(WithOpt(WithOpt(map["event_type" := JStr(EventTypeName(e.eventType))],
      "topic", if e.topic.Some? then Some(JStr(e.topic.value)) else None),
      "learn_item_id", if e.learnItemId.Some? then Some(JStr(e.learnItemId.value)) else None),
      "slot", if e.slot.Some? then Some(JStr(SlotName(e.slot.value))) else None),
      "meta", if e.meta.Some? then Some(JObj(e.meta.value)) else None))
  }

  /** Every event with a well-formed learn item id survives its body. */
  lemma EventRoundTrip(e: EventInput)
    requires e.learnItemId.Some? ==> IsUuid(e.learnItemId.value)
    ensures ParseEvent(EventJson(e)) == Some(e)
  {
    var v := EventJson(e);
    assert Req(v, "event_type", EventTypeOf) == Some(e.eventType);
    assert Opt(v, "topic", AnyStr) == Some(e.topic);
    assert Opt(v, "learn_item_id", UuidOf) == Some(e.learnItemId);
    assert Opt(v, "slot", SlotOf) == Some(e.slot) by {
      if e.slot.Some? {
        assert ParseSlot(SlotName(e.slot.value)) == Some(e.slot.value);
      }
    }
    assert Opt(v, "meta", RecordOf) == Some(e.meta);
  }

  // ---------------------------------------------------------------------
  // Deduplication
  // ---------------------------------------------------------------------

  /** The text `meta->>'session_id'` yields for a stored value; null (and an
      array or object, whose JSON text no query value is compared with
      here) yields nothing. */
  function StoredText(v: Value, num: real -> string): (r: Option<string>)
    ensures r.Some? ==> r.value == ValueString(v, num)
  {
    match v
    case JStr(s) => Some(s)
    case JNum(_) => Some(ValueString(v, num))
    case JBool(_) => Some(ValueString(v, num))
    case _ => None
  }

  /** `event_type === 'content_viewed' && learn_item_id && meta?.session_id` */
  predicate Deduplicable(e: EventInput) {
    e.eventType == ContentViewed && e.learnItemId.Some? && e.learnItemId.value != "" &&
    e.meta.Some? && Truthy(if "session_id" in e.meta.value then Some(e.meta.value["session_id"]) else None)
  }

  /** A stored view of `learnItemId` by `userId` whose session text is `session`. */
  predicate SameView(r: EventRow, userId: string, learnItemId: string, session: string, num: real -> string) {
    r.userId == userId && r.eventType == ContentViewed && r.learnItemId == Some(learnItemId) &&
    "session_id" in r.meta && StoredText(r.meta["session_id"], num) == Some(session)
  }

  /** The duplicate check: exactly one stored view matches. */
  predicate AlreadyViewed(events: seq<EventRow>, userId: string, e: EventInput, num: real -> string)
    requires Deduplicable(e)
    ensures AlreadyViewed(events, userId, e, num) <==>
      |Where(events, (r: EventRow) => SameView(r, userId, e.learnItemId.value, ValueString(e.meta.value["session_id"], num), num))| == 1
  {
    var session := ValueString(e.meta.value["session_id"], num);
    Single(events, (r: EventRow) => SameView(r, userId, e.learnItemId.value, session, num)).Some?
  }

  /** The row an accepted event appends. */
  function NewEvent(e: EventInput, userId: string, now: int): EventRow {
    EventRow(userId, e.eventType, e.topic, e.learnItemId, e.slot, e.meta.GetOr(map[]), now)
  }

  method Post(db: Database, user: Option<string>, body: Result<Value, string>, now: int,
              num: real -> string, writeFails: bool)
    returns (res: Reply)
    requires db.Valid()
    modifies db
    ensures db.Valid()
    ensures db.learnItems == old(db.learnItems) && db.savedItems == old(db.savedItems)
    ensures db.lessonPlans == old(db.lessonPlans) && db.prefs == old(db.prefs)
    ensures user.None? ==> res == Unauthorized && db.events == old(db.events)
    ensures user.Some? && body.Err? ==> res == InvalidJson && db.events == old(db.events)
    ensures user.Some? && body.Ok? && ParseEvent(body.value).None? ==> res == InvalidData && db.events == old(db.events)
    ensures user.Some? && body.Ok? && ParseEvent(body.value).Some? ==>
      var e := ParseEvent(body.value).value;
      var dedup := Deduplicable(e) && AlreadyViewed(old(db.events), user.value, e, num);
      (dedup ==> res == OkReply(JObj(map["success" := JBool(true), "deduplicated" := JBool(true)])) &&
                 db.events == old(db.events)) &&
      (!dedup && !writeFails ==> res == OkReply(JObj(map["success" := JBool(true)])) &&
                                 db.events == old(db.events) + [NewEvent(e, user.value, now)]) &&
      (!dedup && writeFails ==> res == DbErrorReply(500) && db.events == old(db.events))
  {
    if user.None? {
      return Unauthorized;
    }
    if body.Err? {
      return InvalidJson;
    }
    var parsed := ParseEvent(body.value);
    if parsed.None? {
      return InvalidData;
    }
    var e := parsed.value;
    if Deduplicable(e) && AlreadyViewed(db.events, user.value, e, num) {
      return OkReply(JObj(map["success" := JBool(true), "deduplicated" := JBool(true)]));
    }
    var ok := db.InsertEvent(NewEvent(e, user.value, now), writeFails);
    if !ok {
      return DbErrorReply(500);
    }
    res := OkReply(JObj(map["success" := JBool(true)]));
  }

  /** The first view of a learn item in a session is logged, and the same
      view sent again is then deduplicated (for a session id that is a
      string, number or boolean). */
  lemma SecondViewDeduplicated(events: seq<EventRow>, userId: string, e: EventInput, now: int, num: real -> string)
    requires Deduplicable(e)
    requires StoredText(e.meta.value["session_id"], num).Some?
    requires forall k :: 0 <= k < |events| ==>
      !SameView(events[k], userId, e.learnItemId.value, ValueString(e.meta.value["session_id"], num), num)
    ensures !AlreadyViewed(events, userId, e, num)
    ensures AlreadyViewed(events + [NewEvent(e, userId, now)], userId, e, num)
  {
    var session := ValueString(e.meta.value["session_id"], num);
    var p := (r: EventRow) => SameView(r, userId, e.learnItemId.value, session, num);
    WhereNone(events, p);
    var row := NewEvent(e, userId, now);
    assert p(row);
    WhereAppend(events, [row], p);
    assert Where([row], p) == [row];
  }
}
