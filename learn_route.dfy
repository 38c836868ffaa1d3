/**
  /api/learn (frontend/app/api/learn/route.ts): GET one card by id or the
  caller's newest cards, POST a new card, PATCH a card's expanded text.

  The query string is a map from parameter name to value; `freshId` is
  what `uuidv4()` returns, `now` the clock and `expiresAt` the value of
  `calculateExpiresAt()`.
  */
module LearnRoute {
  import opened Wrappers
  import opened Json
  import opened Types
  import opened Validations
  import opened JsString
  import opened Table
  import opened Store
  import opened Http
  import opened JsNumber

  // ---------------------------------------------------------------------
  // The list limit
  // ---------------------------------------------------------------------

  /** `Math.min(Math.max(n, 1), 100)`; NaN (None) survives both. */
  function Clamp(n: Option<int>): (r: Option<nat>)
    ensures r.Some? <==> n.Some?
    ensures r.Some? ==> 1 <= r.value <= 100
    ensures r.Some? && 1 <= n.value <= 100 ==> r.value == n.value
  {
    if n.None? then None
    else if n.value < 1 then Some(1)
    else if n.value > 100 then Some(100)
    else Some(n.value)
  }

  /** `searchParams.get('limit') || '10'` */
  function LimitText(param: Option<string>): string {
    if param.None? || param.value == "" then "10" else param.value
  }

  /** The list limit: `Math.min(Math.max(parseInt(param || '10'), 1), 100)`. */
  function ListLimit(param: Option<string>): (r: Option<nat>)
    ensures r.Some? ==> 1 <= r.value <= 100
  {
    Clamp(ParseInt(LimitText(param)))
  }

  /** The limit defaults to 10. */
  lemma ListLimitDefault(param: Option<string>)
    requires param.None? || param.value == ""
    ensures ListLimit(param) == Some(10)
  {
    ParseIntTen();
  }

  /** A limit in 1..100 is kept, a larger one becomes 100. */
  lemma ListLimitClamps(n: nat)
    ensures ListLimit(Some(DecimalString(n))) == Some(if n < 1 then 1 else if n > 100 then 100 else n)
  {
    var t := DecimalString(n);
    assert ParseInt(t) == Some(n) by {
      ParseIntDecimal(n, "");
      assert t + "" == t;
    }
    assert LimitText(Some(t)) == t;
  }

  /** A negative limit becomes 1. */
  lemma ListLimitNegative(n: nat)
    ensures ListLimit(Some("-" + DecimalString(n))) == Some(1)
  {
    var t := DecimalString(n);
    assert ParseInt("-" + t) == Some(-(n as int)) by {
      ParseIntNegative(n, "");
      assert t + "" == t;
    }
    assert LimitText(Some("-" + t)) == "-" + t;
  }

  /** A limit that is not a number leaves the list query to fail. */
  lemma ListLimitNaN()
    ensures ListLimit(Some("abc")) == None
  {
    ParseIntNaN();
  }

  // ---------------------------------------------------------------------
  // GET
  // ---------------------------------------------------------------------

  function CreatedAt(r: LearnItemRow): int {
    r.createdAt
  }

  predicate Owned(r: LearnItemRow, userId: string) {
    r.userId == userId
  }

  /** The caller's cards, newest first, at most `limit` of them. */
  function ListFor(rows: seq<LearnItemRow>, userId: string, limit: nat): (r: seq<LearnItemRow>)
    ensures |r| == if limit < |Where(rows, (x: LearnItemRow) => Owned(x, userId))| then limit
                   else |Where(rows, (x: LearnItemRow) => Owned(x, userId))|
    ensures forall k :: 0 <= k < |r| ==> r[k] in rows && r[k].userId == userId
    ensures NewestFirst(r, CreatedAt)
    ensures multiset(r) <= multiset(Where(rows, (x: LearnItemRow) => Owned(x, userId)))
  {
    var mine := Where(rows, (x: LearnItemRow) => Owned(x, userId));
    var sorted := SortNewest(mine, CreatedAt);
    assert |sorted| == |multiset(sorted)| == |multiset(mine)| == |mine|;
    var r := Take(sorted, limit);
    TakeSubMultiset(sorted, limit);
    forall k | 0 <= k < |r|
      ensures r[k] in rows && r[k].userId == userId
    {
      assert r[k] in multiset(mine);
    }
    TakeNewest(sorted, limit, CreatedAt);
    r
  }

  /** No card of the caller that is left out of the list is newer than the
      cards in it. */
  lemma ListForKeepsNewest(rows: seq<LearnItemRow>, userId: string, limit: nat, x: LearnItemRow)
    requires x in rows && x.userId == userId
    requires x !in ListFor(rows, userId, limit)
    ensures forall k :: 0 <= k < |ListFor(rows, userId, limit)| ==> ListFor(rows, userId, limit)[k].createdAt >= x.createdAt
  {
    var mine := Where(rows, (y: LearnItemRow) => Owned(y, userId));
    var sorted := SortNewest(mine, CreatedAt);
    var r := Take(sorted, limit);
    assert x in multiset(mine);
    assert x in sorted;
    var j :| 0 <= j < |sorted| && sorted[j] == x;
    TakeNewest(sorted, limit, CreatedAt);
  }

  /** A lookup by id: the caller's card with that id. */
  function ById(rows: seq<LearnItemRow>, userId: string, id: string): (r: Option<LearnItemRow>)
    ensures r.Some? ==> r.value in rows && r.value.id == id && r.value.userId == userId
  {
    Single(rows, (x: LearnItemRow) => x.id == id && x.userId == userId)
  }

  /** Another user's card is never found by id. */
  lemma ByIdIsScoped(rows: seq<LearnItemRow>, userId: string, id: string, k: nat)
    requires LearnItemsUnique(rows) && k < |rows| && rows[k].id == id && rows[k].userId != userId
    ensures ById(rows, userId, id).None?
  {
  }

  method Get(db: Database, user: Option<string>, query: map<string, string>) returns (res: Reply)
    requires db.Valid()
    ensures user.None? ==> res == Unauthorized
    ensures user.Some? && "id" in query && query["id"] != "" ==>
      var found := ById(db.learnItems, user.value, query["id"]);
      res == if found.Some? then OkReply(JObj(map["item" := LearnItemJson(found.value)])) else DbErrorReply(404)
    ensures user.Some? && ("id" !in query || query["id"] == "") ==>
      var limit := ListLimit(if "limit" in query then Some(query["limit"]) else None);
      res == if limit.None? then DbErrorReply(500)
             else OkReply(JObj(map["items" := JArr(MapSeq(ListFor(db.learnItems, user.value, limit.value), LearnItemJson))]))
  {
    if user.None? {
      return Unauthorized;
    }
    var limit := ListLimit(if "limit" in query then Some(query["limit"]) else None);
    if "id" in query && query["id"] != "" {
      var found := ById(db.learnItems, user.value, query["id"]);
      if found.None? {
        return DbErrorReply(404);
      }
      return OkReply(JObj(map["item" := LearnItemJson(found.value)]));
    }
    if limit.None? {
      return DbErrorReply(500);
    }
    var items := ListFor(db.learnItems, user.value, limit.value);
    res := OkReply(JObj(map["items" := JArr(MapSeq(items, LearnItemJson))]));
  }

  // ---------------------------------------------------------------------
  // POST and PATCH
  // ---------------------------------------------------------------------

  /** The row a valid POST inserts: the topic exactly as given. */
  function NewRow(i: CreateLearnItemInput, id: string, userId: string, expiresAt: int, now: int): LearnItemRow {
    LearnItemRow(id, userId, i.topic, i.sourceType, LearnContentJson(i.content), Some(expiresAt), None, None, now)
  }

  method Post(db: Database, user: Option<string>, body: Result<Value, string>,
              freshId: string, now: int, expiresAt: int, writeFails: bool)
    returns (res: Reply)
    requires db.Valid()
    modifies db
    ensures db.Valid()
    ensures db.savedItems == old(db.savedItems) && db.lessonPlans == old(db.lessonPlans)
    ensures db.events == old(db.events) && db.prefs == old(db.prefs)
    ensures user.None? ==> res == Unauthorized && db.learnItems == old(db.learnItems)
    ensures user.Some? && body.Err? ==> res == InvalidJson && db.learnItems == old(db.learnItems)
    ensures user.Some? && body.Ok? && ParseCreateLearnItem(body.value).None? ==>
      res == InvalidData && db.learnItems == old(db.learnItems)
    ensures user.Some? && body.Ok? && ParseCreateLearnItem(body.value).Some? ==>
      var row := NewRow(ParseCreateLearnItem(body.value).value, freshId, user.value, expiresAt, now);
      var inserted := !writeFails && InsertLearnItemRows(old(db.learnItems), row).Some?;
      (inserted ==> res == OkReply(JObj(map["item" := LearnItemJson(row)])) && db.learnItems == old(db.learnItems) + [row]) &&
      (!inserted ==> res == DbErrorReply(500) && db.learnItems == old(db.learnItems))
  {
    if user.None? {
      return Unauthorized;
    }
    if body.Err? {
      return InvalidJson;
    }
    var parsed := ParseCreateLearnItem(body.value);
    if parsed.None? {
      return InvalidData;
    }
    var row := NewRow(parsed.value, freshId, user.value, expiresAt, now);
    var ok := db.InsertLearnItem(row, writeFails);
    if !ok {
      return DbErrorReply(500);
    }
    res := OkReply(JObj(map["item" := LearnItemJson(row)]));
  }

  /** A POST for a topic the caller already has a card for, spelt exactly
      the same, breaks the (user_id, topic) constraint and is refused. */
  lemma PostDuplicateTopicRefused(rows: seq<LearnItemRow>, i: CreateLearnItemInput, freshId: string, userId: string,
                                  expiresAt: int, now: int, k: nat)
    requires k < |rows| && rows[k].userId == userId && rows[k].topic == i.topic
    ensures InsertLearnItemRows(rows, NewRow(i, freshId, userId, expiresAt, now)).None?
  {
  }

  method Patch(db: Database, user: Option<string>, body: Result<Value, string>, now: int, writeFails: bool)
    returns (res: Reply)
    requires db.Valid()
    modifies db
    ensures db.Valid()
    ensures db.savedItems == old(db.savedItems) && db.lessonPlans == old(db.lessonPlans)
    ensures db.events == old(db.events) && db.prefs == old(db.prefs)
    ensures user.None? || body.Err? || ParseUpdateLearnItem(body.value).None? || writeFails ==>
      db.learnItems == old(db.learnItems)
    ensures user.None? ==> res == Unauthorized
    ensures user.Some? && body.Err? ==> res == InvalidJson
    ensures user.Some? && body.Ok? && ParseUpdateLearnItem(body.value).None? ==> res == InvalidData
    ensures user.Some? && body.Ok? && ParseUpdateLearnItem(body.value).Some? && !writeFails ==>
      var u := ParseUpdateLearnItem(body.value).value;
      db.learnItems == UpdateExpandedRows(old(db.learnItems), u.id, user.value, ExpandedContentJson(u.expanded), now) &&
      var found := ById(db.learnItems, user.value, u.id);
      res == if found.Some? then OkReply(JObj(map["item" := LearnItemJson(found.value)])) else DbErrorReply(500)
    ensures writeFails && res.status != 401 && res.status != 400 ==> res == DbErrorReply(500)
  {
    if user.None? {
      return Unauthorized;
    }
    if body.Err? {
      return InvalidJson;
    }
    var parsed := ParseUpdateLearnItem(body.value);
    if parsed.None? {
      return InvalidData;
    }
    var u := parsed.value;
    var ok := db.UpdateExpanded(u.id, user.value, ExpandedContentJson(u.expanded), now, writeFails);
    if !ok {
      return DbErrorReply(500);
    }
    var found := ById(db.learnItems, user.value, u.id);
    if found.None? {
      return DbErrorReply(500);
    }
    res := OkReply(JObj(map["item" := LearnItemJson(found.value)]));
  }
}
