/**
  /api/lesson-plan (frontend/app/api/lesson-plan/route.ts): GET one plan by
  id, the plan of a learn item, or the caller's plans newest first; POST a
  plan and bookmark it in saved_items.

  `planId` and `savedId` are the two `uuidv4()` values, `now` the clock,
  and `num` the engine's number-to-string conversion for a topic that is a
  number.
  */
module LessonPlanRoute {
  import opened Wrappers
  import opened Json
  import opened Types
  import opened Validations
  import opened Table
  import opened Store
  import opened Http
  import opened Generate
  import opened SavedRoute
  import opened SavedPage

  // ---------------------------------------------------------------------
  // GET
  // ---------------------------------------------------------------------

  function PlanAt(r: LessonPlanRow): int {
    r.createdAt
  }

  /** `.eq('id', id).eq('user_id', user.id).single()` */
  function PlanById(plans: seq<LessonPlanRow>, userId: string, id: string): (r: Option<LessonPlanRow>)
    ensures r.Some? ==> r.value in plans && r.value.id == id && r.value.userId == userId
  {
    Single(plans, (x: LessonPlanRow) => x.id == id && x.userId == userId)
  }

  /** With ids unique, the caller's plan with that id is found, and another
      user's plan never is. */
  lemma PlanByIdFinds(plans: seq<LessonPlanRow>, userId: string, k: nat)
    requires PlanIdsUnique(plans) && k < |plans|
    ensures PlanById(plans, userId, plans[k].id) == if plans[k].userId == userId then Some(plans[k]) else None
  {
    var p := (x: LessonPlanRow) => x.id == plans[k].id && x.userId == userId;
    if plans[k].userId == userId {
      WhereOnly(plans, p, k);
    }
  }

  /** `.eq('learn_item_id', id).eq('user_id', user.id).single()`, with no
      row and several rows alike read as "no plan". */
  function PlanForItem(plans: seq<LessonPlanRow>, userId: string, learnItemId: string): (r: Option<LessonPlanRow>)
    ensures r.Some? ==> r.value in plans && r.value.learnItemId == JStr(learnItemId) && r.value.userId == userId
  {
    Single(plans, (x: LessonPlanRow) => x.learnItemId == JStr(learnItemId) && x.userId == userId)
  }

  /** A learn item with two plans of the caller's has none as far as the
      lookup is concerned. */
  lemma TwoPlansHideBoth(plans: seq<LessonPlanRow>, userId: string, learnItemId: string, i: nat, j: nat)
    requires i < j < |plans|
    requires plans[i].learnItemId == JStr(learnItemId) && plans[i].userId == userId
    requires plans[j].learnItemId == JStr(learnItemId) && plans[j].userId == userId
    ensures PlanForItem(plans, userId, learnItemId).None?
  {
    WhereTwo(plans, (x: LessonPlanRow) => x.learnItemId == JStr(learnItemId) && x.userId == userId, i, j);
  }

  /** `.eq('user_id', user.id).order('created_at', { ascending: false })` */
  function PlansFor(plans: seq<LessonPlanRow>, userId: string): (r: seq<LessonPlanRow>)
    ensures multiset(r) == multiset(Where(plans, (x: LessonPlanRow) => x.userId == userId))
    ensures NewestFirst(r, PlanAt)
    ensures forall x :: x in r <==> x in plans && x.userId == userId
  {
    var mine := Where(plans, (x: LessonPlanRow) => x.userId == userId);
    var r := SortNewest(mine, PlanAt);
    assert forall x :: x in r <==> x in multiset(mine);
    r
  }

  function PlanOrNull(p: Option<LessonPlanRow>): Value {
    if p.Some? then PlanJson(p.value) else JNull
  }

  predicate HasParam(query: map<string, string>, name: string) {
    name in query && query[name] != ""
  }

  method Get(db: Database, user: Option<string>, query: map<string, string>) returns (res: Reply)
    requires db.Valid()
    ensures user.None? ==> res == Unauthorized
    ensures user.Some? && HasParam(query, "id") ==>
      var found := PlanById(db.lessonPlans, user.value, query["id"]);
      res == if found.Some? then OkReply(JObj(map["plan" := PlanJson(found.value)])) else DbErrorReply(404)
    ensures user.Some? && !HasParam(query, "id") && HasParam(query, "learn_item_id") ==>
      res == OkReply(JObj(map["plan" := PlanOrNull(PlanForItem(db.lessonPlans, user.value, query["learn_item_id"]))]))
    ensures user.Some? && !HasParam(query, "id") && !HasParam(query, "learn_item_id") ==>
      res == OkReply(JObj(map["plans" := JArr(MapSeq(PlansFor(db.lessonPlans, user.value), PlanJson))]))
  {
    if user.None? {
      return Unauthorized;
    }
    if HasParam(query, "id") {
      var found := PlanById(db.lessonPlans, user.value, query["id"]);
      if found.None? {
        return DbErrorReply(404);
      }
      return OkReply(JObj(map["plan" := PlanJson(found.value)]));
    }
    if HasParam(query, "learn_item_id") {
      var found := PlanForItem(db.lessonPlans, user.value, query["learn_item_id"]);
      return OkReply(JObj(map["plan" := PlanOrNull(found)]));
    }
    res := OkReply(JObj(map["plans" := JArr(MapSeq(PlansFor(db.lessonPlans, user.value), PlanJson))]));
  }

  // ---------------------------------------------------------------------
  // POST
  // ---------------------------------------------------------------------

  /** `title || \`Lesson Plan: ${topic}\`` */
  function PlanTitle(body: Value, num: real -> string): (t: Value)
    ensures Truthy(Json.Get(body, "title")) ==> t == Json.Get(body, "title").value
    ensures !Truthy(Json.Get(body, "title")) ==> t == JStr("Lesson Plan: " + TemplateStr(Json.Get(body, "topic"), num))
  {
    var title := Json.Get(body, "title");
    if Truthy(title) then title.value else JStr("Lesson Plan: " + TemplateStr(Json.Get(body, "topic"), num))
  }

  /** A body with neither a title nor a topic names its plan after
      `undefined`. */
  lemma UntitledWithoutTopic(num: real -> string)
    ensures PlanTitle(JObj(map[]), num) == JStr("Lesson Plan: undefined")
  {
  }

  /** The row a POST inserts. */
  function PlanRow(body: Value, planId: string, userId: string, now: int, num: real -> string): (r: LessonPlanRow)
    ensures r.id == planId && r.userId == userId && r.createdAt == now
    ensures Truthy(Json.Get(body, "learn_item_id")) ==> r.learnItemId == Json.Get(body, "learn_item_id").value
    ensures !Truthy(Json.Get(body, "learn_item_id")) ==> r.learnItemId == JNull
    ensures r.title == PlanTitle(body, num) && r.title != JNull
    ensures r.topic == Json.Get(body, "topic") && r.content == Json.Get(body, "content")
  {
    var learnItemId := Json.Get(body, "learn_item_id");
    LessonPlanRow(planId, userId, if Truthy(learnItemId) then learnItemId.value else JNull,
                  PlanTitle(body, num), Json.Get(body, "topic"), Json.Get(body, "content"), now)
  }

  /** The bookmark of a new plan. */
  function AutoSaveRow(savedId: string, userId: string, planId: string, now: int): SavedRow {
    SavedRow(savedId, userId, None, Some(SavedLessonPlan), Some(planId), now)
  }

  method Post(db: Database, user: Option<string>, body: Result<Value, string>,
              planId: string, savedId: string, now: int, num: real -> string, planFails: bool, saveFails: bool)
    returns (res: Reply)
    requires db.Valid()
    modifies db
    ensures db.Valid()
    ensures db.learnItems == old(db.learnItems) && db.events == old(db.events) && db.prefs == old(db.prefs)
    ensures user.None? || body.Err? || body.value.JNull? ==>
      db.lessonPlans == old(db.lessonPlans) && db.savedItems == old(db.savedItems)
    ensures user.None? ==> res == Unauthorized
    ensures user.Some? && (body.Err? || body.value.JNull?) ==> res == Crash
    ensures user.Some? && body.Ok? && !body.value.JNull? ==>
      var row := PlanRow(body.value, planId, user.value, now, num);
      var planned := !planFails && InsertPlanRows(old(db.lessonPlans), row).Some?;
      var bookmark := AutoSaveRow(savedId, user.value, planId, now);
      var saved := planned && !saveFails && InsertSavedRows(old(db.savedItems), old(db.learnItems), bookmark).Some?;
      (!planned ==> res == DbErrorReply(500) && db.lessonPlans == old(db.lessonPlans) && db.savedItems == old(db.savedItems)) &&
      (planned ==> db.lessonPlans == old(db.lessonPlans) + [row] &&
                   db.savedItems == (if saved then old(db.savedItems) + [bookmark] else old(db.savedItems)) &&
                   res == OkReply(JObj(map["plan" := PlanJson(row), "autoSaved" := JBool(saved)])))
  {
    if user.None? {
      return Unauthorized;
    }
    if body.Err? || body.value.JNull? {
      return Crash;
    }
    var row := PlanRow(body.value, planId, user.value, now, num);
    var planned := db.InsertPlan(row, planFails);
    if !planned {
      return DbErrorReply(500);
    }
    var saved := db.InsertSaved(AutoSaveRow(savedId, user.value, planId, now), saveFails);
    res := OkReply(JObj(map["plan" := PlanJson(row), "autoSaved" := JBool(saved)]));
  }

  /** A new plan is found again by its id, and its bookmark shows on the
      saved page's lesson-plan tab, opens nothing there, and names the plan
      by a key the corrected delete reads. */
  lemma NewPlanIsReachable(plans: seq<LessonPlanRow>, body: Value, planId: string, savedId: string,
                           userId: string, now: int, num: real -> string)
    requires PlanIdsUnique(plans) && InsertPlanRows(plans, PlanRow(body, planId, userId, now, num)).Some?
    requires planId != ""
    ensures var row := PlanRow(body, planId, userId, now, num);
      PlanById(plans + [row], userId, planId) == Some(row)
    ensures var listed := Listed(AutoSaveRow(savedId, userId, planId, now), None);
      ShownOn(listed, KindTab(SavedLessonPlan)) && OpenTarget(listed).None? &&
      KeyFor(listed.row) == Some(ByItem(SavedLessonPlan, planId)) &&
      DeleteKeyOf(KeyQuery(ByItem(SavedLessonPlan, planId))) == Some(ByItem(SavedLessonPlan, planId))
  {
    var row := PlanRow(body, planId, userId, now, num);
    InsertPlanKeepsUnique(plans, row);
    PlanByIdFinds(plans + [row], userId, |plans|);
    KeyQueryRoundTrip(ByItem(SavedLessonPlan, planId));
  }
}
