/**
  The five tables the route handlers read and write (learn_items,
  saved_items, lesson_plans, user_events, user_prefs), held in memory, with
  the constraints the handlers rely on:
    - every table's `id` is a primary key;
    - learn_items is UNIQUE on (user_id, topic);
    - saved_items.learn_item_id references learn_items.id (the GET handler
      embeds `learn_item:learn_items(*)` through that relationship);
    - user_prefs is keyed by user_id.
  A write that would break one of them is refused, as the database refuses
  it. A write may also fail for reasons the handlers cannot see (network,
  column checks); each write method takes that outcome as its `fails`
  parameter. Timestamps are integers (milliseconds); the handlers pass
  `now`.
  */
module Store {
  import opened Wrappers
  import opened Json
  import opened Types
  import opened Discovery
  import opened Table

  datatype LearnItemRow = LearnItemRow(
    id: string,
    userId: string,
    topic: string,
    sourceType: SourceType,
    content: Value,
    expiresAt: Option<int>,
    expandedContent: Option<Value>,
    expandedCreatedAt: Option<int>,
    createdAt: int)

  /** `itemType` is None when the insert left `item_type` to its column default. */
  datatype SavedRow = SavedRow(
    id: string,
    userId: string,
    learnItemId: Option<string>,
    itemType: Option<SavedKind>,
    itemId: Option<string>,
    createdAt: int)

  /** `learnItemId` and `title` hold whatever JSON the request carried;
      `topic` and `content` are None when the request left them undefined. */
  datatype LessonPlanRow = LessonPlanRow(
    id: string,
    userId: string,
    learnItemId: Value,
    title: Value,
    topic: Option<Value>,
    content: Option<Value>,
    createdAt: int)

  datatype EventRow = EventRow(
    userId: string,
    eventType: EventType,
    topic: Option<string>,
    learnItemId: Option<string>,
    slot: Option<Slot>,
    meta: map<string, Value>,
    createdAt: int)

  /** A field is None while it has never been written. */
  datatype PrefsRow = PrefsRow(
    userId: string,
    preferredTopics: Option<Value>,
    depth: Option<Value>,
    theme: Option<Value>,
    updatedAt: int)

  /** The columns one prefs upsert carries; None for a column it leaves out. */
  datatype PrefsUpdate = PrefsUpdate(
    preferredTopics: Option<Value>,
    depth: Option<Value>,
    theme: Option<Value>,
    updatedAt: int)

  // ---------------------------------------------------------------------
  // Constraints
  // ---------------------------------------------------------------------

  predicate LearnItemsUnique(rows: seq<LearnItemRow>) {
    forall i, j :: 0 <= i < |rows| && 0 <= j < |rows| && i != j ==>
      rows[i].id != rows[j].id && !(rows[i].userId == rows[j].userId && rows[i].topic == rows[j].topic)
  }

  predicate SavedIdsUnique(rows: seq<SavedRow>) {
    forall i, j :: 0 <= i < |rows| && 0 <= j < |rows| && i != j ==> rows[i].id != rows[j].id
  }

  predicate PlanIdsUnique(rows: seq<LessonPlanRow>) {
    forall i, j :: 0 <= i < |rows| && 0 <= j < |rows| && i != j ==> rows[i].id != rows[j].id
  }

  predicate PrefsKeyed(prefs: map<string, PrefsRow>) {
    forall u :: u in prefs ==> prefs[u].userId == u
  }

  predicate SameUserTopic(a: LearnItemRow, userId: string, topic: string) {
    a.userId == userId && a.topic == topic
  }

  // ---------------------------------------------------------------------
  // Writes, as functions of the table
  // ---------------------------------------------------------------------

  /** `insert` into learn_items: refused on a taken id or (user_id, topic). */
  function InsertLearnItemRows(rows: seq<LearnItemRow>, row: LearnItemRow): (r: Option<seq<LearnItemRow>>)
    ensures r.Some? <==> forall k :: 0 <= k < |rows| ==> rows[k].id != row.id && !SameUserTopic(rows[k], row.userId, row.topic)
    ensures r.Some? ==> r.value == rows + [row]
  {
    if forall k :: 0 <= k < |rows| ==> rows[k].id != row.id && !SameUserTopic(rows[k], row.userId, row.topic)
    then Some(rows + [row])
    else None
  }

  lemma InsertLearnItemKeepsUnique(rows: seq<LearnItemRow>, row: LearnItemRow)
    requires LearnItemsUnique(rows)
    requires InsertLearnItemRows(rows, row).Some?
    ensures LearnItemsUnique(InsertLearnItemRows(rows, row).value)
  {
    var r := rows + [row];
    forall i, j | 0 <= i < |r| && 0 <= j < |r| && i != j
      ensures r[i].id != r[j].id && !(r[i].userId == r[j].userId && r[i].topic == r[j].topic)
    {
      if i == |rows| {
        assert r[j] == rows[j];
      } else if j == |rows| {
        assert r[i] == rows[i];
      } else {
        assert r[i] == rows[i] && r[j] == rows[j];
      }
    }
  }

  /** `upsert(row, { onConflict: 'user_id,topic' })`: the row holding
      (user_id, topic) takes the new id, source type, content and expiry
      and keeps the rest of its columns; without one, the row is inserted.
      Refused when the id belongs to another row. */
  function UpsertLearnItemRows(rows: seq<LearnItemRow>, row: LearnItemRow): (r: Option<seq<LearnItemRow>>)
    ensures r.None? ==> exists k :: 0 <= k < |rows| && rows[k].id == row.id
    ensures r.Some? && (exists k :: 0 <= k < |rows| && SameUserTopic(rows[k], row.userId, row.topic)) ==> |r.value| == |rows|
    ensures r.Some? && (forall k :: 0 <= k < |rows| ==> !SameUserTopic(rows[k], row.userId, row.topic)) ==> r.value == rows + [row]
  {
    var i := IndexWhere(rows, (x: LearnItemRow) => SameUserTopic(x, row.userId, row.topic));
    if i.None? then InsertLearnItemRows(rows, row)
    else if exists k :: 0 <= k < |rows| && k != i.value && rows[k].id == row.id then None
    else
      Some(rows[i.value := rows[i.value].(id := row.id, sourceType := row.sourceType, content := row.content, expiresAt := row.expiresAt)])
  }

  /** After an upsert, exactly one row holds the key, and it carries the
      upserted id, source type, content and expiry. */
  lemma UpsertLeavesOneRow(rows: seq<LearnItemRow>, row: LearnItemRow)
    requires LearnItemsUnique(rows)
    requires UpsertLearnItemRows(rows, row).Some?
    ensures var r := UpsertLearnItemRows(rows, row).value;
      LearnItemsUnique(r) &&
      |Where(r, (x: LearnItemRow) => SameUserTopic(x, row.userId, row.topic))| == 1 &&
      exists k :: 0 <= k < |r| && SameUserTopic(r[k], row.userId, row.topic) &&
        r[k].id == row.id && r[k].sourceType == row.sourceType && r[k].content == row.content && r[k].expiresAt == row.expiresAt
  {
    var p := (x: LearnItemRow) => SameUserTopic(x, row.userId, row.topic);
    var r := UpsertLearnItemRows(rows, row).value;
    var i := IndexWhere(rows, p);
    if i.None? {
      InsertLearnItemKeepsUnique(rows, row);
      WhereAppend(rows, [row], p);
      WhereNone(rows, p);
      assert r[|rows|] == row;
    } else {
      var n := i.value;
      forall a, b | 0 <= a < |r| && 0 <= b < |r| && a != b
        ensures r[a].id != r[b].id && !(r[a].userId == r[b].userId && r[a].topic == r[b].topic)
      {
      }
      assert r[n].id == row.id;
      OnlyIndexMatches(r, n, row.userId, row.topic);
    }
  }

  /** In a table unique on (user_id, topic), the row at `n` is the only one
      holding its key. */
  lemma OnlyIndexMatches(r: seq<LearnItemRow>, n: nat, userId: string, topic: string)
    requires LearnItemsUnique(r) && n < |r| && SameUserTopic(r[n], userId, topic)
    ensures |Where(r, (x: LearnItemRow) => SameUserTopic(x, userId, topic))| == 1
  {
    var p := (x: LearnItemRow) => SameUserTopic(x, userId, topic);
    assert r == r[..n] + [r[n]] + r[n + 1..];
    WhereAppend(r[..n] + [r[n]], r[n + 1..], p);
    WhereAppend(r[..n], [r[n]], p);
    NoMatchIn(r[..n], userId, topic, r[n]);
    NoMatchIn(r[n + 1..], userId, topic, r[n]);
  }

  lemma NoMatchIn(s: seq<LearnItemRow>, userId: string, topic: string, other: LearnItemRow)
    requires forall k :: 0 <= k < |s| ==> !(s[k].userId == other.userId && s[k].topic == other.topic)
    requires SameUserTopic(other, userId, topic)
    ensures Where(s, (x: LearnItemRow) => SameUserTopic(x, userId, topic)) == []
  {
    var w := Where(s, (x: LearnItemRow) => SameUserTopic(x, userId, topic));
    if w != [] {
      assert w[0] in s;
    }
  }

  /** The upsert touches no row outside its key. */
  lemma UpsertOthersUnchanged(rows: seq<LearnItemRow>, row: LearnItemRow)
    requires UpsertLearnItemRows(rows, row).Some?
    ensures var r := UpsertLearnItemRows(rows, row).value;
      Where(r, (x: LearnItemRow) => !SameUserTopic(x, row.userId, row.topic))
        == Where(rows, (x: LearnItemRow) => !SameUserTopic(x, row.userId, row.topic))
  {
    var q := (x: LearnItemRow) => !SameUserTopic(x, row.userId, row.topic);
    var r := UpsertLearnItemRows(rows, row).value;
    var i := IndexWhere(rows, (x: LearnItemRow) => SameUserTopic(x, row.userId, row.topic));
    if i.None? {
      WhereAppend(rows, [row], q);
    } else {
      var n := i.value;
      assert rows == rows[..n] + [rows[n]] + rows[n + 1..];
      assert r == rows[..n] + [r[n]] + rows[n + 1..];
      WhereAppend(rows[..n] + [rows[n]], rows[n + 1..], q);
      WhereAppend(rows[..n], [rows[n]], q);
      WhereAppend(rows[..n] + [r[n]], rows[n + 1..], q);
      WhereAppend(rows[..n], [r[n]], q);
    }
  }

  /** `update({ expanded_content, expanded_created_at }).eq('id').eq('user_id')` */
  function UpdateExpandedRows(rows: seq<LearnItemRow>, id: string, userId: string, expanded: Value, at: int)
    : (r: seq<LearnItemRow>)
    ensures |r| == |rows|
  {
    seq(|rows|, k requires 0 <= k < |rows| =>
      if rows[k].id == id && rows[k].userId == userId
      then rows[k].(expandedContent := Some(expanded), expandedCreatedAt := Some(at))
      else rows[k])
  }

  /** Only the matching row changes, and only in its two expansion columns. */
  lemma UpdateExpandedOnlyMatching(rows: seq<LearnItemRow>, id: string, userId: string, expanded: Value, at: int)
    requires LearnItemsUnique(rows)
    ensures var r := UpdateExpandedRows(rows, id, userId, expanded, at);
      LearnItemsUnique(r) &&
      (forall k :: 0 <= k < |rows| && !(rows[k].id == id && rows[k].userId == userId) ==> r[k] == rows[k]) &&
      (forall k :: 0 <= k < |rows| && rows[k].id == id && rows[k].userId == userId ==>
        r[k] == rows[k].(expandedContent := Some(expanded), expandedCreatedAt := Some(at)))
  {
  }

  /** The learn item a saved row points to, if the table has it. */
  predicate HasLearnItem(rows: seq<LearnItemRow>, id: string) {
    exists k :: 0 <= k < |rows| && rows[k].id == id
  }

  /** `insert` into saved_items: refused on a taken id or a dangling
      `learn_item_id`. */
  function InsertSavedRows(saved: seq<SavedRow>, learn: seq<LearnItemRow>, row: SavedRow): (r: Option<seq<SavedRow>>)
    ensures r.Some? <==> (forall k :: 0 <= k < |saved| ==> saved[k].id != row.id) &&
                         (row.learnItemId.Some? ==> HasLearnItem(learn, row.learnItemId.value))
    ensures r.Some? ==> r.value == saved + [row]
  {
    if (forall k :: 0 <= k < |saved| ==> saved[k].id != row.id) &&
       (row.learnItemId.Some? ==> HasLearnItem(learn, row.learnItemId.value))
    then Some(saved + [row])
    else None
  }

  lemma InsertSavedKeepsUnique(saved: seq<SavedRow>, learn: seq<LearnItemRow>, row: SavedRow)
    requires SavedIdsUnique(saved) && InsertSavedRows(saved, learn, row).Some?
    ensures SavedIdsUnique(InsertSavedRows(saved, learn, row).value)
  {
    var r := saved + [row];
    forall i, j | 0 <= i < |r| && 0 <= j < |r| && i != j
      ensures r[i].id != r[j].id
    {
      if i < |saved| && j < |saved| {
        assert r[i] == saved[i] && r[j] == saved[j];
      }
    }
  }

  predicate SavedMatches(x: SavedRow, userId: string, learnItemId: string) {
    x.userId == userId && x.learnItemId == Some(learnItemId)
  }

  /** `delete().eq('user_id').eq('learn_item_id')` */
  function DeleteSavedRows(saved: seq<SavedRow>, userId: string, learnItemId: string): (r: seq<SavedRow>)
    ensures forall x :: x in r <==> x in saved && !SavedMatches(x, userId, learnItemId)
    ensures |r| <= |saved|
  {
    Where(saved, (x: SavedRow) => !SavedMatches(x, userId, learnItemId))
  }

  /** The delete removes every matching row and keeps the others in order. */
  lemma DeleteSavedExact(saved: seq<SavedRow>, userId: string, learnItemId: string, a: seq<SavedRow>, b: seq<SavedRow>)
    requires saved == a + b
    ensures var r := DeleteSavedRows(saved, userId, learnItemId);
      (forall x :: x in r <==> x in saved && !SavedMatches(x, userId, learnItemId)) &&
      r == DeleteSavedRows(a, userId, learnItemId) + DeleteSavedRows(b, userId, learnItemId)
  {
    WhereAppend(a, b, (x: SavedRow) => !SavedMatches(x, userId, learnItemId));
  }

  /** Removing rows keeps ids unique. */
  lemma {:induction false} WhereKeepsSavedUnique(saved: seq<SavedRow>, p: SavedRow -> bool)
    requires SavedIdsUnique(saved)
    ensures SavedIdsUnique(Where(saved, p))
    decreases |saved|
  {
    if saved != [] {
      WhereKeepsSavedUnique(saved[1..], p);
      var rest := Where(saved[1..], p);
      forall k | 0 <= k < |rest|
        ensures rest[k].id != saved[0].id
      {
        assert rest[k] in saved[1..];
      }
    }
  }

  /** `insert` into lesson_plans: refused on a taken id. */
  function InsertPlanRows(rows: seq<LessonPlanRow>, row: LessonPlanRow): (r: Option<seq<LessonPlanRow>>)
    ensures r.Some? <==> forall k :: 0 <= k < |rows| ==> rows[k].id != row.id
    ensures r.Some? ==> r.value == rows + [row]
  {
    if forall k :: 0 <= k < |rows| ==> rows[k].id != row.id then Some(rows + [row]) else None
  }

  lemma InsertPlanKeepsUnique(rows: seq<LessonPlanRow>, row: LessonPlanRow)
    requires PlanIdsUnique(rows) && InsertPlanRows(rows, row).Some?
    ensures PlanIdsUnique(InsertPlanRows(rows, row).value)
  {
    var r := rows + [row];
    forall i, j | 0 <= i < |r| && 0 <= j < |r| && i != j
      ensures r[i].id != r[j].id
    {
      if i < |rows| && j < |rows| {
        assert r[i] == rows[i] && r[j] == rows[j];
      }
    }
  }

  /** `upsert(updateData)` on user_prefs: the columns the update carries are
      written, the others keep their stored value (or stay unset). */
  function UpsertPrefsRow(prefs: map<string, PrefsRow>, userId: string, u: PrefsUpdate): (r: PrefsRow)
    ensures r.userId == userId && r.updatedAt == u.updatedAt
    ensures u.preferredTopics.Some? ==> r.preferredTopics == u.preferredTopics
    ensures u.depth.Some? ==> r.depth == u.depth
    ensures u.theme.Some? ==> r.theme == u.theme
    ensures userId in prefs && u.preferredTopics.None? ==> r.preferredTopics == prefs[userId].preferredTopics
    ensures userId in prefs && u.depth.None? ==> r.depth == prefs[userId].depth
    ensures userId in prefs && u.theme.None? ==> r.theme == prefs[userId].theme
    ensures userId !in prefs ==> r == PrefsRow(userId, u.preferredTopics, u.depth, u.theme, u.updatedAt)
  {
    var old_ := if userId in prefs then prefs[userId] else PrefsRow(userId, None, None, None, u.updatedAt);
    PrefsRow(userId,
      if u.preferredTopics.Some? then u.preferredTopics else old_.preferredTopics,
      if u.depth.Some? then u.depth else old_.depth,
      if u.theme.Some? then u.theme else old_.theme,
      u.updatedAt)
  }

  // ---------------------------------------------------------------------
  // JSON forms of rows, as the handlers return them
  // ---------------------------------------------------------------------

  function OptJson(o: Option<Value>): Value {
    if o.Some? then o.value else JNull
  }

  function OptStrJson(o: Option<string>): Value {
    if o.Some? then JStr(o.value) else JNull
  }

  function TimeJson(t: int): Value {
    JNum(t as real)
  }

  function LearnItemJson(r: LearnItemRow): Value {
    JObj(map[
      "id" := JStr(r.id), "user_id" := JStr(r.userId), "topic" := JStr(r.topic),
      "source_type" := JStr(SourceTypeName(r.sourceType)), "content" := r.content,
      "expires_at" := if r.expiresAt.Some? then TimeJson(r.expiresAt.value) else JNull,
      "expanded_content" := OptJson(r.expandedContent),
      "expanded_created_at" := if r.expandedCreatedAt.Some? then TimeJson(r.expandedCreatedAt.value) else JNull,
      "created_at" := TimeJson(r.createdAt)])
  }

  function SavedJson(r: SavedRow): Value {
    JObj(map[
      "id" := JStr(r.id), "user_id" := JStr(r.userId), "learn_item_id" := OptStrJson(r.learnItemId),
      "item_type" := if r.itemType.Some? then JStr(SavedKindName(r.itemType.value)) else JNull,
      "item_id" := OptStrJson(r.itemId), "created_at" := TimeJson(r.createdAt)])
  }

  /** A saved row with its learn item embedded under `learn_item`. */
  function SavedWithItemJson(r: SavedRow, learnItem: Option<LearnItemRow>): Value {
    JObj(SavedJson(r).fields["learn_item" := if learnItem.Some? then LearnItemJson(learnItem.value) else JNull])
  }

  function PlanJson(r: LessonPlanRow): Value {
    JObj(map[
      "id" := JStr(r.id), "user_id" := JStr(r.userId), "learn_item_id" := r.learnItemId,
      "title" := r.title, "topic" := OptJson(r.topic), "content" := OptJson(r.content),
      "created_at" := TimeJson(r.createdAt)])
  }

  function PrefsJson(r: PrefsRow): Value {
    JObj(map[
      "user_id" := JStr(r.userId), "preferred_topics" := OptJson(r.preferredTopics),
      "depth" := OptJson(r.depth), "theme" := OptJson(r.theme), "updated_at" := TimeJson(r.updatedAt)])
  }

  // ---------------------------------------------------------------------
  // The database
  // ---------------------------------------------------------------------

  class Database {
    var learnItems: seq<LearnItemRow>
    var savedItems: seq<SavedRow>
    var lessonPlans: seq<LessonPlanRow>
    var events: seq<EventRow>
    var prefs: map<string, PrefsRow>

    predicate Valid()
      reads this
    {
      LearnItemsUnique(learnItems) && SavedIdsUnique(savedItems) && PlanIdsUnique(lessonPlans) && PrefsKeyed(prefs)
    }

    constructor()
      ensures Valid()
      ensures learnItems == [] && savedItems == [] && lessonPlans == [] && events == [] && prefs == map[]
    {
      learnItems, savedItems, lessonPlans, events, prefs := [], [], [], [], map[];
    }

    method InsertLearnItem(row: LearnItemRow, fails: bool) returns (ok: bool)
      requires Valid()
      modifies this
      ensures Valid()
      ensures ok <==> !fails && InsertLearnItemRows(old(learnItems), row).Some?
      ensures learnItems == if ok then old(learnItems) + [row] else old(learnItems)
      ensures savedItems == old(savedItems) && lessonPlans == old(lessonPlans)
      ensures events == old(events) && prefs == old(prefs)
    {
      var r := InsertLearnItemRows(learnItems, row);
      ok := !fails && r.Some?;
      if ok {
        InsertLearnItemKeepsUnique(learnItems, row);
        learnItems := r.value;
      }
    }

    method UpsertLearnItem(row: LearnItemRow, fails: bool) returns (ok: bool)
      requires Valid()
      modifies this
      ensures Valid()
      ensures ok <==> !fails && UpsertLearnItemRows(old(learnItems), row).Some?
      ensures learnItems == if ok then UpsertLearnItemRows(old(learnItems), row).value else old(learnItems)
      ensures savedItems == old(savedItems) && lessonPlans == old(lessonPlans)
      ensures events == old(events) && prefs == old(prefs)
    {
      var r := UpsertLearnItemRows(learnItems, row);
      ok := !fails && r.Some?;
      if ok {
        UpsertLeavesOneRow(learnItems, row);
        learnItems := r.value;
      }
    }

    method UpdateExpanded(id: string, userId: string, expanded: Value, at: int, fails: bool) returns (ok: bool)
      requires Valid()
      modifies this
      ensures Valid()
      ensures learnItems == if fails then old(learnItems) else UpdateExpandedRows(old(learnItems), id, userId, expanded, at)
      ensures ok <==> !fails
      ensures savedItems == old(savedItems) && lessonPlans == old(lessonPlans)
      ensures events == old(events) && prefs == old(prefs)
    {
      ok := !fails;
      if ok {
        UpdateExpandedOnlyMatching(learnItems, id, userId, expanded, at);
        learnItems := UpdateExpandedRows(learnItems, id, userId, expanded, at);
      }
    }

    method InsertSaved(row: SavedRow, fails: bool) returns (ok: bool)
      requires Valid()
      modifies this
      ensures Valid()
      ensures ok <==> !fails && InsertSavedRows(old(savedItems), old(learnItems), row).Some?
      ensures savedItems == if ok then old(savedItems) + [row] else old(savedItems)
      ensures learnItems == old(learnItems) && lessonPlans == old(lessonPlans)
      ensures events == old(events) && prefs == old(prefs)
    {
      var r := InsertSavedRows(savedItems, learnItems, row);
      ok := !fails && r.Some?;
      if ok {
        InsertSavedKeepsUnique(savedItems, learnItems, row);
        savedItems := r.value;
      }
    }

    method DeleteSaved(userId: string, learnItemId: string, fails: bool) returns (ok: bool)
      requires Valid()
      modifies this
      ensures Valid()
      ensures ok <==> !fails
      ensures savedItems == if ok then DeleteSavedRows(old(savedItems), userId, learnItemId) else old(savedItems)
      ensures learnItems == old(learnItems) && lessonPlans == old(lessonPlans)
      ensures events == old(events) && prefs == old(prefs)
    {
      ok := !fails;
      if ok {
        WhereKeepsSavedUnique(savedItems, (x: SavedRow) => !SavedMatches(x, userId, learnItemId));
        savedItems := DeleteSavedRows(savedItems, userId, learnItemId);
      }
    }

    method InsertPlan(row: LessonPlanRow, fails: bool) returns (ok: bool)
      requires Valid()
      modifies this
      ensures Valid()
      ensures ok <==> !fails && InsertPlanRows(old(lessonPlans), row).Some?
      ensures lessonPlans == if ok then old(lessonPlans) + [row] else old(lessonPlans)
      ensures learnItems == old(learnItems) && savedItems == old(savedItems)
      ensures events == old(events) && prefs == old(prefs)
    {
      var r := InsertPlanRows(lessonPlans, row);
      ok := !fails && r.Some?;
      if ok {
        InsertPlanKeepsUnique(lessonPlans, row);
        lessonPlans := r.value;
      }
    }

    method InsertEvent(row: EventRow, fails: bool) returns (ok: bool)
      requires Valid()
      modifies this
      ensures Valid()
      ensures ok <==> !fails
      ensures events == if ok then old(events) + [row] else old(events)
      ensures learnItems == old(learnItems) && savedItems == old(savedItems)
      ensures lessonPlans == old(lessonPlans) && prefs == old(prefs)
    {
      ok := !fails;
      if ok {
        events := events + [row];
      }
    }

    method UpsertPrefs(userId: string, u: PrefsUpdate, fails: bool) returns (ok: bool, row: PrefsRow)
      requires Valid()
      modifies this
      ensures Valid()
      ensures ok <==> !fails
      ensures row == UpsertPrefsRow(old(prefs), userId, u)
      ensures prefs == if ok then old(prefs)[userId := row] else old(prefs)
      ensures learnItems == old(learnItems) && savedItems == old(savedItems)
      ensures lessonPlans == old(lessonPlans) && events == old(events)
    {
      ok := !fails;
      row := UpsertPrefsRow(prefs, userId, u);
      if ok {
        prefs := prefs[userId := row];
      }
    }
  }
}
