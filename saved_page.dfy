/**
  The saved-items page (frontend/app/saved/page.tsx): the list it loads from
  GET /api/saved, its tabs and counts, the card a click opens, and what its
  delete button does to the list and to the table.

  The delete button, as written, asks the server to delete by `item_type`
  and `item_id` while the handler only reads `learn_item_id`: the server
  answers 400 and keeps the row, and the page removes it from its list all
  the same. `HandleDeleteAsWritten` and `PageDeleteLeavesRow` state that;
  `HandleDelete` sends a key the corrected handler (`DeleteKeyOf`) reads, and
  `HandleDeleteAgrees` proves the page's list and the table then agree.
  */
module SavedPage {
  import opened Wrappers
  import opened Types
  import opened Validations
  import opened Table
  import opened Store
  import opened SavedRoute

  /** A saved row as the page receives it, with its embedded learn item. */
  datatype Listed = Listed(row: SavedRow, learnItem: Option<LearnItemRow>)

  datatype Tab = AllTab | KindTab(kind: SavedKind)

  /** `loadSavedItems`: the GET's `items`, in the order it sends them. */
  function Loaded(saved: seq<SavedRow>, learn: seq<LearnItemRow>, userId: string): (r: seq<Listed>)
    ensures |r| == |SavedFor(saved, userId)|
  {
    MapSeq(SavedFor(saved, userId), (x: SavedRow) => Listed(x, Embed(x, learn)))
  }

  /** The page lists exactly the caller's rows, each with the learn item it
      references. */
  lemma LoadedMembers(saved: seq<SavedRow>, learn: seq<LearnItemRow>, userId: string, y: Listed)
    ensures y in Loaded(saved, learn, userId) <==>
      y.row in saved && y.row.userId == userId && y.learnItem == Embed(y.row, learn)
  {
    var sorted := SavedFor(saved, userId);
    var l := Loaded(saved, learn, userId);
    if y in l {
      var i :| 0 <= i < |l| && l[i] == y;
      assert sorted[i] in sorted;
    }
    if y.row in saved && y.row.userId == userId && y.learnItem == Embed(y.row, learn) {
      var i :| 0 <= i < |sorted| && sorted[i] == y.row;
      assert l[i] == y;
    }
  }

  // ---------------------------------------------------------------------
  // Tabs and counts
  // ---------------------------------------------------------------------

  predicate ShownOn(y: Listed, tab: Tab) {
    tab.AllTab? || y.row.itemType == Some(tab.kind)
  }

  /** `filteredItems` */
  function OnTab(items: seq<Listed>, tab: Tab): (r: seq<Listed>)
    ensures forall y :: y in r <==> y in items && ShownOn(y, tab)
  {
    Where(items, (y: Listed) => ShownOn(y, tab))
  }

  /** The "All" tab shows the whole list. */
  lemma AllTabShowsAll(items: seq<Listed>)
    ensures OnTab(items, AllTab) == items
  {
    WhereAll(items, (y: Listed) => ShownOn(y, AllTab));
  }

  /** `learningCount`, `lessonPlanCount`: what each typed tab shows. */
  function CountOf(items: seq<Listed>, kind: SavedKind): nat {
    |OnTab(items, KindTab(kind))|
  }

  function Untyped(items: seq<Listed>): seq<Listed> {
    Where(items, (y: Listed) => y.row.itemType.None?)
  }

  /** The two typed tabs and the rows with no type split the list: the
      tab counts add up to the "All" count exactly when every row has a
      type. */
  lemma {:induction false} CountsPartition(items: seq<Listed>)
    ensures CountOf(items, SavedLearning) + CountOf(items, SavedLessonPlan) + |Untyped(items)| == |items|
    decreases |items|
  {
    if items != [] {
      CountsPartition(items[1..]);
      var t := items[0].row.itemType;
      assert CountOf(items, SavedLearning) == (if t == Some(SavedLearning) then 1 else 0) + CountOf(items[1..], SavedLearning);
      assert CountOf(items, SavedLessonPlan) == (if t == Some(SavedLessonPlan) then 1 else 0) + CountOf(items[1..], SavedLessonPlan);
      assert |Untyped(items)| == (if t.None? then 1 else 0) + |Untyped(items[1..])|;
      assert t.None? || t.value.SavedLearning? || t.value.SavedLessonPlan?;
    }
  }

  /** The card a click opens: a learning row with its learn item opens that
      card; a lesson-plan row would need an embedded `lesson_plan`, which the
      GET never sends, so it opens nothing. */
  function OpenTarget(y: Listed): (r: Option<string>)
    ensures r.Some? <==> y.row.itemType == Some(SavedLearning) && y.learnItem.Some?
    ensures r.Some? ==> r.value == "/learn/" + y.learnItem.value.id
  {
    if y.row.itemType == Some(SavedLearning) && y.learnItem.Some? then Some("/learn/" + y.learnItem.value.id)
    else None
  }

  /** A loaded learning row opens the card its `learn_item_id` references. */
  lemma OpenTargetIsReferenced(saved: seq<SavedRow>, learn: seq<LearnItemRow>, userId: string, y: Listed)
    requires y in Loaded(saved, learn, userId) && OpenTarget(y).Some?
    ensures y.row.learnItemId.Some? && OpenTarget(y).value == "/learn/" + y.row.learnItemId.value
  {
    LoadedMembers(saved, learn, userId, y);
  }

  // ---------------------------------------------------------------------
  // Deleting, as written
  // ---------------------------------------------------------------------

  /** A value in a template string: null prints as "null". */
  function Shown(o: Option<string>): string {
    if o.Some? then o.value else "null"
  }

  /** `?item_type=${itemType}&item_id=${itemId}` */
  function DeleteQuery(itemId: Option<string>, kind: Option<SavedKind>): (q: map<string, string>)
    ensures "learn_item_id" !in q
  {
    map["item_type" := Shown(if kind.Some? then Some(SavedKindName(kind.value)) else None), "item_id" := Shown(itemId)]
  }

  /** The local removal after the request: every row with the same
      `item_id` and `item_type`, whatever the server answered. */
  function LocalDelete(items: seq<Listed>, itemId: Option<string>, kind: Option<SavedKind>): (r: seq<Listed>)
    ensures forall y :: y in r <==> y in items && !(y.row.itemId == itemId && y.row.itemType == kind)
  {
    Where(items, (y: Listed) => !(y.row.itemId == itemId && y.row.itemType == kind))
  }

  /** `handleDelete(item.item_id, item.item_type)` as written: the table
      after the handler, and the page's list. */
  function HandleDeleteAsWritten(saved: seq<SavedRow>, userId: string, items: seq<Listed>, x: Listed)
    : (r: (seq<SavedRow>, seq<Listed>))
    ensures r.0 == saved
    ensures forall y :: y in r.1 <==> y in items && !(y.row.itemId == x.row.itemId && y.row.itemType == x.row.itemType)
  {
    (DeletedRows(saved, userId, DeleteQuery(x.row.itemId, x.row.itemType)),
     LocalDelete(items, x.row.itemId, x.row.itemType))
  }

  /** As written, the handler refuses the page's request (no
      `learn_item_id`), so the clicked row stays in the table while it
      leaves the list, and with it goes every row sharing its (possibly
      null) `item_id` and `item_type`. */
  lemma PageDeleteLeavesRow(saved: seq<SavedRow>, userId: string, items: seq<Listed>, x: Listed)
    requires x in items && x.row in saved
    ensures DeleteTarget(DeleteQuery(x.row.itemId, x.row.itemType)).None?
    ensures var (server, local) := HandleDeleteAsWritten(saved, userId, items, x);
      server == saved && x.row in server && x !in local
    ensures var local := HandleDeleteAsWritten(saved, userId, items, x).1;
      forall y :: y in items && y.row.itemId == x.row.itemId && y.row.itemType == x.row.itemType ==> y !in local
  {
  }

  // ---------------------------------------------------------------------
  // Deleting, corrected
  // ---------------------------------------------------------------------

  /** The key a row is deleted by: its item type and id when it has them,
      otherwise the learn item it bookmarks. */
  function KeyFor(r: SavedRow): (k: Option<DeleteKey>)
    ensures k.Some? ==> KeyId(k.value) != ""
    ensures k.Some? ==> KeyMatches(r, r.userId, k.value)
  {
    if r.itemType.Some? && r.itemId.Some? && r.itemId.value != "" then Some(ByItem(r.itemType.value, r.itemId.value))
    else if r.learnItemId.Some? && r.learnItemId.value != "" then Some(ByLearnItem(r.learnItemId.value))
    else None
  }

  /** The corrected `handleDelete`: send the row's key, and drop locally
      exactly the rows the handler deletes. */
  function HandleDelete(saved: seq<SavedRow>, userId: string, items: seq<Listed>, x: Listed)
    : (r: (seq<SavedRow>, seq<Listed>))
    ensures KeyFor(x.row).None? ==> r == (saved, items)
    ensures KeyFor(x.row).Some? ==> forall s :: s in r.0 <==> s in saved && !KeyMatches(s, userId, KeyFor(x.row).value)
    ensures KeyFor(x.row).Some? ==> forall y :: y in r.1 <==> y in items && !KeyMatches(y.row, userId, KeyFor(x.row).value)
  {
    var key := KeyFor(x.row);
    if key.None? then (saved, items)
    else
      KeyQueryRoundTrip(key.value);
      var sent := DeleteKeyOf(KeyQuery(key.value));
      (if sent.None? then saved else DeleteKeyRows(saved, userId, sent.value),
       Where(items, (y: Listed) => !KeyMatches(y.row, userId, key.value)))
  }

  /** After the corrected delete of a row the page listed, the clicked row
      is gone from the table and from the list, and the list holds exactly
      what reloading the page would show. */
  lemma HandleDeleteAgrees(saved: seq<SavedRow>, learn: seq<LearnItemRow>, userId: string, x: Listed)
    requires x in Loaded(saved, learn, userId) && KeyFor(x.row).Some?
    ensures var (server, local) := HandleDelete(saved, userId, Loaded(saved, learn, userId), x);
      x.row !in server && x !in local &&
      forall y :: y in local <==> y in Loaded(server, learn, userId)
  {
    var items := Loaded(saved, learn, userId);
    var key := KeyFor(x.row).value;
    KeyQueryRoundTrip(key);
    var (server, local) := HandleDelete(saved, userId, items, x);
    assert server == DeleteKeyRows(saved, userId, key);
    LoadedMembers(saved, learn, userId, x);
    forall y
      ensures y in local <==> y in Loaded(server, learn, userId)
    {
      LoadedMembers(saved, learn, userId, y);
      LoadedMembers(server, learn, userId, y);
    }
  }
}
