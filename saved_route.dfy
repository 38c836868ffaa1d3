/**
  /api/saved (frontend/app/api/saved/route.ts): GET the caller's saved
  rows newest first with their learn items embedded, POST a bookmark of a
  learn item, DELETE the caller's bookmarks of a learn item.

  The request body is `Err` when `req.json()` throws; the query string is a
  map from parameter name to value; `freshId` is what `uuidv4()` returns.
  */
module SavedRoute {
  import opened Wrappers
  import opened Json
  import opened Types
  import opened Validations
  import opened Table
  import opened Store
  import opened Http

  // ---------------------------------------------------------------------
  // GET
  // ---------------------------------------------------------------------

  function SavedAt(r: SavedRow): int {
    r.createdAt
  }

  predicate OwnedSave(r: SavedRow, userId: string) {
    r.userId == userId
  }

  /** `.eq('user_id', user.id).order('created_at', { ascending: false })`:
      exactly the caller's rows, each once, newest first. */
  function SavedFor(saved: seq<SavedRow>, userId: string): (r: seq<SavedRow>)
    ensures multiset(r) == multiset(Where(saved, (x: SavedRow) => OwnedSave(x, userId)))
    ensures NewestFirst(r, SavedAt)
    ensures forall x :: x in r <==> x in saved && x.userId == userId
  {
    var mine := Where(saved, (x: SavedRow) => OwnedSave(x, userId));
    var r := SortNewest(mine, SavedAt);
    assert forall x :: x in r <==> x in multiset(mine);
    r
  }

  /** `learn_item:learn_items(*)`: the learn item the row references, if any. */
  function Embed(r: SavedRow, learn: seq<LearnItemRow>): (e: Option<LearnItemRow>)
    ensures e.Some? ==> e.value in learn && r.learnItemId == Some(e.value.id)
  {
    if r.learnItemId.None? then None
    else Single(learn, (x: LearnItemRow) => x.id == r.learnItemId.value)
  }

  /** With ids unique, the row a saved item references is the one embedded. */
  lemma EmbedFindsReferenced(r: SavedRow, learn: seq<LearnItemRow>, k: nat)
    requires LearnItemsUnique(learn) && k < |learn| && r.learnItemId == Some(learn[k].id)
    ensures Embed(r, learn) == Some(learn[k])
  {
    WhereOnly(learn, (x: LearnItemRow) => x.id == r.learnItemId.value, k);
  }

  function SavedListJson(saved: seq<SavedRow>, learn: seq<LearnItemRow>, userId: string): Value {
    JArr(MapSeq(SavedFor(saved, userId), (r: SavedRow) => SavedWithItemJson(r, Embed(r, learn))))
  }

  method Get(db: Database, user: Option<string>) returns (res: Reply)
    requires db.Valid()
    ensures user.None? ==> res == Unauthorized
    ensures user.Some? ==> res == OkReply(JObj(map["items" := SavedListJson(db.savedItems, db.learnItems, user.value)]))
  {
    if user.None? {
      return Unauthorized;
    }
    res := OkReply(JObj(map["items" := SavedListJson(db.savedItems, db.learnItems, user.value)]));
  }

  // ---------------------------------------------------------------------
  // POST
  // ---------------------------------------------------------------------

  /** `const { learn_item_id } = body` on a body that is not null: None
      when the property is undefined. */
  function LearnItemIdOf(v: Value): (r: Option<Value>)
    ensures r.Some? <==> v.JObj? && "learn_item_id" in v.fields
  {
    if v.JObj? && "learn_item_id" in v.fields then Some(v.fields["learn_item_id"]) else None
  }

  /** The duplicate check: a string id matching exactly one of the caller's
      rows. Any other value makes the lookup fail, which the handler reads
      as "not saved". */
  predicate AlreadySaved(saved: seq<SavedRow>, userId: string, v: Value) {
    var id := LearnItemIdOf(v);
    id.Some? && id.value.JStr? &&
    Single(saved, (x: SavedRow) => SavedMatches(x, userId, id.value.s)).Some?
  }

  /** The `learn_item_id` column the insert writes: null for an undefined or
      null property, the string for a string; any other value is refused by
      the column's type (None). */
  function LearnItemColumn(v: Value): (r: Option<Option<string>>)
    ensures r == Some(None) <==> LearnItemIdOf(v).None? || LearnItemIdOf(v) == Some(JNull)
    ensures r.Some? && r.value.Some? <==> LearnItemIdOf(v).Some? && LearnItemIdOf(v).value.JStr?
    ensures r.Some? && r.value.Some? ==> LearnItemIdOf(v) == Some(JStr(r.value.value))
  {
    var id := LearnItemIdOf(v);
    if id.None? || id.value.JNull? then Some(None)
    else if id.value.JStr? then Some(Some(id.value.s))
    else None
  }

  /** The row a POST inserts: only id, user and learn item are written;
      `item_type` takes the column default `typeDefault` (the table
      definition is not part of this model) and `item_id` stays null. */
  function NewSaved(id: string, userId: string, learnItemId: Option<string>, typeDefault: Option<SavedKind>, now: int): SavedRow {
    SavedRow(id, userId, learnItemId, typeDefault, None, now)
  }

  const AlreadySavedReply: Reply := ErrorReply(400, "Already saved")

  method Post(db: Database, user: Option<string>, body: Result<Value, string>,
              freshId: string, typeDefault: Option<SavedKind>, now: int, writeFails: bool)
    returns (res: Reply)
    requires db.Valid()
    modifies db
    ensures db.Valid()
    ensures db.learnItems == old(db.learnItems) && db.lessonPlans == old(db.lessonPlans)
    ensures db.events == old(db.events) && db.prefs == old(db.prefs)
    ensures user.None? ==> res == Unauthorized && db.savedItems == old(db.savedItems)
    ensures user.Some? && (body.Err? || body.value.JNull?) ==> res == Crash && db.savedItems == old(db.savedItems)
    ensures user.Some? && body.Ok? && !body.value.JNull? && AlreadySaved(old(db.savedItems), user.value, body.value) ==>
      res == AlreadySavedReply && db.savedItems == old(db.savedItems)
    ensures user.Some? && body.Ok? && !body.value.JNull? && !AlreadySaved(old(db.savedItems), user.value, body.value) ==>
      var col := LearnItemColumn(body.value);
      var row := NewSaved(freshId, user.value, col.GetOr(None), typeDefault, now);
      var inserted := col.Some? && !writeFails && InsertSavedRows(old(db.savedItems), old(db.learnItems), row).Some?;
      (inserted ==> res == OkReply(JObj(map["item" := SavedJson(row)])) && db.savedItems == old(db.savedItems) + [row]) &&
      (!inserted ==> res == DbErrorReply(500) && db.savedItems == old(db.savedItems))
  {
    if user.None? {
      return Unauthorized;
    }
    if body.Err? || body.value.JNull? {
      return Crash;
    }
    if AlreadySaved(db.savedItems, user.value, body.value) {
      return AlreadySavedReply;
    }
    var col := LearnItemColumn(body.value);
    if col.None? {
      return DbErrorReply(500);
    }
    var row := NewSaved(freshId, user.value, col.value, typeDefault, now);
    var ok := db.InsertSaved(row, writeFails);
    if !ok {
      return DbErrorReply(500);
    }
    res := OkReply(JObj(map["item" := SavedJson(row)]));
  }

  /** No user has bookmarked the same learn item twice. */
  predicate NoDuplicateSaves(saved: seq<SavedRow>) {
    forall x, y ::
      (x in saved && y in saved && x.userId == y.userId && x.learnItemId.Some? && x.learnItemId == y.learnItemId) ==> x == y
  }

  /** Under the no-duplicate invariant, a bookmark the caller already has is
      the single match the duplicate check looks for. */
  lemma MatchIsSingle(saved: seq<SavedRow>, userId: string, learnItemId: string, x: SavedRow)
    requires SavedIdsUnique(saved) && NoDuplicateSaves(saved)
    requires x in saved && SavedMatches(x, userId, learnItemId)
    ensures Single(saved, (y: SavedRow) => SavedMatches(y, userId, learnItemId)).Some?
  {
    var p := (y: SavedRow) => SavedMatches(y, userId, learnItemId);
    var n :| 0 <= n < |saved| && saved[n] == x;
    forall k | 0 <= k < |saved| && k != n
      ensures !p(saved[k])
    {
      assert saved[k].id != x.id;
      assert saved[k] in saved;
    }
    WhereOnly(saved, p, n);
  }

  /** A POST that inserts keeps every learn item bookmarked at most once per
      user: the duplicate check refuses the second bookmark. */
  lemma PostKeepsNoDuplicates(saved: seq<SavedRow>, learn: seq<LearnItemRow>, userId: string, v: Value,
                              freshId: string, typeDefault: Option<SavedKind>, now: int)
    requires SavedIdsUnique(saved) && NoDuplicateSaves(saved)
    requires !v.JNull? && !AlreadySaved(saved, userId, v) && LearnItemColumn(v).Some?
    requires InsertSavedRows(saved, learn, NewSaved(freshId, userId, LearnItemColumn(v).value, typeDefault, now)).Some?
    ensures NoDuplicateSaves(saved + [NewSaved(freshId, userId, LearnItemColumn(v).value, typeDefault, now)])
  {
    var row := NewSaved(freshId, userId, LearnItemColumn(v).value, typeDefault, now);
    forall x | x in saved && x.userId == userId && row.learnItemId.Some? && x.learnItemId == row.learnItemId
      ensures false
    {
      MatchIsSingle(saved, userId, row.learnItemId.value, x);
    }
  }

  // ---------------------------------------------------------------------
  // DELETE
  // ---------------------------------------------------------------------

  /** `searchParams.get('learn_item_id')`, when present and not empty. */
  function DeleteTarget(query: map<string, string>): (r: Option<string>)
    ensures r.Some? <==> "learn_item_id" in query && query["learn_item_id"] != ""
    ensures r.Some? ==> r.value == query["learn_item_id"]
  {
    if "learn_item_id" in query && query["learn_item_id"] != "" then Some(query["learn_item_id"]) else None
  }

  /** The table after a DELETE the database carries out. */
  function DeletedRows(saved: seq<SavedRow>, userId: string, query: map<string, string>): seq<SavedRow> {
    var target := DeleteTarget(query);
    if target.None? then saved else DeleteSavedRows(saved, userId, target.value)
  }

  const MissingLearnItemId: Reply := ErrorReply(400, "Missing learn_item_id")

  method Delete(db: Database, user: Option<string>, query: map<string, string>, writeFails: bool)
    returns (res: Reply)
    requires db.Valid()
    modifies db
    ensures db.Valid()
    ensures db.learnItems == old(db.learnItems) && db.lessonPlans == old(db.lessonPlans)
    ensures db.events == old(db.events) && db.prefs == old(db.prefs)
    ensures user.None? ==> res == Unauthorized && db.savedItems == old(db.savedItems)
    ensures user.Some? && DeleteTarget(query).None? ==> res == MissingLearnItemId && db.savedItems == old(db.savedItems)
    ensures user.Some? && DeleteTarget(query).Some? ==>
      (!writeFails ==> res == OkReply(JObj(map["success" := JBool(true)])) &&
                       db.savedItems == DeletedRows(old(db.savedItems), user.value, query)) &&
      (writeFails ==> res == DbErrorReply(500) && db.savedItems == old(db.savedItems))
  {
    if user.None? {
      return Unauthorized;
    }
    var target := DeleteTarget(query);
    if target.None? {
      return MissingLearnItemId;
    }
    var ok := db.DeleteSaved(user.value, target.value, writeFails);
    if !ok {
      return DbErrorReply(500);
    }
    res := OkReply(JObj(map["success" := JBool(true)]));
  }

  /** A DELETE removes exactly the caller's bookmarks of the learn item;
      other users' rows and the caller's other rows stay. */
  lemma DeleteRemovesExactly(saved: seq<SavedRow>, userId: string, query: map<string, string>, x: SavedRow)
    requires DeleteTarget(query).Some? && x in saved
    ensures x in DeletedRows(saved, userId, query) <==> !(x.userId == userId && x.learnItemId == DeleteTarget(query))
  {
  }

  /** Deleting keeps the no-duplicate invariant. */
  lemma DeleteKeepsNoDuplicates(saved: seq<SavedRow>, userId: string, query: map<string, string>)
    requires NoDuplicateSaves(saved)
    ensures NoDuplicateSaves(DeletedRows(saved, userId, query))
  {
  }

  // ---------------------------------------------------------------------
  // Deleting by the key the pages send
  // ---------------------------------------------------------------------

  /** What a DELETE names: a learn item (the handler as written) or a saved
      item by its type and id (what the saved page sends). */
  datatype DeleteKey = ByLearnItem(learnItemId: string) | ByItem(kind: SavedKind, itemId: string)

  predicate KeyMatches(x: SavedRow, userId: string, key: DeleteKey) {
    x.userId == userId &&
    match key
    case ByLearnItem(id) => x.learnItemId == Some(id)
    case ByItem(kind, id) => x.itemType == Some(kind) && x.itemId == Some(id)
  }

  /** The query string naming a key. */
  function KeyQuery(key: DeleteKey): map<string, string> {
    match key
    case ByLearnItem(id) => map["learn_item_id" := id]
    case ByItem(kind, id) => map["item_type" := SavedKindName(kind), "item_id" := id]
  }

  /** The corrected handler's reading of the query: `learn_item_id` as
      before, otherwise `item_type` with `item_id`. */
  function DeleteKeyOf(query: map<string, string>): (r: Option<DeleteKey>)
    ensures DeleteTarget(query).Some? ==> r == Some(ByLearnItem(DeleteTarget(query).value))
    ensures r.Some? && r.value.ByItem? ==> "item_type" in query && "item_id" in query
    ensures r.Some? && r.value.ByItem? ==> query["item_type"] == SavedKindName(r.value.kind)
    ensures r.Some? && r.value.ByItem? ==> query["item_id"] == r.value.itemId != ""
  {
    if DeleteTarget(query).Some? then Some(ByLearnItem(DeleteTarget(query).value))
    else if "item_type" in query && "item_id" in query && query["item_id"] != "" then
      var kind := ParseSavedKind(query["item_type"]);
      if kind.Some? then Some(ByItem(kind.value, query["item_id"])) else None
    else None
  }

  function KeyId(key: DeleteKey): string {
    match key
    case ByLearnItem(id) => id
    case ByItem(_, id) => id
  }

  /** Every key with an id survives its query string. */
  lemma KeyQueryRoundTrip(key: DeleteKey)
    requires KeyId(key) != ""
    ensures DeleteKeyOf(KeyQuery(key)) == Some(key)
  {
    if key.ByItem? {
      EnumRoundTrips(TopicChoice, Article, Concise, AutoTheme, key.kind);
    }
  }

  /** The table after the corrected handler deletes by `key`. */
  function DeleteKeyRows(saved: seq<SavedRow>, userId: string, key: DeleteKey): (r: seq<SavedRow>)
    ensures forall x :: x in r <==> x in saved && !KeyMatches(x, userId, key)
  {
    Where(saved, (x: SavedRow) => !KeyMatches(x, userId, key))
  }

  /** On a learn-item key, the corrected delete is the handler as written. */
  lemma DeleteKeyExtendsDelete(saved: seq<SavedRow>, userId: string, query: map<string, string>)
    requires DeleteTarget(query).Some?
    ensures DeleteKeyRows(saved, userId, DeleteKeyOf(query).value) == DeletedRows(saved, userId, query)
  {
    var id := DeleteTarget(query).value;
    var p := (x: SavedRow) => !KeyMatches(x, userId, ByLearnItem(id));
    var q := (x: SavedRow) => !SavedMatches(x, userId, id);
    WhereExtensional(saved, p, q);
  }
}
