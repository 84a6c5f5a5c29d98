/** The memories route (app/api/memories/route.ts): listing a user's
    memories with the category, parent and level filters, and creating a
    memory with its defaults and its place in the hierarchy. The database is
    a sequence of rows; the signed-in user is a parameter (the answer of the
    authentication service for the bearer token). */
module MemoriesRoute {
  import opened Wrappers
  import opened Strings
  import opened Json
  import opened Numbers
  import AIManager

  /** The columns of a stored memory the route filters and orders on. */
  datatype StoredMemory = StoredMemory(
    id: string, userId: string, category: string, parentId: Option<string>, level: int, sortOrder: int)

  // ---------------------------------------------------------------------
  // GET

  datatype ParentFilter = AnyParent | RootsOnly | ChildrenOf(id: string)
  /** `UnreadableLevel`: `parseInt` gave NaN; the database refuses to
      compare an integer column with it. */
  datatype LevelFilter = AnyLevel | AtLevel(level: int) | UnreadableLevel
  datatype Query = Query(userId: string, category: Option<string>, parent: ParentFilter, level: LevelFilter)

  /** The `parent_id` search parameter: the text `null` asks for root
      memories, any other non-empty text for the children of that id. */
  function ParentFilterOf(p: Option<string>): (r: ParentFilter)
    ensures r == RootsOnly <==> p == Some("null")
    ensures r == AnyParent <==> p.None? || p == Some("")
    ensures r.ChildrenOf? ==> p == Some(r.id) && r.id != "null"
  {
    if p == Some("null") then RootsOnly
    else if p.Some? && p.value != "" then ChildrenOf(p.value)
    else AnyParent
  }

  /** The `hierarchy_level` search parameter, read with `parseInt` and no
      radix (so "0x2" is level 2). */
  function LevelFilterOf(h: Option<string>): (r: LevelFilter)
    ensures r == AnyLevel <==> h.None? || h == Some("")
    ensures forall n: nat :: h == Some(Show(n)) ==> r == AtLevel(n)
    ensures h.Some? && h.value != "" ==>
      (r == UnreadableLevel <==> ParseIntAuto(h.value).None?) &&
      (ParseIntAuto(h.value).Some? ==> r == AtLevel(ParseIntAuto(h.value).value))
  {
    if h.None? || h.value == "" then AnyLevel
    else
      ShowParseAutoAll();
      match ParseIntAuto(h.value)
      case Some(n) => AtLevel(n)
      case None => UnreadableLevel
  }

  /** The query the search parameters build; an empty category is no
      filter. */
  function QueryOf(userId: string, category: Option<string>, parent: Option<string>, level: Option<string>): Query
  {
    Query(userId, if category == Some("") then None else category, ParentFilterOf(parent), LevelFilterOf(level))
  }

  predicate Matches(m: StoredMemory, q: Query)
  {
    m.userId == q.userId &&
    (q.category.Some? ==> m.category == q.category.value) &&
    (match q.parent
     case AnyParent => true
     case RootsOnly => m.parentId.None?
     case ChildrenOf(id) => m.parentId == Some(id)) &&
    (match q.level
     case AtLevel(n) => m.level == n
     case _ => true)
  }

  /** The rows a query selects, in table order (the database then orders
      them). */
  function Select(rows: seq<StoredMemory>, q: Query): (r: seq<StoredMemory>)
    ensures forall m :: m in r <==> m in rows && Matches(m, q)
  {
    if rows == [] then []
    else (if Matches(rows[0], q) then [rows[0]] else []) + Select(rows[1..], q)
  }

  datatype ListReply = ListUnauthorized | ListFailed | Listed(memories: seq<StoredMemory>)

  function StatusOfList(r: ListReply): int
  {
    match r
    case ListUnauthorized => 401
    case ListFailed => 500
    case Listed(_) => 200
  }

  /** `GET`: 401 without an authorization header or a user, 500 "Failed to
      fetch memories" when the database answers the query with an error
      (`fails`; always so when the level cannot be read), otherwise the
      user's memories that pass the filters. */
  function List(header: Option<string>, getUser: string -> Option<string>,
                category: Option<string>, parent: Option<string>, level: Option<string>,
                rows: seq<StoredMemory>, fails: Query -> bool): (r: ListReply)
    ensures r == ListUnauthorized <==> (header.None? || header == Some("") ||
      getUser(AIManager.ReplaceFirst(header.value, "Bearer ", "")).None?)
    ensures r != ListUnauthorized ==>
      var q := QueryOf(getUser(AIManager.ReplaceFirst(header.value, "Bearer ", "")).value, category, parent, level);
      (r == ListFailed <==> q.level == UnreadableLevel || fails(q))
    ensures r.Listed? ==>
      r.memories == Select(rows, QueryOf(getUser(AIManager.ReplaceFirst(header.value, "Bearer ", "")).value,
                                         category, parent, level))
    ensures r.Listed? ==> forall m :: m in r.memories ==>
      m in rows && m.userId == getUser(AIManager.ReplaceFirst(header.value, "Bearer ", "")).value
    ensures r.Listed? && parent == Some("null") ==> forall m :: m in r.memories ==> m.parentId.None?
    ensures r.Listed? && category.Some? && category != Some("") ==>
      forall m :: m in r.memories ==> m.category == category.value
  {
    if header.None? || header.value == "" then ListUnauthorized
    else
      var user := getUser(AIManager.ReplaceFirst(header.value, "Bearer ", ""));
      if user.None? then ListUnauthorized
      else
        var q := QueryOf(user.value, category, parent, level);
        if q.level == UnreadableLevel || fails(q) then ListFailed
        else Listed(Select(rows, q))
  }

  /** With no filter the user gets every one of their memories. */
  lemma {:induction false} UnfilteredListsAll(userId: string, rows: seq<StoredMemory>, m: StoredMemory)
    requires m in rows && m.userId == userId
    ensures m in Select(rows, QueryOf(userId, None, None, None))
  {
  }

  // ---------------------------------------------------------------------
  // POST

  /** The destructured body; `None` is a missing property. */
  datatype Body = Body(
    concept: Option<Json>, data: Option<Json>, salience: Option<Json>, connections: Option<Json>,
    memoryType: Option<Json>, priority: Option<Json>, parentId: Option<string>,
    category: Option<Json>, level: Option<Json>, sortOrder: Option<Json>)

  /** The row the route inserts. */
  datatype Insert = Insert(
    concept: Json, data: Json, salience: Json, connections: Json, memoryType: Json, priority: Json,
    parentId: Option<string>, category: Json, level: Json, sortOrder: Json, userId: string)

  /** The validation of the body: concept and data must be truthy and
      salience present; a salience JavaScript reads as a number outside
      [0, 1] is refused (`number` is the `Number` coercion, `None` for NaN,
      so a salience that is not a number passes). */
  function Invalid(b: Body, number: Json -> Option<real>): (r: Option<string>)
    ensures r.Some? <==>
      !TruthyField(b.concept) || !TruthyField(b.data) || b.salience.None? ||
      (number(b.salience.value).Some? && (number(b.salience.value).value < 0.0 || number(b.salience.value).value > 1.0))
  {
    if !TruthyField(b.concept) || !TruthyField(b.data) || b.salience.None? then
      Some("Missing required fields: concept, data, salience")
    else
      var v := number(b.salience.value);
      if v.Some? && (v.value < 0.0 || v.value > 1.0) then Some("Salience must be between 0 and 1")
      else None
  }

  /** The rows with id `id`. */
  function WithId(rows: seq<StoredMemory>, id: string): (r: seq<StoredMemory>)
    ensures forall m :: m in r <==> m in rows && m.id == id
  {
    if rows == [] then []
    else (if rows[0].id == id then [rows[0]] else []) + WithId(rows[1..], id)
  }

  /** `.eq('id', id).single()`: the row when exactly one matches. */
  function Single(rows: seq<StoredMemory>, id: string): (r: Option<StoredMemory>)
    ensures r.Some? ==> r.value in rows && r.value.id == id
  {
    var found := WithId(rows, id);
    if |found| == 1 then Some(found[0]) else None
  }

  /** The largest `sort_order` among the rows under `parent` (the first row
      of the descending query limited to one). */
  function MaxSortOrder(rows: seq<StoredMemory>, parent: string): (r: Option<int>)
    ensures r.None? <==> forall m :: m in rows ==> m.parentId != Some(parent)
    ensures r.Some? ==> forall m :: m in rows && m.parentId == Some(parent) ==> m.sortOrder <= r.value
    ensures r.Some? ==> exists m :: m in rows && m.parentId == Some(parent) && m.sortOrder == r.value
  {
    if rows == [] then None
    else
      var rest := MaxSortOrder(rows[1..], parent);
      assert forall m :: m in rows[1..] ==> m in rows;
      if rows[0].parentId != Some(parent) then rest
      else if rest.Some? && rest.value > rows[0].sortOrder then rest
      else Some(rows[0].sortOrder)
  }

  /** The level and sort order of a new memory: under a parent that
      exists, one level below it; under a parent with children, after the
      last of them; otherwise the body's values or 0. */
  function Placement(b: Body, rows: seq<StoredMemory>): (r: (Json, Json))
    ensures b.parentId.None? || b.parentId == Some("") ==>
      r == (AIManager.Or(b.level, JNum(0.0)), AIManager.Or(b.sortOrder, JNum(0.0)))
    ensures b.parentId.Some? && b.parentId != Some("") && Single(rows, b.parentId.value).Some? ==>
      r.0 == JNum((Single(rows, b.parentId.value).value.level + 1) as real)
    ensures b.parentId.Some? && b.parentId != Some("") && MaxSortOrder(rows, b.parentId.value).Some? ==>
      r.1 == JNum((MaxSortOrder(rows, b.parentId.value).value + 1) as real)
  {
    var level := AIManager.Or(b.level, JNum(0.0));
    var sortOrder := AIManager.Or(b.sortOrder, JNum(0.0));
    if b.parentId.Some? && b.parentId.value != "" then
      var parent := Single(rows, b.parentId.value);
      var last := MaxSortOrder(rows, b.parentId.value);
      (if parent.Some? then JNum((parent.value.level + 1) as real) else level,
       if last.Some? then JNum((last.value + 1) as real) else sortOrder)
    else (level, sortOrder)
  }

  /** A new child is placed after every existing child of its parent, so
      the descending listing shows it first. */
  lemma {:induction false} NewChildSortsFirst(b: Body, rows: seq<StoredMemory>, m: StoredMemory)
    requires b.parentId.Some? && b.parentId != Some("")
    requires m in rows && m.parentId == b.parentId
    ensures Placement(b, rows).1.JNum? && Placement(b, rows).1.n > m.sortOrder as real
  {
    var last := MaxSortOrder(rows, b.parentId.value);
    assert last.Some?;
  }

  datatype CreateReply = Refused(message: string) | CreateUnauthorized | CreateFailed | CreatedRow(row: Insert)

  function StatusOfCreate(r: CreateReply): int
  {
    match r
    case Refused(_) => 400
    case CreateUnauthorized => 401
    case CreateFailed => 500
    case CreatedRow(_) => 201
  }

  /** `POST`: the body is validated before the user is looked up; the row
      gets the defaults of the route and its place under the parent.
      `inserted` is whether the database accepts the insert. */
  function Create(b: Body, number: Json -> Option<real>, header: Option<string>,
                  getUser: string -> Option<string>, rows: seq<StoredMemory>, inserted: bool): (r: CreateReply)
    ensures r.Refused? <==> Invalid(b, number).Some?
    ensures r == CreateUnauthorized <==> (Invalid(b, number).None? &&
      (header.None? || header == Some("") || getUser(AIManager.ReplaceFirst(header.value, "Bearer ", "")).None?))
    ensures r.CreatedRow? ==> (inserted &&
      r.row.concept == b.concept.value && r.row.data == b.data.value && r.row.salience == b.salience.value &&
      r.row.userId == getUser(AIManager.ReplaceFirst(header.value, "Bearer ", "")).value &&
      (r.row.level, r.row.sortOrder) == Placement(b, rows))
    ensures r.CreatedRow? ==>
      r.row.connections == AIManager.Or(b.connections, JArr([])) &&
      r.row.memoryType == AIManager.Or(b.memoryType, JStr("core")) &&
      r.row.priority == AIManager.Or(b.priority, JNum(1.0)) &&
      r.row.category == AIManager.Or(b.category, JStr("general")) &&
      r.row.parentId == (if b.parentId == Some("") then None else b.parentId)
  {
    var invalid := Invalid(b, number);
    if invalid.Some? then Refused(invalid.value)
    else if header.None? || header.value == "" then CreateUnauthorized
    else
      var user := getUser(AIManager.ReplaceFirst(header.value, "Bearer ", ""));
      if user.None? then CreateUnauthorized
      else if !inserted then CreateFailed
      else
        var place := Placement(b, rows);
        CreatedRow(Insert(
          b.concept.value, b.data.value, b.salience.value,
          AIManager.Or(b.connections, JArr([])), AIManager.Or(b.memoryType, JStr("core")),
          AIManager.Or(b.priority, JNum(1.0)),
          if b.parentId == Some("") then None else b.parentId,
          AIManager.Or(b.category, JStr("general")), place.0, place.1, user.value))
  }

  /** A minimal body (concept, data and salience only) gets every default:
      no connections, type core, priority 1, category general, no parent,
      level 0 and sort order 0. */
  lemma {:induction false} MinimalBodyDefaults(concept: string, data: string, salience: real,
                                               number: Json -> Option<real>, token: string,
                                               getUser: string -> Option<string>, rows: seq<StoredMemory>)
    requires concept != "" && data != "" && number(JNum(salience)) == Some(salience) && 0.0 <= salience <= 1.0
    requires token != "" && getUser(token).Some? && !Contains(token, "Bearer ")
    ensures var b := Body(Some(JStr(concept)), Some(JStr(data)), Some(JNum(salience)),
                          None, None, None, None, None, None, None);
      Create(b, number, Some(token), getUser, rows, true) == CreatedRow(Insert(JStr(concept), JStr(data), JNum(salience), JArr([]), JStr("core"), JNum(1.0),
                             None, JStr("general"), JNum(0.0), JNum(0.0), getUser(token).value))
  {
  }
}
