/** The PostgreSQL store (`PGX` in storage_postgres.go) over an in-memory database.
    The thing table is a sequence of rows; the category table, whose SQL is not part of this
    model, is a map from id to category. Every read method is proved equal to a reference
    definition written directly on the rows, so the `+=`-composed queries, their placeholder
    numbering and their argument lists are checked against what the store promises. */
module Storage {
  import opened Wrappers
  import opened GoInt
  import opened Domain
  import opened Errors
  import opened Seqs
  import opened Sql

  /** The statements the store sends; a statement in `Env.failing` fails in the database. */
  datatype Statement =
    | SelectList | SelectSearch | SelectGeoJson | SelectByExternalId | SelectGet | SelectExist
    | SelectIsActive | SelectOwnedBy | SelectCountThings | InsertThing | UpdateThing | DeleteThing
    | SelectExistType | InsertType | UpdateType | DeleteType | SelectTypes | SelectGetType | SelectCountTypes

  /** The two category list queries and the two category count queries. */
  datatype TypeQuery = TypeListWithKeywords | TypeListWithoutKeywords | TypeCountWithKeywords | TypeCountWithoutKeywords

  /** What the database computes that the model leaves abstract. */
  datatype Env = Env(
    failing: set<Statement>,
    fts: Matcher,
    // row_to_json of the FeatureCollection built from the selected rows; None is SQL NULL
    geoJson: seq<Row> -> Option<string>,
    // the id the category sequence hands out next
    nextTypeId: map<Int32, TypeThing> -> Int32,
    // answers of the category list and count queries
    typeList: (TypeQuery, seq<Value>, map<Int32, TypeThing>) -> Result<seq<TypeThingList>, Error>,
    typeCount: (TypeQuery, seq<Value>, map<Int32, TypeThing>) -> Result<int, Error>)

  datatype DbState = DbState(things: seq<Row>, types: map<Int32, TypeThing>)

  function DbUnavailable(): Error { Db(DbError.Unavailable) }

  // =========================================================================================
  // Reference definitions of the reads.

  /** Rows the list and GeoJSON queries show: not soft-deleted, with a position, and matching
      the filters. A missing `inactivated` filter means "active only". */
  predicate ListVisible(r: Row, p: ListParams) {
    && !r.deleted && r.position.Some?
    && (p.typeId.None? || r.typeId == p.typeId.value)
    && (p.createdBy.None? || r.createdBy == p.createdBy.value)
    && r.inactivated == p.inactivated.GetOr(false)
    && (p.validated.None? || r.validated == Some(p.validated.value))
  }

  /** Rows Search and Count show. Here a missing `inactivated` filter means "any". */
  predicate SearchVisible(r: Row, p: SearchParams, fts: Matcher) {
    && !r.deleted && r.position.Some?
    && (p.keywords.None? || fts(r.textSearch, p.keywords.value))
    && (p.typeId.None? || r.typeId == p.typeId.value)
    && (p.createdBy.None? || r.createdBy == p.createdBy.value)
    && (p.inactivated.None? || r.inactivated == p.inactivated.value)
    && (p.validated.None? || r.validated == Some(p.validated.value))
  }

  /** Rows ListByExternalId shows; a row without an external id never matches. */
  predicate ExternalIdVisible(r: Row, externalId: int) {
    !r.deleted && r.position.Some? && r.externalId.Some? && r.externalId.value as int == externalId
  }

  /** The newest-first page of `kept`, with PostgreSQL's errors for a negative OFFSET or LIMIT. */
  function Paged(kept: seq<Row>, offset: int, limit: int): Result<seq<Row>, Error> {
    if offset < 0 then Failure(Db(NegativeOffset))
    else if limit < 0 then Failure(Db(NegativeLimit))
    else Success(Page(SortByCreatedDesc(kept), offset, Some(limit)))
  }

  function PageOf(env: Env, stmt: Statement, kept: seq<Row>, offset: int, limit: int): Result<seq<Row>, Error> {
    if stmt in env.failing then Failure(DbUnavailable()) else Paged(kept, offset, limit)
  }

  /** A statement ending in `ORDER BY _created_at DESC LIMIT $1 OFFSET $2`, with the right
      number of arguments, returns the page of the rows its WHERE conditions keep. */
  lemma SelectPaged(rows: seq<Row>, q: Query, args: seq<Value>, fts: Matcher, keep: Row -> bool, offset: int, limit: int)
    requires |args| == MaxParam(q)
    requires Paging(q) == Some((1, 2))
    requires |args| >= 2 && args[0] == IntV(limit) && args[1] == IntV(offset)
    requires forall i :: 0 <= i < |rows| ==> AllHold(q, rows[i], args, fts) == keep(rows[i])
    ensures Select(rows, q, args, fts) == Paged(Filter(rows, keep), offset, limit)
  {
    FilterExtensional(rows, r => AllHold(q, r, args, fts), keep);
  }

  /** The same, for a WHERE block followed by the list ORDER BY, LIMIT and OFFSET. */
  lemma SelectPagedWhere(rows: seq<Row>, w: Query, args: seq<Value>, fts: Matcher, keep: Row -> bool, offset: int, limit: int)
    requires |args| == Max(MaxParam(w), 2)
    requires |args| >= 2 && args[0] == IntV(limit) && args[1] == IntV(offset)
    requires forall i :: 0 <= i < |rows| ==> AllHold(w, rows[i], args, fts) == keep(rows[i])
    ensures Select(rows, w + ListOrderBy, args, fts) == Paged(Filter(rows, keep), offset, limit)
  {
    MaxParamAppend(w, ListOrderBy);
    PagingAppend(w, ListOrderBy);
    forall i | 0 <= i < |rows| ensures AllHold(w + ListOrderBy, rows[i], args, fts) == keep(rows[i]) {
      AllHoldAppend(w, ListOrderBy, rows[i], args, fts);
      OrderByMeaning(rows[i], args, fts);
    }
    SelectPaged(rows, w + ListOrderBy, args, fts, keep, offset, limit);
  }

  /** The same for a `SELECT COUNT(*)`. */
  lemma SelectCounted(rows: seq<Row>, q: Query, args: seq<Value>, fts: Matcher, keep: Row -> bool)
    requires |args| == MaxParam(q)
    requires forall i :: 0 <= i < |rows| ==> AllHold(q, rows[i], args, fts) == keep(rows[i])
    ensures SelectCount(rows, q, args, fts) == Success(|Filter(rows, keep)|)
  {
    FilterExtensional(rows, r => AllHold(q, r, args, fts), keep);
  }

  predicate AllPositioned(rows: seq<Row>) {
    forall i :: 0 <= i < |rows| ==> rows[i].position.Some?
  }

  function ListItems(rows: seq<Row>): (r: seq<ThingList>)
    requires AllPositioned(rows)
    ensures |r| == |rows|
  {
    seq(|rows|, i requires 0 <= i < |rows| => ListItem(rows[i]))
  }

  /** A page of positioned rows is positioned. */
  lemma PageKeepsPositions(env: Env, stmt: Statement, kept: seq<Row>, offset: int, limit: int)
    requires AllPositioned(kept)
    ensures PageOf(env, stmt, kept, offset, limit).Success? ==> AllPositioned(PageOf(env, stmt, kept, offset, limit).value)
  {
    if PageOf(env, stmt, kept, offset, limit).Success? {
      var sorted := SortByCreatedDesc(kept);
      PageOfSorted(sorted, offset, Some(limit));
      forall i | 0 <= i < |sorted| ensures sorted[i].position.Some? {
        assert sorted[i] in multiset(kept);
      }
    }
  }

  /** What pgxscan.Select into a slice yields: nil (and then `pgx.ErrNoRows`) for no rows. */
  function ListOutcome(res: Result<seq<Row>, Error>): Result<seq<ThingList>, Error>
    requires res.Success? ==> AllPositioned(res.value)
  {
    match res
    case Failure(e) => Failure(e)
    case Success(rows) => if rows == [] then Failure(NoRows) else Success(ListItems(rows))
  }

  lemma ListVisiblePositioned(rows: seq<Row>, p: ListParams)
    ensures AllPositioned(Filter(rows, r => ListVisible(r, p)))
  {
  }

  lemma SearchVisiblePositioned(rows: seq<Row>, p: SearchParams, fts: Matcher)
    ensures AllPositioned(Filter(rows, r => SearchVisible(r, p, fts)))
  {
  }

  lemma ExternalIdVisiblePositioned(rows: seq<Row>, externalId: int)
    ensures AllPositioned(Filter(rows, r => ExternalIdVisible(r, externalId)))
  {
  }

  function ListRows(env: Env, rows: seq<Row>, offset: int, limit: int, p: ListParams): Result<seq<Row>, Error> {
    PageOf(env, SelectList, Filter(rows, r => ListVisible(r, p)), offset, limit)
  }

  /** Reference for `PGX.List`. */
  function ListSpec(env: Env, rows: seq<Row>, offset: int, limit: int, p: ListParams): Result<seq<ThingList>, Error> {
    ListVisiblePositioned(rows, p);
    PageKeepsPositions(env, SelectList, Filter(rows, r => ListVisible(r, p)), offset, limit);
    ListOutcome(ListRows(env, rows, offset, limit, p))
  }

  function SearchRows(env: Env, rows: seq<Row>, offset: int, limit: int, p: SearchParams): Result<seq<Row>, Error> {
    PageOf(env, SelectSearch, Filter(rows, r => SearchVisible(r, p, env.fts)), offset, limit)
  }

  /** Reference for `PGX.Search`. */
  function SearchSpec(env: Env, rows: seq<Row>, offset: int, limit: int, p: SearchParams): Result<seq<ThingList>, Error> {
    SearchVisiblePositioned(rows, p, env.fts);
    PageKeepsPositions(env, SelectSearch, Filter(rows, r => SearchVisible(r, p, env.fts)), offset, limit);
    ListOutcome(SearchRows(env, rows, offset, limit, p))
  }

  function ByExternalIdRows(env: Env, rows: seq<Row>, offset: int, limit: int, externalId: int): Result<seq<Row>, Error> {
    PageOf(env, SelectByExternalId, Filter(rows, r => ExternalIdVisible(r, externalId)), offset, limit)
  }

  /** Reference for `PGX.ListByExternalId`. */
  function ListByExternalIdSpec(env: Env, rows: seq<Row>, offset: int, limit: int, externalId: int): Result<seq<ThingList>, Error> {
    ExternalIdVisiblePositioned(rows, externalId);
    PageKeepsPositions(env, SelectByExternalId, Filter(rows, r => ExternalIdVisible(r, externalId)), offset, limit);
    ListOutcome(ByExternalIdRows(env, rows, offset, limit, externalId))
  }

  function GeoJsonRows(env: Env, rows: seq<Row>, offset: int, limit: int, p: GeoJsonParams): Result<seq<Row>, Error> {
    PageOf(env, SelectGeoJson, Filter(rows, r => ListVisible(r, p)), offset, limit)
  }

  /** What the GeoJSON query's single text column yields: NULL becomes `pgx.ErrNoRows`. */
  function GeoJsonOutcome(env: Env, res: Result<seq<Row>, Error>): Result<string, Error> {
    match res
    case Failure(e) => Failure(e)
    case Success(rows) => if env.geoJson(rows).None? then Failure(NoRows) else Success(env.geoJson(rows).value)
  }

  /** Reference for `PGX.GeoJson`: the same rows as List, rendered as one JSON text. */
  function GeoJsonSpec(env: Env, rows: seq<Row>, offset: int, limit: int, p: GeoJsonParams): Result<string, Error> {
    GeoJsonOutcome(env, GeoJsonRows(env, rows, offset, limit, p))
  }

  /** Reference for the count a correct `PGX.Count` returns, truncated by `int32(count)`. */
  function CountSpec(env: Env, rows: seq<Row>, p: CountParams): Result<Int32, Error> {
    if SelectCountThings in env.failing then Failure(DbUnavailable())
    else Success(ToInt32(|Filter(rows, r => SearchVisible(r, p, env.fts))|))
  }

  /** What the Count code as written returns: the keyword branch with `validated` binds five
      arguments to a statement whose highest placeholder is `$4`, which pgx rejects. */
  function CountAsWrittenSpec(env: Env, rows: seq<Row>, p: CountParams): Result<Int32, Error> {
    if SelectCountThings in env.failing then Failure(DbUnavailable())
    else if p.keywords.Some? && p.validated.Some? then Failure(Db(ArgumentCount(4, 5)))
    else CountSpec(env, rows, p)
  }

  /** Reference for `PGX.Get`: the row with that id, deleted or not. */
  function GetSpec(env: Env, rows: seq<Row>, id: Uuid): Result<Thing, Error> {
    if SelectGet in env.failing then Failure(DbUnavailable())
    else
      var found := Filter(rows, (r: Row) => r.id == id);
      if found == [] then Failure(NoRows) else RecordOf(found[0])
  }

  predicate HasId(rows: seq<Row>, id: Uuid) {
    exists i :: 0 <= i < |rows| && rows[i].id == id
  }

  /** Row `k` is the first row, in table order, with the id. */
  predicate FirstWithId(rows: seq<Row>, id: Uuid, k: int) {
    0 <= k < |rows| && rows[k].id == id && forall j :: 0 <= j < k ==> rows[j].id != id
  }

  /** Reference for `PGX.Exist`: false when the query fails. */
  predicate ExistSpec(env: Env, rows: seq<Row>, id: Uuid) {
    SelectExist !in env.failing && HasId(rows, id)
  }

  /** Reference for `PGX.IsUserOwner`. */
  predicate OwnerSpec(env: Env, rows: seq<Row>, id: Uuid, userId: Int32) {
    SelectOwnedBy !in env.failing && exists i :: 0 <= i < |rows| && rows[i].id == id && rows[i].createdBy == userId
  }

  /** Reference for `PGX.IsTemplate4ServiceNameActive`. */
  predicate ActiveSpec(env: Env, rows: seq<Row>, id: Uuid) {
    SelectIsActive !in env.failing && exists i :: 0 <= i < |rows| && rows[i].id == id && !rows[i].inactivated
  }

  // =========================================================================================
  // Effects of the writes.

  /** `INSERT`: one new row, or a unique violation on an id already present. */
  function InsertEffect(env: Env, rows: seq<Row>, row: Row): (Result<int, Error>, seq<Row>) {
    if InsertThing in env.failing then (Failure(DbUnavailable()), rows)
    else if HasId(rows, row.id) then (Failure(Db(UniqueViolation)), rows)
    else (Success(1), rows + [row])
  }

  function UpdateEffect(env: Env, rows: seq<Row>, key: Uuid, t: Thing, now: Time): (Result<int, Error>, seq<Row>) {
    if UpdateThing in env.failing then (Failure(DbUnavailable()), rows)
    else (Success(CountId(rows, key)), UpdateWhereId(rows, key, t, now))
  }

  function DeleteEffect(env: Env, rows: seq<Row>, id: Uuid, userId: Int32, now: Time): (Result<int, Error>, seq<Row>) {
    if DeleteThing in env.failing then (Failure(DbUnavailable()), rows)
    else (Success(CountId(rows, id)), SoftDeleteWhereId(rows, id, userId, now))
  }

  /** The category row the (unseen) insert statement stores. */
  function NewTypeRow(tt: TypeThing, id: Int32, now: Time): TypeThing {
    tt.(id := id, inactivated := false, inactivatedTime := None, inactivatedBy := None,
        inactivatedReason := None, createdAt := Some(now), lastModifiedAt := None,
        lastModifiedBy := None, deleted := false, deletedAt := None, deletedBy := None)
  }

  function UpdatedTypeRow(old_: TypeThing, tt: TypeThing, now: Time): TypeThing {
    old_.(name := tt.name, description := tt.description, comment := tt.comment,
          externalId := tt.externalId, tableName := tt.tableName, geometryType := tt.geometryType,
          inactivated := tt.inactivated, inactivatedTime := tt.inactivatedTime,
          inactivatedBy := tt.inactivatedBy, inactivatedReason := tt.inactivatedReason,
          managedBy := tt.managedBy, iconPath := tt.iconPath, lastModifiedAt := Some(now),
          lastModifiedBy := tt.lastModifiedBy, moreDataSchema := tt.moreDataSchema)
  }

  function InsertTypeEffect(env: Env, types: map<Int32, TypeThing>, tt: TypeThing, now: Time): (Result<int, Error>, map<Int32, TypeThing>) {
    var id := env.nextTypeId(types);
    if InsertType in env.failing then (Failure(DbUnavailable()), types)
    else if id in types then (Failure(Db(UniqueViolation)), types)
    else (Success(id as int), types[id := NewTypeRow(tt, id, now)])
  }

  function UpdateTypeEffect(env: Env, types: map<Int32, TypeThing>, id: Int32, tt: TypeThing, now: Time): (Result<int, Error>, map<Int32, TypeThing>) {
    if UpdateType in env.failing then (Failure(DbUnavailable()), types)
    else if id in types then (Success(1), types[id := UpdatedTypeRow(types[id], tt, now)])
    else (Success(0), types)
  }

  function DeleteTypeEffect(env: Env, types: map<Int32, TypeThing>, id: Int32, userId: Int32, now: Time): (Result<int, Error>, map<Int32, TypeThing>) {
    if DeleteType in env.failing then (Failure(DbUnavailable()), types)
    else if id in types then (Success(1), types[id := types[id].(deleted := true, deletedBy := Some(userId), deletedAt := Some(now))])
    else (Success(0), types)
  }

  function GetTypeSpec(env: Env, types: map<Int32, TypeThing>, id: Int32): Result<TypeThing, Error> {
    if SelectGetType in env.failing then Failure(DbUnavailable())
    else if id in types then Success(types[id]) else Failure(NoRows)
  }

  /** `DbConn.GetQueryInt(existTypeTemplate4ServiceName, id)`. */
  function ExistTypeCountSpec(env: Env, types: map<Int32, TypeThing>, id: Int32): Result<int, Error> {
    if SelectExistType in env.failing then Failure(DbUnavailable())
    else Success(if id in types then 1 else 0)
  }

  // =========================================================================================
  // The store's writes, as functions of the state before them.

  /** `PGX.Create`: insert, then re-read the row. */
  function CreateSpec(env: Env, st: DbState, t: Thing, now: Time): (Result<Option<Thing>, Error>, DbState) {
    var (res, rows) := InsertEffect(env, st.things, InsertedRow(t, now));
    var st' := st.(things := rows);
    if res.Failure? then (Failure(res.error), st')
    else if res.value < 1 then (Success(None), st')
    else match GetSpec(env, rows, t.id)
      case Failure(e) => (Failure(Wrapped(CreatedNotRetrievable, e)), st')
      case Success(x) => (Success(Some(x)), st')
  }

  /** `PGX.Update` writing through the row whose id is `key`, then re-reading it. */
  function UpdateSpec(env: Env, st: DbState, key: Uuid, t: Thing, now: Time): (Result<Option<Thing>, Error>, DbState) {
    var (res, rows) := UpdateEffect(env, st.things, key, t, now);
    var st' := st.(things := rows);
    if res.Failure? then (Failure(res.error), st')
    else if res.value < 1 then (Success(None), st')
    else match GetSpec(env, rows, key)
      case Failure(e) => (Failure(Wrapped(UpdatedNotRetrievable, e)), st')
      case Success(x) => (Success(Some(x)), st')
  }

  /** `PGX.Delete`: `None` is a nil error. */
  function DeleteSpec(env: Env, st: DbState, id: Uuid, userId: Int32, now: Time): (Option<Error>, DbState) {
    var (res, rows) := DeleteEffect(env, st.things, id, userId, now);
    var st' := st.(things := rows);
    if res.Failure? then (Some(Wrapped(CouldNotBeDeleted, res.error)), st')
    else if res.value < 1 then (Some(NotMarkedForDeletion), st')
    else (None, st')
  }

  function CreateTypeSpec(env: Env, st: DbState, tt: TypeThing, now: Time): (Result<TypeThing, Error>, DbState) {
    var (res, types) := InsertTypeEffect(env, st.types, tt, now);
    var st' := st.(types := types);
    if res.Failure? then (Failure(res.error), st')
    else match GetTypeSpec(env, types, ToInt32(res.value))
      case Failure(e) => (Failure(Wrapped(TypeCreatedNotRetrievable, e)), st')
      case Success(x) => (Success(x), st')
  }

  function UpdateTypeSpec(env: Env, st: DbState, id: Int32, tt: TypeThing, now: Time): (Result<Option<TypeThing>, Error>, DbState) {
    var (res, types) := UpdateTypeEffect(env, st.types, id, tt, now);
    var st' := st.(types := types);
    if res.Failure? then (Failure(res.error), st')
    else if res.value < 1 then (Success(None), st')
    else match GetTypeSpec(env, types, id)
      case Failure(e) => (Failure(Wrapped(TypeUpdatedNotRetrievable, e)), st')
      case Success(x) => (Success(Some(x)), st')
  }

  function DeleteTypeSpec(env: Env, st: DbState, id: Int32, userId: Int32, now: Time): (Option<Error>, DbState) {
    var (res, types) := DeleteTypeEffect(env, st.types, id, userId, now);
    var st' := st.(types := types);
    if res.Failure? then (Some(Wrapped(TypeCouldNotBeDeleted, res.error)), st')
    else if res.value < 1 then (Some(TypeNotMarkedForDeletion), st')
    else (None, st')
  }

  /** The query and arguments `PGX.ListTypeTemplate4ServiceName` sends. */
  function TypeListStatement(offset: int, limit: int, p: TypeListParams): (r: (TypeQuery, seq<Value>))
  {
    if p.keywords.Some? then
      (TypeListWithKeywords, [IntV(limit), IntV(offset), TextOrNull(p.keywords), IntOrNull(p.createdBy),
                              IntOrNull(p.externalId), BoolOrNull(p.inactivated)])
    else
      (TypeListWithoutKeywords, [IntV(limit), IntV(offset), IntOrNull(p.createdBy), IntOrNull(p.externalId),
                                 BoolOrNull(p.inactivated)])
  }

  function ListTypeSpec(env: Env, types: map<Int32, TypeThing>, offset: int, limit: int, p: TypeListParams): Result<seq<TypeThingList>, Error> {
    var (q, args) := TypeListStatement(offset, limit, p);
    if SelectTypes in env.failing then Failure(DbUnavailable())
    else match env.typeList(q, args, types)
      case Failure(e) => Failure(e)
      case Success(l) => if l == [] then Failure(NoRows) else Success(l)
  }

  /** The query and arguments `PGX.CountTypeTemplate4ServiceName` sends. */
  function TypeCountStatement(p: TypeCountParams): (TypeQuery, seq<Value>) {
    if p.keywords.Some? then
      (TypeCountWithKeywords, [TextOrNull(p.keywords), IntOrNull(p.createdBy), BoolOrNull(p.inactivated)])
    else
      (TypeCountWithoutKeywords, [IntOrNull(p.createdBy), BoolOrNull(p.inactivated)])
  }

  function CountTypeSpec(env: Env, types: map<Int32, TypeThing>, p: TypeCountParams): Result<Int32, Error> {
    var (q, args) := TypeCountStatement(p);
    if SelectCountTypes in env.failing then Failure(DbUnavailable())
    else match env.typeCount(q, args, types)
      case Failure(e) => Failure(e)
      case Success(n) => Success(ToInt32(n))
  }

  // =========================================================================================
  // The database handle (`database.DB` and the pool behind `PGX.Conn`) and its two tables.

  class Database {
    const env: Env
    var things: seq<Row>
    var types: map<Int32, TypeThing>

    constructor (env: Env, things: seq<Row>, types: map<Int32, TypeThing>)
      ensures this.env == env && this.things == things && this.types == types
    {
      this.env := env;
      this.things := things;
      this.types := types;
    }

    function State(): DbState
      reads this
    {
      DbState(things, types)
    }

    /** `pgxscan.Select` / `pgxscan.Get` of a statement on the thing table. */
    function Query(stmt: Statement, q: Query, args: seq<Value>): Result<seq<Row>, Error>
      reads this
    {
      if stmt in env.failing then Failure(DbUnavailable()) else Select(things, q, args, env.fts)
    }

    /** `GetQueryInt` of a `SELECT COUNT(*)` on the thing table. */
    function QueryInt(stmt: Statement, q: Query, args: seq<Value>): Result<int, Error>
      reads this
    {
      if stmt in env.failing then Failure(DbUnavailable()) else SelectCount(things, q, args, env.fts)
    }

    /** The single text column of the GeoJSON statement; `None` is SQL NULL. */
    function QueryGeoJson(q: Query, args: seq<Value>): Result<Option<string>, Error>
      reads this
    {
      if SelectGeoJson in env.failing then Failure(DbUnavailable())
      else match Select(things, q, args, env.fts)
        case Failure(e) => Failure(e)
        case Success(rows) => Success(env.geoJson(rows))
    }

    /** `pgxscan.Get(getTypeTemplate4ServiceName, id)`; `None` is no row. */
    function QueryTypeRow(id: Int32): Result<Option<TypeThing>, Error>
      reads this
    {
      if SelectGetType in env.failing then Failure(DbUnavailable())
      else if id in types then Success(Some(types[id])) else Success(None)
    }

    /** `GetQueryInt(existTypeTemplate4ServiceName, id)`, the category lookup of the business layer. */
    function QueryTypeCount(id: Int32): Result<int, Error>
      reads this
    {
      ExistTypeCountSpec(env, types, id)
    }

    function QueryTypes(q: TypeQuery, args: seq<Value>): Result<seq<TypeThingList>, Error>
      reads this
    {
      if SelectTypes in env.failing then Failure(DbUnavailable()) else env.typeList(q, args, types)
    }

    function QueryTypeInt(q: TypeQuery, args: seq<Value>): Result<int, Error>
      reads this
    {
      if SelectCountTypes in env.failing then Failure(DbUnavailable()) else env.typeCount(q, args, types)
    }

    /** `ExecActionQuery(createTemplate4ServiceName, ...)`: the number of rows inserted. */
    method ExecInsertThing(row: Row) returns (r: Result<int, Error>)
      modifies this
      ensures (r, things) == InsertEffect(env, old(things), row)
      ensures types == old(types)
    {
      if InsertThing in env.failing {
        r := Failure(DbUnavailable());
      } else if HasId(things, row.id) {
        r := Failure(Db(UniqueViolation));
      } else {
        things := things + [row];
        r := Success(1);
      }
    }

    /** `ExecActionQuery(updateTemplate4ServiceName, key, ...)`: the number of rows updated. */
    method ExecUpdateThing(key: Uuid, t: Thing, now: Time) returns (r: Result<int, Error>)
      modifies this
      ensures (r, things) == UpdateEffect(env, old(things), key, t, now)
      ensures types == old(types)
    {
      if UpdateThing in env.failing {
        r := Failure(DbUnavailable());
      } else {
        r := Success(CountId(things, key));
        things := UpdateWhereId(things, key, t, now);
      }
    }

    /** `ExecActionQuery(deleteTemplate4ServiceName, userId, id)`: the rows marked deleted. */
    method ExecDeleteThing(userId: Int32, id: Uuid, now: Time) returns (r: Result<int, Error>)
      modifies this
      ensures (r, things) == DeleteEffect(env, old(things), id, userId, now)
      ensures types == old(types)
    {
      if DeleteThing in env.failing {
        r := Failure(DbUnavailable());
      } else {
        r := Success(CountId(things, id));
        things := SoftDeleteWhereId(things, id, userId, now);
      }
    }

    /** `QueryRow(createTypeTemplate4ServiceName, ...).Scan(&lastInsertId)`. */
    method ExecInsertType(tt: TypeThing, now: Time) returns (r: Result<int, Error>)
      modifies this
      ensures (r, types) == InsertTypeEffect(env, old(types), tt, now)
      ensures things == old(things)
    {
      var id := env.nextTypeId(types);
      if InsertType in env.failing {
        r := Failure(DbUnavailable());
      } else if id in types {
        r := Failure(Db(UniqueViolation));
      } else {
        types := types[id := NewTypeRow(tt, id, now)];
        r := Success(id as int);
      }
    }

    method ExecUpdateType(id: Int32, tt: TypeThing, now: Time) returns (r: Result<int, Error>)
      modifies this
      ensures (r, types) == UpdateTypeEffect(env, old(types), id, tt, now)
      ensures things == old(things)
    {
      if UpdateType in env.failing {
        r := Failure(DbUnavailable());
      } else if id in types {
        types := types[id := UpdatedTypeRow(types[id], tt, now)];
        r := Success(1);
      } else {
        r := Success(0);
      }
    }

    method ExecDeleteType(userId: Int32, id: Int32, now: Time) returns (r: Result<int, Error>)
      modifies this
      ensures (r, types) == DeleteTypeEffect(env, old(types), id, userId, now)
      ensures things == old(things)
    {
      if DeleteType in env.failing {
        r := Failure(DbUnavailable());
      } else if id in types {
        types := types[id := types[id].(deleted := true, deletedBy := Some(userId), deletedAt := Some(now))];
        r := Success(1);
      } else {
        r := Success(0);
      }
    }
  }

  // =========================================================================================
  // `PGX`: the store methods, building each statement clause by clause as the code does.

  class PgxStore {
    const dbi: Database

    constructor (dbi: Database)
      ensures this.dbi == dbi
    {
      this.dbi := dbi;
    }

    /** `PGX.List`. */
    method List(offset: int, limit: int, params: ListParams) returns (r: Result<seq<ThingList>, Error>)
      ensures r == ListSpec(dbi.env, dbi.things, offset, limit, params)
    {
      var isInactive := false;
      if params.inactivated.Some? {
        isInactive := params.inactivated.value;
      }
      var q := BaseListQuery + ListConditions;
      var args: seq<Value>;
      if params.validated.Some? {
        var isValidated := params.validated.value;
        q := q + [Where(EqualsCoalesce(ValidatedColumn, 6))] + ListOrderBy;
        args := [IntV(limit), IntV(offset), IntOrNull(params.typeId), IntOrNull(params.createdBy),
                 BoolV(isInactive), BoolV(isValidated)];
      } else {
        q := q + ListOrderBy;
        args := [IntV(limit), IntV(offset), IntOrNull(params.typeId), IntOrNull(params.createdBy),
                 BoolV(isInactive)];
      }
      ListStatementSelects(dbi.things, dbi.env.fts, params, isInactive, offset, limit, q, args);
      var res := dbi.Query(SelectList, q, args);
      if res.Failure? {
        return Failure(res.error);
      }
      ListVisiblePositioned(dbi.things, params);
      PageKeepsPositions(dbi.env, SelectList, Filter(dbi.things, row => ListVisible(row, params)), offset, limit);
      if res.value == [] {
        return Failure(NoRows);
      }
      r := Success(ListItems(res.value));
    }

    /** `PGX.GeoJson`: the List statement wrapped in the FeatureCollection query. */
    method GeoJson(offset: int, limit: int, params: GeoJsonParams) returns (r: Result<string, Error>)
      ensures r == GeoJsonSpec(dbi.env, dbi.things, offset, limit, params)
    {
      var isInactive := false;
      if params.inactivated.Some? {
        isInactive := params.inactivated.value;
      }
      var q := BaseGeoJsonQuery + ListConditions;
      var args: seq<Value>;
      if params.validated.Some? {
        var isValidated := params.validated.value;
        q := q + [Where(EqualsCoalesce(ValidatedColumn, 6))] + GeoJsonEndOfQuery;
        args := [IntV(limit), IntV(offset), IntOrNull(params.typeId), IntOrNull(params.createdBy),
                 BoolV(isInactive), BoolV(isValidated)];
      } else {
        q := q + GeoJsonEndOfQuery;
        args := [IntV(limit), IntV(offset), IntOrNull(params.typeId), IntOrNull(params.createdBy),
                 BoolV(isInactive)];
      }
      ListStatementSelects(dbi.things, dbi.env.fts, params, isInactive, offset, limit, q, args);
      var mayBeResultIsNull := dbi.QueryGeoJson(q, args);
      if mayBeResultIsNull.Failure? {
        return Failure(mayBeResultIsNull.error);
      }
      if mayBeResultIsNull.value.None? {
        return Failure(NoRows);
      }
      r := Success(mayBeResultIsNull.value.value);
    }

    /** `PGX.ListByExternalId`. */
    method ListByExternalId(offset: int, limit: int, externalId: int) returns (r: Result<seq<ThingList>, Error>)
      ensures r == ListByExternalIdSpec(dbi.env, dbi.things, offset, limit, externalId)
    {
      var q := BaseListQuery + ByExternalIdCondition + ListOrderBy;
      var args := [IntV(limit), IntV(offset), IntV(externalId)];
      ExternalIdStatementSelects(dbi.things, dbi.env.fts, externalId, offset, limit);
      var res := dbi.Query(SelectByExternalId, q, args);
      if res.Failure? {
        return Failure(res.error);
      }
      ExternalIdVisiblePositioned(dbi.things, externalId);
      PageKeepsPositions(dbi.env, SelectByExternalId, Filter(dbi.things, row => ExternalIdVisible(row, externalId)), offset, limit);
      if res.value == [] {
        return Failure(NoRows);
      }
      r := Success(ListItems(res.value));
    }

    /** `PGX.Search`: the keyword condition takes `$6`, pushing `validated` to `$7`. */
    method Search(offset: int, limit: int, params: SearchParams) returns (r: Result<seq<ThingList>, Error>)
      ensures r == SearchSpec(dbi.env, dbi.things, offset, limit, params)
    {
      var q := BaseListQuery + ListConditions;
      var args: seq<Value>;
      if params.keywords.Some? {
        q := q + [Where(MatchesText(6))];
        if params.validated.Some? {
          q := q + [Where(EqualsCoalesce(ValidatedColumn, 7))] + ListOrderBy;
          args := [IntV(limit), IntV(offset), IntOrNull(params.typeId), IntOrNull(params.createdBy),
                   BoolOrNull(params.inactivated), TextOrNull(params.keywords), BoolOrNull(params.validated)];
        } else {
          q := q + ListOrderBy;
          args := [IntV(limit), IntV(offset), IntOrNull(params.typeId), IntOrNull(params.createdBy),
                   BoolOrNull(params.inactivated), TextOrNull(params.keywords)];
        }
      } else {
        if params.validated.Some? {
          q := q + [Where(EqualsCoalesce(ValidatedColumn, 6))] + ListOrderBy;
          args := [IntV(limit), IntV(offset), IntOrNull(params.typeId), IntOrNull(params.createdBy),
                   BoolOrNull(params.inactivated), BoolOrNull(params.validated)];
        } else {
          q := q + ListOrderBy;
          args := [IntV(limit), IntV(offset), IntOrNull(params.typeId), IntOrNull(params.createdBy),
                   BoolOrNull(params.inactivated)];
        }
      }
      SearchStatementSelects(dbi.things, dbi.env.fts, params, offset, limit, q, args);
      var res := dbi.Query(SelectSearch, q, args);
      if res.Failure? {
        return Failure(res.error);
      }
      SearchVisiblePositioned(dbi.things, params, dbi.env.fts);
      PageKeepsPositions(dbi.env, SelectSearch, Filter(dbi.things, row => SearchVisible(row, params, dbi.env.fts)), offset, limit);
      if res.value == [] {
        return Failure(NoRows);
      }
      r := Success(ListItems(res.value));
    }

    /** `PGX.Count` as written: `validated` after the keyword block reuses `$4`. */
    method Count(params: CountParams) returns (r: Result<Int32, Error>)
      ensures r == CountAsWrittenSpec(dbi.env, dbi.things, params)
    {
      r := CountWith(params, 4);
    }

    /** `PGX.Count` with the keyword branch's `validated` bound to its own `$5`. */
    method CountCorrected(params: CountParams) returns (r: Result<Int32, Error>)
      ensures r == CountSpec(dbi.env, dbi.things, params)
    {
      r := CountWith(params, 5);
    }

    /** The body of Count, with the placeholder the keyword branch gives `validated`. */
    method CountWith(params: CountParams, keywordValidatedParam: nat) returns (r: Result<Int32, Error>)
      requires keywordValidatedParam == 4 || keywordValidatedParam == 5
      ensures keywordValidatedParam == 4 ==> r == CountAsWrittenSpec(dbi.env, dbi.things, params)
      ensures keywordValidatedParam == 5 ==> r == CountSpec(dbi.env, dbi.things, params)
    {
      var q := BaseListQuery;
      var args: seq<Value> := [];
      var withoutSearchParameters := true;
      if params.keywords.Some? {
        withoutSearchParameters := false;
        q := q + [Where(MatchesText(1))] + OptionalFilters(2, 3, 4);
        if params.validated.Some? {
          var isValidated := params.validated.value;
          q := q + [Where(EqualsCoalesce(ValidatedColumn, keywordValidatedParam))];
          args := [TextOrNull(params.keywords), IntOrNull(params.typeId), IntOrNull(params.createdBy),
                   BoolOrNull(params.inactivated), BoolV(isValidated)];
        } else {
          args := [TextOrNull(params.keywords), IntOrNull(params.typeId), IntOrNull(params.createdBy),
                   BoolOrNull(params.inactivated)];
        }
      }
      if withoutSearchParameters {
        q := q + OptionalFilters(1, 2, 3);
        if params.validated.Some? {
          var isValidated := params.validated.value;
          q := q + [Where(EqualsCoalesce(ValidatedColumn, 4))];
          args := [IntOrNull(params.typeId), IntOrNull(params.createdBy), BoolOrNull(params.inactivated),
                   BoolV(isValidated)];
        } else {
          args := [IntOrNull(params.typeId), IntOrNull(params.createdBy), BoolOrNull(params.inactivated)];
        }
      }
      CountStatementCounts(dbi.things, dbi.env.fts, params, keywordValidatedParam, q, args);
      var count := dbi.QueryInt(SelectCountThings, q, args);
      if count.Failure? {
        return Failure(count.error);
      }
      r := Success(ToInt32(count.value));
    }

    /** `PGX.Get`. */
    method Get(id: Uuid) returns (r: Result<Thing, Error>)
      ensures r == GetSpec(dbi.env, dbi.things, id)
    {
      ByIdSelects(dbi.things, dbi.env.fts, id);
      var res := dbi.Query(SelectGet, ByIdQuery, [UuidV(id)]);
      if res.Failure? {
        return Failure(res.error);
      }
      if res.value == [] {
        return Failure(NoRows);
      }
      r := RecordOf(res.value[0]);
    }

    /** `PGX.Exist`. */
    method Exist(id: Uuid) returns (r: bool)
      ensures r == ExistSpec(dbi.env, dbi.things, id)
    {
      ByIdSelects(dbi.things, dbi.env.fts, id);
      FilterNonEmpty(dbi.things, (r: Row) => r.id == id);
      var count := dbi.QueryInt(SelectExist, ByIdQuery, [UuidV(id)]);
      if count.Failure? {
        return false;
      }
      r := count.value > 0;
    }

    /** `PGX.IsUserOwner`. */
    method IsUserOwner(id: Uuid, userId: Int32) returns (r: bool)
      ensures r == OwnerSpec(dbi.env, dbi.things, id, userId)
    {
      OwnedBySelects(dbi.things, dbi.env.fts, id, userId);
      FilterNonEmpty(dbi.things, (r: Row) => r.id == id && r.createdBy == userId);
      var count := dbi.QueryInt(SelectOwnedBy, OwnedByQuery, [UuidV(id), IntV(userId as int)]);
      if count.Failure? {
        return false;
      }
      r := count.value > 0;
    }

    /** `PGX.IsTemplate4ServiceNameActive`. */
    method IsActive(id: Uuid) returns (r: bool)
      ensures r == ActiveSpec(dbi.env, dbi.things, id)
    {
      IsActiveSelects(dbi.things, dbi.env.fts, id);
      FilterNonEmpty(dbi.things, (r: Row) => r.id == id && !r.inactivated);
      var count := dbi.QueryInt(SelectIsActive, IsActiveQuery, [UuidV(id)]);
      if count.Failure? {
        return false;
      }
      r := count.value > 0;
    }

    /** `PGX.Create`. */
    method Create(t: Thing, now: Time) returns (r: Result<Option<Thing>, Error>)
      modifies dbi
      ensures (r, dbi.State()) == CreateSpec(dbi.env, old(dbi.State()), t, now)
    {
      var rowsAffected := dbi.ExecInsertThing(InsertedRow(t, now));
      if rowsAffected.Failure? {
        return Failure(rowsAffected.error);
      }
      if rowsAffected.value < 1 {
        return Success(None);
      }
      var created := Get(t.id);
      if created.Failure? {
        return Failure(Wrapped(CreatedNotRetrievable, created.error));
      }
      r := Success(Some(created.value));
    }

    /** `PGX.Update` as written: the statement and the re-read use the body's `t.id`, never `id`. */
    method Update(id: Uuid, t: Thing, now: Time) returns (r: Result<Option<Thing>, Error>)
      modifies dbi
      ensures (r, dbi.State()) == UpdateSpec(dbi.env, old(dbi.State()), t.id, t, now)
    {
      r := UpdateKeyed(t.id, t, now);
    }

    /** `PGX.Update` writing and re-reading the row the caller names. */
    method UpdateById(id: Uuid, t: Thing, now: Time) returns (r: Result<Option<Thing>, Error>)
      modifies dbi
      ensures (r, dbi.State()) == UpdateSpec(dbi.env, old(dbi.State()), id, t, now)
    {
      r := UpdateKeyed(id, t, now);
    }

    method UpdateKeyed(key: Uuid, t: Thing, now: Time) returns (r: Result<Option<Thing>, Error>)
      modifies dbi
      ensures (r, dbi.State()) == UpdateSpec(dbi.env, old(dbi.State()), key, t, now)
    {
      var rowsAffected := dbi.ExecUpdateThing(key, t, now);
      if rowsAffected.Failure? {
        return Failure(rowsAffected.error);
      }
      if rowsAffected.value < 1 {
        return Success(None);
      }
      var updated := Get(key);
      if updated.Failure? {
        return Failure(Wrapped(UpdatedNotRetrievable, updated.error));
      }
      r := Success(Some(updated.value));
    }

    /** `PGX.Delete`: `None` is a nil error. */
    method Delete(id: Uuid, userId: Int32, now: Time) returns (r: Option<Error>)
      modifies dbi
      ensures (r, dbi.State()) == DeleteSpec(dbi.env, old(dbi.State()), id, userId, now)
    {
      var rowsAffected := dbi.ExecDeleteThing(userId, id, now);
      if rowsAffected.Failure? {
        return Some(Wrapped(CouldNotBeDeleted, rowsAffected.error));
      }
      if rowsAffected.value < 1 {
        return Some(NotMarkedForDeletion);
      }
      r := None;
    }

    /** `PGX.CreateTypeTemplate4ServiceName`: insert, then re-read `int32(lastInsertId)`. */
    method CreateType(tt: TypeThing, now: Time) returns (r: Result<TypeThing, Error>)
      modifies dbi
      ensures (r, dbi.State()) == CreateTypeSpec(dbi.env, old(dbi.State()), tt, now)
    {
      var lastInsertId := dbi.ExecInsertType(tt, now);
      if lastInsertId.Failure? {
        return Failure(lastInsertId.error);
      }
      var created := GetType(ToInt32(lastInsertId.value));
      if created.Failure? {
        return Failure(Wrapped(TypeCreatedNotRetrievable, created.error));
      }
      r := Success(created.value);
    }

    /** `PGX.UpdateTypeTemplate4ServiceName`: keyed by `id`, unlike Update. */
    method UpdateType(id: Int32, tt: TypeThing, now: Time) returns (r: Result<Option<TypeThing>, Error>)
      modifies dbi
      ensures (r, dbi.State()) == UpdateTypeSpec(dbi.env, old(dbi.State()), id, tt, now)
    {
      var rowsAffected := dbi.ExecUpdateType(id, tt, now);
      if rowsAffected.Failure? {
        return Failure(rowsAffected.error);
      }
      if rowsAffected.value < 1 {
        return Success(None);
      }
      var updated := GetType(id);
      if updated.Failure? {
        return Failure(Wrapped(TypeUpdatedNotRetrievable, updated.error));
      }
      r := Success(Some(updated.value));
    }

    /** `PGX.DeleteTypeTemplate4ServiceName`. */
    method DeleteType(id: Int32, userId: Int32, now: Time) returns (r: Option<Error>)
      modifies dbi
      ensures (r, dbi.State()) == DeleteTypeSpec(dbi.env, old(dbi.State()), id, userId, now)
    {
      var rowsAffected := dbi.ExecDeleteType(userId, id, now);
      if rowsAffected.Failure? {
        return Some(Wrapped(TypeCouldNotBeDeleted, rowsAffected.error));
      }
      if rowsAffected.value < 1 {
        return Some(TypeNotMarkedForDeletion);
      }
      r := None;
    }

    /** `PGX.GetTypeTemplate4ServiceName`: no row is `pgx.ErrNoRows`. */
    method GetType(id: Int32) returns (r: Result<TypeThing, Error>)
      ensures r == GetTypeSpec(dbi.env, dbi.types, id)
    {
      var res := dbi.QueryTypeRow(id);
      if res.Failure? {
        return Failure(res.error);
      }
      if res.value.None? {
        return Failure(NoRows);
      }
      r := Success(res.value.value);
    }

    /** `PGX.ListTypeTemplate4ServiceName`. */
    method ListType(offset: int, limit: int, params: TypeListParams) returns (r: Result<seq<TypeThingList>, Error>)
      ensures r == ListTypeSpec(dbi.env, dbi.types, offset, limit, params)
    {
      var query: TypeQuery;
      var args: seq<Value>;
      if params.keywords.Some? {
        query := TypeListWithKeywords;
        args := [IntV(limit), IntV(offset), TextOrNull(params.keywords), IntOrNull(params.createdBy),
                 IntOrNull(params.externalId), BoolOrNull(params.inactivated)];
      } else {
        query := TypeListWithoutKeywords;
        args := [IntV(limit), IntV(offset), IntOrNull(params.createdBy), IntOrNull(params.externalId),
                 BoolOrNull(params.inactivated)];
      }
      var res := dbi.QueryTypes(query, args);
      if res.Failure? {
        return Failure(res.error);
      }
      if res.value == [] {
        return Failure(NoRows);
      }
      r := Success(res.value);
    }

    /** `PGX.CountTypeTemplate4ServiceName`. */
    method CountType(params: TypeCountParams) returns (r: Result<Int32, Error>)
      ensures r == CountTypeSpec(dbi.env, dbi.types, params)
    {
      var query: TypeQuery;
      var args: seq<Value>;
      var withoutSearchParameters := true;
      query := TypeCountWithoutKeywords;
      args := [];
      if params.keywords.Some? {
        withoutSearchParameters := false;
        query := TypeCountWithKeywords;
        args := [TextOrNull(params.keywords), IntOrNull(params.createdBy), BoolOrNull(params.inactivated)];
      }
      if withoutSearchParameters {
        query := TypeCountWithoutKeywords;
        args := [IntOrNull(params.createdBy), BoolOrNull(params.inactivated)];
      }
      var count := dbi.QueryTypeInt(query, args);
      if count.Failure? {
        return Failure(count.error);
      }
      r := Success(ToInt32(count.value));
    }
  }

  /** The statement List and GeoJson send returns the page of the rows `ListVisible` keeps. */
  lemma ListStatementSelects(rows: seq<Row>, fts: Matcher, p: ListParams, isInactive: bool, offset: int, limit: int,
                             q: Query, args: seq<Value>)
    requires isInactive == p.inactivated.GetOr(false)
    requires p.validated.Some? ==>
      && q == BaseListQuery + ListConditions + [Where(EqualsCoalesce(ValidatedColumn, 6))] + ListOrderBy
      && args == [IntV(limit), IntV(offset), IntOrNull(p.typeId), IntOrNull(p.createdBy), BoolV(isInactive), BoolV(p.validated.value)]
    requires p.validated.None? ==>
      && q == BaseListQuery + ListConditions + ListOrderBy
      && args == [IntV(limit), IntV(offset), IntOrNull(p.typeId), IntOrNull(p.createdBy), BoolV(isInactive)]
    ensures Select(rows, q, args, fts) == Paged(Filter(rows, row => ListVisible(row, p)), offset, limit)
  {
    MaxParamAppend(BaseListQuery, ListConditions);
    if p.validated.Some? {
      var v := [Where(EqualsCoalesce(ValidatedColumn, 6))];
      MaxParamAppend(BaseListQuery + ListConditions, v);
      MaxParamAppend(BaseListQuery + ListConditions + v, ListOrderBy);
      PagingAppend(BaseListQuery + ListConditions + v, ListOrderBy);
      forall i | 0 <= i < |rows| ensures AllHold(q, rows[i], args, fts) == ListVisible(rows[i], p) {
        ListWhere(rows[i], args, fts, p, isInactive);
        AllHoldAppend(BaseListQuery + ListConditions + v, ListOrderBy, rows[i], args, fts);
        AllHoldAppend(BaseListQuery + ListConditions, v, rows[i], args, fts);
        ValidatedMeaning(6, rows[i], args, fts, p.validated.value);
        OrderByMeaning(rows[i], args, fts);
      }
    } else {
      MaxParamAppend(BaseListQuery + ListConditions, ListOrderBy);
      PagingAppend(BaseListQuery + ListConditions, ListOrderBy);
      forall i | 0 <= i < |rows| ensures AllHold(q, rows[i], args, fts) == ListVisible(rows[i], p) {
        ListWhere(rows[i], args, fts, p, isInactive);
        AllHoldAppend(BaseListQuery + ListConditions, ListOrderBy, rows[i], args, fts);
        OrderByMeaning(rows[i], args, fts);
      }
    }
    SelectPaged(rows, q, args, fts, row => ListVisible(row, p), offset, limit);
  }

  lemma ExternalIdStatementSelects(rows: seq<Row>, fts: Matcher, externalId: int, offset: int, limit: int)
    ensures Select(rows, BaseListQuery + ByExternalIdCondition + ListOrderBy, [IntV(limit), IntV(offset), IntV(externalId)], fts)
         == Paged(Filter(rows, row => ExternalIdVisible(row, externalId)), offset, limit)
  {
    var q := BaseListQuery + ByExternalIdCondition + ListOrderBy;
    var args := [IntV(limit), IntV(offset), IntV(externalId)];
    MaxParamAppend(BaseListQuery, ByExternalIdCondition);
    MaxParamAppend(BaseListQuery + ByExternalIdCondition, ListOrderBy);
    PagingAppend(BaseListQuery + ByExternalIdCondition, ListOrderBy);
    forall i | 0 <= i < |rows| ensures AllHold(q, rows[i], args, fts) == ExternalIdVisible(rows[i], externalId) {
      AllHoldAppend(BaseListQuery + ByExternalIdCondition, ListOrderBy, rows[i], args, fts);
      AllHoldAppend(BaseListQuery, ByExternalIdCondition, rows[i], args, fts);
      BaseListMeaning(rows[i], args, fts);
      ExternalIdMeaning(rows[i], args, fts, externalId);
      OrderByMeaning(rows[i], args, fts);
    }
    SelectPaged(rows, q, args, fts, row => ExternalIdVisible(row, externalId), offset, limit);
  }

  /** The four statements Search sends return the page of the rows `SearchVisible` keeps. */
  lemma SearchStatementSelects(rows: seq<Row>, fts: Matcher, p: SearchParams, offset: int, limit: int, q: Query, args: seq<Value>)
    requires p.keywords.Some? && p.validated.Some? ==>
      && q == BaseListQuery + ListConditions + [Where(MatchesText(6))] + [Where(EqualsCoalesce(ValidatedColumn, 7))] + ListOrderBy
      && args == [IntV(limit), IntV(offset), IntOrNull(p.typeId), IntOrNull(p.createdBy), BoolOrNull(p.inactivated),
                  TextOrNull(p.keywords), BoolOrNull(p.validated)]
    requires p.keywords.Some? && p.validated.None? ==>
      && q == BaseListQuery + ListConditions + [Where(MatchesText(6))] + ListOrderBy
      && args == [IntV(limit), IntV(offset), IntOrNull(p.typeId), IntOrNull(p.createdBy), BoolOrNull(p.inactivated),
                  TextOrNull(p.keywords)]
    requires p.keywords.None? && p.validated.Some? ==>
      && q == BaseListQuery + ListConditions + [Where(EqualsCoalesce(ValidatedColumn, 6))] + ListOrderBy
      && args == [IntV(limit), IntV(offset), IntOrNull(p.typeId), IntOrNull(p.createdBy), BoolOrNull(p.inactivated),
                  BoolOrNull(p.validated)]
    requires p.keywords.None? && p.validated.None? ==>
      && q == BaseListQuery + ListConditions + ListOrderBy
      && args == [IntV(limit), IntV(offset), IntOrNull(p.typeId), IntOrNull(p.createdBy), BoolOrNull(p.inactivated)]
    ensures Select(rows, q, args, fts) == Paged(Filter(rows, row => SearchVisible(row, p, fts)), offset, limit)
  {
    var head := BaseListQuery + ListConditions;
    if p.keywords.Some? && p.validated.Some? {
      var extra := [Where(MatchesText(6))] + [Where(EqualsCoalesce(ValidatedColumn, 7))];
      assert q == head + extra + ListOrderBy;
      SearchSelectsWith(rows, fts, p, offset, limit, extra, args);
    } else if p.keywords.Some? {
      SearchSelectsWith(rows, fts, p, offset, limit, [Where(MatchesText(6))], args);
    } else if p.validated.Some? {
      SearchSelectsWith(rows, fts, p, offset, limit, [Where(EqualsCoalesce(ValidatedColumn, 6))], args);
    } else {
      assert head + [] == head;
      SearchSelectsWith(rows, fts, p, offset, limit, [], args);
    }
  }

  /** The list conditions use placeholders up to `$5`. */
  lemma ListHeadParams()
    ensures MaxParam(BaseListQuery + ListConditions) == 5
  {
    MaxParamAppend(BaseListQuery, ListConditions);
    assert MaxParam(BaseListQuery) == 0;
    assert MaxParam(ListConditions) == 5;
  }

  /** The common step of the four Search statements: the extra conditions after the list
      conditions, with the argument list they need. */
  lemma SearchSelectsWith(rows: seq<Row>, fts: Matcher, p: SearchParams, offset: int, limit: int, extra: Query, args: seq<Value>)
    requires |args| >= 5 && args[0] == IntV(limit) && args[1] == IntV(offset)
    requires args[2] == IntOrNull(p.typeId) && args[3] == IntOrNull(p.createdBy) && args[4] == BoolOrNull(p.inactivated)
    requires p.keywords.Some? && p.validated.Some? ==>
      extra == [Where(MatchesText(6))] + [Where(EqualsCoalesce(ValidatedColumn, 7))] && |args| == 7 && args[5] == TextOrNull(p.keywords) && args[6] == BoolOrNull(p.validated)
    requires p.keywords.Some? && p.validated.None? ==>
      extra == [Where(MatchesText(6))] && |args| == 6 && args[5] == TextOrNull(p.keywords)
    requires p.keywords.None? && p.validated.Some? ==>
      extra == [Where(EqualsCoalesce(ValidatedColumn, 6))] && |args| == 6 && args[5] == BoolOrNull(p.validated)
    requires p.keywords.None? && p.validated.None? ==> extra == [] && |args| == 5
    ensures Select(rows, BaseListQuery + ListConditions + extra + ListOrderBy, args, fts) == Paged(Filter(rows, row => SearchVisible(row, p, fts)), offset, limit)
  {
    ListHeadParams();
    MaxParamAppend(BaseListQuery + ListConditions, extra);
    if p.keywords.Some? && p.validated.Some? {
      MaxParamAppend([Where(MatchesText(6))], [Where(EqualsCoalesce(ValidatedColumn, 7))]);
    }
    SearchWhereMeaning(rows, fts, p, args, extra);
    SelectPagedWhere(rows, BaseListQuery + ListConditions + extra, args, fts, row => SearchVisible(row, p, fts), offset, limit);
  }

  /** Row by row, the WHERE of each Search statement keeps exactly what `SearchVisible` keeps. */
  lemma SearchWhereMeaning(rows: seq<Row>, fts: Matcher, p: SearchParams, args: seq<Value>, extra: Query)
    requires |args| >= 5
    requires args[2] == IntOrNull(p.typeId) && args[3] == IntOrNull(p.createdBy) && args[4] == BoolOrNull(p.inactivated)
    requires p.keywords.Some? && p.validated.Some? ==>
      extra == [Where(MatchesText(6))] + [Where(EqualsCoalesce(ValidatedColumn, 7))] && |args| == 7 && args[5] == TextOrNull(p.keywords) && args[6] == BoolOrNull(p.validated)
    requires p.keywords.Some? && p.validated.None? ==>
      extra == [Where(MatchesText(6))] && |args| == 6 && args[5] == TextOrNull(p.keywords)
    requires p.keywords.None? && p.validated.Some? ==>
      extra == [Where(EqualsCoalesce(ValidatedColumn, 6))] && |args| == 6 && args[5] == BoolOrNull(p.validated)
    requires p.keywords.None? && p.validated.None? ==> extra == []
    ensures forall i :: 0 <= i < |rows| ==> AllHold(BaseListQuery + ListConditions + extra, rows[i], args, fts) == SearchVisible(rows[i], p, fts)
  {
    forall i | 0 <= i < |rows| ensures AllHold(BaseListQuery + ListConditions + extra, rows[i], args, fts) == SearchVisible(rows[i], p, fts) {
      SearchRowMeaning(rows[i], fts, p, args, extra);
    }
  }

  /** One row and the WHERE of a Search statement. */
  lemma SearchRowMeaning(r: Row, fts: Matcher, p: SearchParams, args: seq<Value>, extra: Query)
    requires |args| >= 5
    requires args[2] == IntOrNull(p.typeId) && args[3] == IntOrNull(p.createdBy) && args[4] == BoolOrNull(p.inactivated)
    requires p.keywords.Some? && p.validated.Some? ==>
      extra == [Where(MatchesText(6))] + [Where(EqualsCoalesce(ValidatedColumn, 7))] && |args| == 7 && args[5] == TextOrNull(p.keywords) && args[6] == BoolOrNull(p.validated)
    requires p.keywords.Some? && p.validated.None? ==>
      extra == [Where(MatchesText(6))] && |args| == 6 && args[5] == TextOrNull(p.keywords)
    requires p.keywords.None? && p.validated.Some? ==>
      extra == [Where(EqualsCoalesce(ValidatedColumn, 6))] && |args| == 6 && args[5] == BoolOrNull(p.validated)
    requires p.keywords.None? && p.validated.None? ==> extra == []
    ensures AllHold(BaseListQuery + ListConditions + extra, r, args, fts) == SearchVisible(r, p, fts)
  {
    AllHoldAppend(BaseListQuery + ListConditions, extra, r, args, fts);
    AllHoldAppend(BaseListQuery, ListConditions, r, args, fts);
    BaseListMeaning(r, args, fts);
    OptionalFiltersMeaning(3, 4, 5, r, args, fts, p.typeId, p.createdBy, p.inactivated);
    if p.keywords.Some? && p.validated.Some? {
      AllHoldAppend([Where(MatchesText(6))], [Where(EqualsCoalesce(ValidatedColumn, 7))], r, args, fts);
      KeywordMeaning(6, r, args, fts, p.keywords.value);
      ValidatedMeaning(7, r, args, fts, p.validated.value);
    } else if p.keywords.Some? {
      KeywordMeaning(6, r, args, fts, p.keywords.value);
    } else if p.validated.Some? {
      ValidatedMeaning(6, r, args, fts, p.validated.value);
    }
  }

  /** The two WHERE blocks of Count use placeholders up to `$4` and `$3`. */
  lemma CountHeadParams()
    ensures MaxParam(BaseListQuery + [Where(MatchesText(1))] + OptionalFilters(2, 3, 4)) == 4
    ensures MaxParam(BaseListQuery + OptionalFilters(1, 2, 3)) == 3
  {
    MaxParamAppend(BaseListQuery, [Where(MatchesText(1))]);
    MaxParamAppend(BaseListQuery + [Where(MatchesText(1))], OptionalFilters(2, 3, 4));
    MaxParamAppend(BaseListQuery, OptionalFilters(1, 2, 3));
    assert MaxParam(BaseListQuery) == 0;
    assert MaxParam(OptionalFilters(2, 3, 4)) == 4;
    assert MaxParam(OptionalFilters(1, 2, 3)) == 3;
  }

  /** The Count statements, with `n` the placeholder of `validated` after the keyword block:
      with `$4` the keyword and `validated` statement has one argument too many. */
  lemma CountStatementCounts(rows: seq<Row>, fts: Matcher, p: CountParams, n: nat, q: Query, args: seq<Value>)
    requires n == 4 || n == 5
    requires p.keywords.Some? ==> |args| >= 4 && args[..4] == [TextOrNull(p.keywords), IntOrNull(p.typeId), IntOrNull(p.createdBy), BoolOrNull(p.inactivated)]
    requires p.keywords.Some? && p.validated.Some? ==>
      q == BaseListQuery + [Where(MatchesText(1))] + OptionalFilters(2, 3, 4) + [Where(EqualsCoalesce(ValidatedColumn, n))]
      && |args| == 5 && args[4] == BoolV(p.validated.value)
    requires p.keywords.Some? && p.validated.None? ==>
      q == BaseListQuery + [Where(MatchesText(1))] + OptionalFilters(2, 3, 4) && |args| == 4
    requires p.keywords.None? ==> |args| >= 3 && args[..3] == [IntOrNull(p.typeId), IntOrNull(p.createdBy), BoolOrNull(p.inactivated)]
    requires p.keywords.None? && p.validated.Some? ==>
      q == BaseListQuery + OptionalFilters(1, 2, 3) + [Where(EqualsCoalesce(ValidatedColumn, 4))]
      && |args| == 4 && args[3] == BoolV(p.validated.value)
    requires p.keywords.None? && p.validated.None? ==> q == BaseListQuery + OptionalFilters(1, 2, 3) && |args| == 3
    ensures SelectCount(rows, q, args, fts) ==
      if p.keywords.Some? && p.validated.Some? && n == 4 then Failure(Db(ArgumentCount(4, 5)))
      else Success(|Filter(rows, row => SearchVisible(row, p, fts))|)
  {
    var head: Query;
    var extra: Query;
    CountHeadParams();
    if p.keywords.Some? {
      head := BaseListQuery + [Where(MatchesText(1))] + OptionalFilters(2, 3, 4);
      extra := if p.validated.Some? then [Where(EqualsCoalesce(ValidatedColumn, n))] else [];
    } else {
      head := BaseListQuery + OptionalFilters(1, 2, 3);
      extra := if p.validated.Some? then [Where(EqualsCoalesce(ValidatedColumn, 4))] else [];
    }
    assert q == head + extra;
    MaxParamAppend(head, extra);
    if !(p.keywords.Some? && p.validated.Some? && n == 4) {
      forall i | 0 <= i < |rows| ensures AllHold(q, rows[i], args, fts) == SearchVisible(rows[i], p, fts) {
        CountRowMeaning(rows[i], fts, p, n, head, extra, args);
      }
      SelectCounted(rows, q, args, fts, row => SearchVisible(row, p, fts));
    }
  }

  lemma CountRowMeaning(r: Row, fts: Matcher, p: CountParams, n: nat, head: Query, extra: Query, args: seq<Value>)
    requires p.keywords.Some? ==>
      && head == BaseListQuery + [Where(MatchesText(1))] + OptionalFilters(2, 3, 4)
      && |args| >= 4 && args[..4] == [TextOrNull(p.keywords), IntOrNull(p.typeId), IntOrNull(p.createdBy), BoolOrNull(p.inactivated)]
    requires p.keywords.Some? && p.validated.Some? ==> n == 5 && extra == [Where(EqualsCoalesce(ValidatedColumn, n))] && |args| == 5 && args[4] == BoolV(p.validated.value)
    requires p.keywords.None? ==>
      && head == BaseListQuery + OptionalFilters(1, 2, 3)
      && |args| >= 3 && args[..3] == [IntOrNull(p.typeId), IntOrNull(p.createdBy), BoolOrNull(p.inactivated)]
    requires p.keywords.None? && p.validated.Some? ==> extra == [Where(EqualsCoalesce(ValidatedColumn, 4))] && |args| == 4 && args[3] == BoolV(p.validated.value)
    requires p.validated.None? ==> extra == []
    ensures AllHold(head + extra, r, args, fts) == SearchVisible(r, p, fts)
  {
    AllHoldAppend(head, extra, r, args, fts);
    if p.keywords.Some? {
      assert args[0] == args[..4][0] && args[1] == args[..4][1] && args[2] == args[..4][2] && args[3] == args[..4][3];
      AllHoldAppend(BaseListQuery + [Where(MatchesText(1))], OptionalFilters(2, 3, 4), r, args, fts);
      AllHoldAppend(BaseListQuery, [Where(MatchesText(1))], r, args, fts);
      KeywordMeaning(1, r, args, fts, p.keywords.value);
      OptionalFiltersMeaning(2, 3, 4, r, args, fts, p.typeId, p.createdBy, p.inactivated);
      if p.validated.Some? {
        ValidatedMeaning(5, r, args, fts, p.validated.value);
      }
    } else {
      assert args[0] == args[..3][0] && args[1] == args[..3][1] && args[2] == args[..3][2];
      AllHoldAppend(BaseListQuery, OptionalFilters(1, 2, 3), r, args, fts);
      OptionalFiltersMeaning(1, 2, 3, r, args, fts, p.typeId, p.createdBy, p.inactivated);
      if p.validated.Some? {
        ValidatedMeaning(4, r, args, fts, p.validated.value);
      }
    }
    BaseListMeaning(r, args, fts);
  }

  lemma ByIdSelects(rows: seq<Row>, fts: Matcher, id: Uuid)
    ensures Select(rows, ByIdQuery, [UuidV(id)], fts) == Success(Filter(rows, (r: Row) => r.id == id))
    ensures SelectCount(rows, ByIdQuery, [UuidV(id)], fts) == Success(|Filter(rows, (r: Row) => r.id == id)|)
  {
    forall i | 0 <= i < |rows| ensures AllHold(ByIdQuery, rows[i], [UuidV(id)], fts) == (rows[i].id == id) {
      ByIdMeaning(rows[i], fts, id);
    }
    PagingNone(ByIdQuery);
    FilterExtensional(rows, r => AllHold(ByIdQuery, r, [UuidV(id)], fts), (r: Row) => r.id == id);
  }

  lemma OwnedBySelects(rows: seq<Row>, fts: Matcher, id: Uuid, userId: Int32)
    ensures SelectCount(rows, OwnedByQuery, [UuidV(id), IntV(userId as int)], fts)
         == Success(|Filter(rows, (r: Row) => r.id == id && r.createdBy == userId)|)
  {
    forall i | 0 <= i < |rows|
      ensures AllHold(OwnedByQuery, rows[i], [UuidV(id), IntV(userId as int)], fts) == (rows[i].id == id && rows[i].createdBy == userId)
    {
      OwnedByMeaning(rows[i], fts, id, userId);
    }
    FilterExtensional(rows, r => AllHold(OwnedByQuery, r, [UuidV(id), IntV(userId as int)], fts),
                      (r: Row) => r.id == id && r.createdBy == userId);
  }

  lemma IsActiveSelects(rows: seq<Row>, fts: Matcher, id: Uuid)
    ensures SelectCount(rows, IsActiveQuery, [UuidV(id)], fts) == Success(|Filter(rows, (r: Row) => r.id == id && !r.inactivated)|)
  {
    forall i | 0 <= i < |rows| ensures AllHold(IsActiveQuery, rows[i], [UuidV(id)], fts) == (rows[i].id == id && !rows[i].inactivated) {
      IsActiveMeaning(rows[i], fts, id);
    }
    FilterExtensional(rows, r => AllHold(IsActiveQuery, r, [UuidV(id)], fts), (r: Row) => r.id == id && !r.inactivated);
  }

  /** The shared WHERE block of List and GeoJson, with `isInactive` in place of a missing filter. */
  lemma ListWhere(r: Row, args: seq<Value>, fts: Matcher, p: ListParams, isInactive: bool)
    requires |args| >= 5 && args[2] == IntOrNull(p.typeId) && args[3] == IntOrNull(p.createdBy) && args[4] == BoolV(isInactive)
    requires isInactive == p.inactivated.GetOr(false)
    ensures AllHold(BaseListQuery + ListConditions, r, args, fts) <==>
      && !r.deleted && r.position.Some?
      && (p.typeId.None? || r.typeId == p.typeId.value)
      && (p.createdBy.None? || r.createdBy == p.createdBy.value)
      && r.inactivated == isInactive
  {
    AllHoldAppend(BaseListQuery, ListConditions, r, args, fts);
    BaseListMeaning(r, args, fts);
    OptionalFiltersMeaning(3, 4, 5, r, args, fts, p.typeId, p.createdBy, Some(isInactive));
  }
}
