/** The table of things and the queries of sql.go, with the meaning PostgreSQL gives them.
    A query is the sequence of clauses its text is built from, so the Go `+=` that glues
    constants together is sequence concatenation. `$n` is the n-th bound argument. */
module Sql {
  import opened Wrappers
  import opened GoInt
  import opened Domain
  import opened Errors
  import opened Seqs

  datatype Point = Point(x: Coord, y: Coord)

  /** One row of the thing table: every column of the record, plus the computed
      `position` geometry and `text_search` document. */
  datatype Row = Row(
    id: Uuid,
    typeId: Int32,
    name: string,
    description: Option<string>,
    comment: Option<string>,
    externalId: Option<Int32>,
    externalRef: Option<string>,
    buildAt: Option<Time>,
    status: Option<string>,
    containedBy: Option<string>,
    containedByOld: Option<Int32>,
    inactivated: bool,
    inactivatedTime: Option<Time>,
    inactivatedBy: Option<Int32>,
    inactivatedReason: Option<string>,
    validated: Option<bool>,
    validatedTime: Option<Time>,
    validatedBy: Option<Int32>,
    managedBy: Option<Int32>,
    createdAt: Time,
    createdBy: Int32,
    lastModifiedAt: Option<Time>,
    lastModifiedBy: Option<Int32>,
    deleted: bool,
    deletedAt: Option<Time>,
    deletedBy: Option<Int32>,
    moreData: Option<Document>,
    position: Option<Point>,
    textSearch: string)

  /** A bound argument or a column value; `NullV` is SQL NULL (a nil Go pointer). */
  datatype Value = NullV | IntV(i: int) | BoolV(b: bool) | TextV(s: string) | UuidV(u: Uuid) | PointV(p: Point)

  function IntOrNull(o: Option<Int32>): Value {
    if o.Some? then IntV(o.value as int) else NullV
  }

  function BoolOrNull(o: Option<bool>): Value {
    if o.Some? then BoolV(o.value) else NullV
  }

  function TextOrNull(o: Option<string>): Value {
    if o.Some? then TextV(o.value) else NullV
  }

  datatype Column = IdColumn | TypeIdColumn | CreatedByColumn | InactivatedColumn | ValidatedColumn
                  | ExternalIdColumn | DeletedColumn | PositionColumn

  function ColumnValue(r: Row, c: Column): Value {
    match c
    case IdColumn => UuidV(r.id)
    case TypeIdColumn => IntV(r.typeId as int)
    case CreatedByColumn => IntV(r.createdBy as int)
    case InactivatedColumn => BoolV(r.inactivated)
    case ValidatedColumn => BoolOrNull(r.validated)
    case ExternalIdColumn => IntOrNull(r.externalId)
    case DeletedColumn => BoolV(r.deleted)
    case PositionColumn => if r.position.Some? then PointV(r.position.value) else NullV
  }

  /** `plainto_tsquery('french', unaccent(k))` matched against a row's text document. */
  type Matcher = (string, string) -> bool

  datatype Cond =
    | IsFalse(col: Column)                       // col = false
    | IsNotNull(col: Column)                     // col IS NOT NULL
    | Equals(col: Column, param: nat)            // col = $param
    | EqualsCoalesce(col: Column, param: nat)    // col = coalesce($param, col)
    | MatchesText(param: nat)                    // text_search @@ plainto_tsquery('french', unaccent($param))

  datatype Clause =
    | Where(cond: Cond)                          // WHERE / AND cond
    | OrderByCreatedDesc(limitParam: nat, offsetParam: nat)   // ORDER BY _created_at DESC LIMIT $l OFFSET $o

  type Query = seq<Clause>

  function Max(a: nat, b: nat): nat { if a < b then b else a }

  function CondParam(c: Cond): nat {
    match c
    case Equals(_, p) => p
    case EqualsCoalesce(_, p) => p
    case MatchesText(p) => p
    case _ => 0
  }

  function ClauseParam(c: Clause): nat {
    match c
    case Where(cond) => CondParam(cond)
    case OrderByCreatedDesc(l, o) => Max(l, o)
  }

  /** The number of parameters PostgreSQL infers for a statement: its highest placeholder. */
  function MaxParam(q: Query): (n: nat)
    ensures forall i :: 0 <= i < |q| ==> ClauseParam(q[i]) <= n
  {
    if q == [] then 0 else Max(ClauseParam(q[0]), MaxParam(q[1..]))
  }

  /** The bound is reached: unless the statement has no placeholder, some clause carries `$n`. */
  lemma {:induction false} MaxParamReached(q: Query)
    ensures MaxParam(q) == 0 || exists i :: 0 <= i < |q| && ClauseParam(q[i]) == MaxParam(q)
  {
    if q != [] && MaxParam(q) != ClauseParam(q[0]) {
      MaxParamReached(q[1..]);
      if MaxParam(q) != 0 {
        var i :| 0 <= i < |q[1..]| && ClauseParam(q[1..][i]) == MaxParam(q[1..]);
        assert ClauseParam(q[i + 1]) == MaxParam(q);
      }
    }
  }

  lemma {:induction false} MaxParamAppend(a: Query, b: Query)
    ensures MaxParam(a + b) == Max(MaxParam(a), MaxParam(b))
  {
    if a == [] {
      assert a + b == b;
    } else {
      assert (a + b)[1..] == a[1..] + b;
      MaxParamAppend(a[1..], b);
    }
  }

  function Arg(args: seq<Value>, p: nat): Value {
    if 1 <= p <= |args| then args[p - 1] else NullV
  }

  /** SQL `a = b` in a WHERE clause: NULL on either side never keeps the row. */
  predicate SqlEquals(a: Value, b: Value) {
    a != NullV && b != NullV && a == b
  }

  function Coalesce(a: Value, b: Value): Value {
    if a.NullV? then b else a
  }

  predicate Holds(c: Cond, r: Row, args: seq<Value>, fts: Matcher) {
    match c
    case IsFalse(col) => ColumnValue(r, col) == BoolV(false)
    case IsNotNull(col) => ColumnValue(r, col) != NullV
    case Equals(col, p) => SqlEquals(ColumnValue(r, col), Arg(args, p))
    case EqualsCoalesce(col, p) => SqlEquals(ColumnValue(r, col), Coalesce(Arg(args, p), ColumnValue(r, col)))
    case MatchesText(p) => Arg(args, p).TextV? && fts(r.textSearch, Arg(args, p).s)
  }

  /** The row satisfies every WHERE condition of the query. */
  predicate AllHold(q: Query, r: Row, args: seq<Value>, fts: Matcher) {
    forall i :: 0 <= i < |q| && q[i].Where? ==> Holds(q[i].cond, r, args, fts)
  }

  lemma AllHoldAppend(a: Query, b: Query, r: Row, args: seq<Value>, fts: Matcher)
    ensures AllHold(a + b, r, args, fts) <==> AllHold(a, r, args, fts) && AllHold(b, r, args, fts)
  {
    assert forall i :: 0 <= i < |a| ==> (a + b)[i] == a[i];
    assert forall i :: 0 <= i < |b| ==> (a + b)[|a| + i] == b[i];
    if AllHold(a, r, args, fts) && AllHold(b, r, args, fts) {
      forall i | 0 <= i < |a + b| && (a + b)[i].Where? ensures Holds((a + b)[i].cond, r, args, fts) {
        if i >= |a| {
          assert (a + b)[i] == b[i - |a|];
        }
      }
    }
  }

  /** A query's conditions hold exactly when its first clause's does and the rest's do. */
  lemma AllHoldCons(q: Query, r: Row, args: seq<Value>, fts: Matcher)
    requires q != []
    ensures AllHold(q, r, args, fts) <==> (q[0].Where? ==> Holds(q[0].cond, r, args, fts)) && AllHold(q[1..], r, args, fts)
  {
    assert q == [q[0]] + q[1..];
    AllHoldAppend([q[0]], q[1..], r, args, fts);
  }

  /** The LIMIT/OFFSET clause of a query, if it has one (the last one wins). */
  function Paging(q: Query): Option<(nat, nat)> {
    if q == [] then None
    else match Paging(q[1..])
      case Some(p) => Some(p)
      case None => if q[0].OrderByCreatedDesc? then Some((q[0].limitParam, q[0].offsetParam)) else None
  }

  lemma PagingAppend(a: Query, b: Query)
    requires Paging(b).Some?
    ensures Paging(a + b) == Paging(b)
  {
    if a == [] {
      assert a + b == b;
    } else {
      assert (a + b)[1..] == a[1..] + b;
      PagingAppend(a[1..], b);
    }
  }

  lemma PagingNone(q: Query)
    requires forall i :: 0 <= i < |q| ==> q[i].Where?
    ensures Paging(q) == None
  {
    if q != [] {
      PagingNone(q[1..]);
    }
  }

  // ---------------------------------------------------------------------------------------
  // ORDER BY _created_at DESC, then OFFSET and LIMIT.

  predicate SortedByCreatedDesc(s: seq<Row>) {
    forall i, j :: 0 <= i < j < |s| ==> s[i].createdAt >= s[j].createdAt
  }

  /** Puts `x` before the first row that is not newer than it (so rows that tie keep their
      table order: PostgreSQL leaves that order unspecified, the model fixes one). */
  function InsertByCreatedDesc(x: Row, s: seq<Row>): (r: seq<Row>)
    ensures multiset(r) == multiset(s) + multiset{x}
    ensures |r| == |s| + 1
  {
    if s == [] || s[0].createdAt <= x.createdAt then [x] + s
    else
      assert s == [s[0]] + s[1..];
      [s[0]] + InsertByCreatedDesc(x, s[1..])
  }

  /** Inserting into a newest-first list keeps it newest first; the head is `x` or the old head. */
  lemma {:induction false} InsertKeepsSorted(x: Row, s: seq<Row>)
    requires SortedByCreatedDesc(s)
    ensures SortedByCreatedDesc(InsertByCreatedDesc(x, s))
    ensures var r := InsertByCreatedDesc(x, s); r[0] == x || (|s| > 0 && r[0] == s[0])
  {
    if s != [] && s[0].createdAt > x.createdAt {
      var t := InsertByCreatedDesc(x, s[1..]);
      InsertKeepsSorted(x, s[1..]);
      assert t[0].createdAt <= s[0].createdAt;
      var r := [s[0]] + t;
      forall i, j | 0 <= i < j < |r| ensures r[i].createdAt >= r[j].createdAt {
        assert r[j] == t[j - 1];
        if i > 0 {
          assert r[i] == t[i - 1];
        }
      }
    }
  }

  function SortByCreatedDesc(s: seq<Row>): (r: seq<Row>)
    ensures SortedByCreatedDesc(r)
    ensures multiset(r) == multiset(s)
    ensures |r| == |s|
  {
    if s == [] then []
    else
      assert s == [s[0]] + s[1..];
      InsertKeepsSorted(s[0], SortByCreatedDesc(s[1..]));
      InsertByCreatedDesc(s[0], SortByCreatedDesc(s[1..]))
  }

  /** `OFFSET o LIMIT l`: skip `o` rows, then keep at most `l` (no limit when NULL). */
  function Page(s: seq<Row>, offset: nat, limit: Option<nat>): (r: seq<Row>)
    ensures limit.Some? ==> |r| <= limit.value
    ensures offset >= |s| ==> r == []
    ensures exists k {:trigger s[k..]} :: 0 <= k <= |s| && r <= s[k..]
  {
    var lo := if offset < |s| then offset else |s|;
    var hi := if limit.Some? && lo + limit.value < |s| then lo + limit.value else |s|;
    assert s[lo..hi] <= s[lo..];
    s[lo..hi]
  }

  /** A page is the window of `s` that starts at the offset and holds as many rows as the
      limit allows; with no limit it runs to the end. */
  lemma PageWindow(s: seq<Row>, offset: nat, limit: Option<nat>)
    requires offset <= |s|
    ensures limit.Some? && offset + limit.value <= |s| ==> Page(s, offset, limit) == s[offset..offset + limit.value]
    ensures (limit.None? || offset + limit.value >= |s|) ==> Page(s, offset, limit) == s[offset..]
  {
  }

  /** Consecutive pages partition the rows: a page of `a` rows followed by the next page of `b`
      rows is the page of `a + b` rows, and the page from 0 with no limit is every row. */
  lemma PagesConcatenate(s: seq<Row>, offset: nat, a: nat, b: nat)
    ensures Page(s, offset, Some(a)) + Page(s, offset + a, Some(b)) == Page(s, offset, Some(a + b))
    ensures Page(s, 0, None) == s
  {
    var lo := if offset < |s| then offset else |s|;
    var mid := if lo + a < |s| then lo + a else |s|;
    var hi := if lo + a + b < |s| then lo + a + b else |s|;
    assert Page(s, offset, Some(a)) == s[lo..mid];
    assert Page(s, offset + a, Some(b)) == s[mid..hi];
    assert Page(s, offset, Some(a + b)) == s[lo..hi];
    assert s[lo..mid] + s[mid..hi] == s[lo..hi];
    assert s[0..|s|] == s;
  }

  lemma PageOfSorted(s: seq<Row>, offset: nat, limit: Option<nat>)
    requires SortedByCreatedDesc(s)
    ensures SortedByCreatedDesc(Page(s, offset, limit))
    ensures forall i :: 0 <= i < |Page(s, offset, limit)| ==> Page(s, offset, limit)[i] in s
  {
    var lo := if offset < |s| then offset else |s|;
    var hi := if limit.Some? && lo + limit.value < |s| then lo + limit.value else |s|;
    assert Page(s, offset, limit) == s[lo..hi];
    forall i | 0 <= i < hi - lo ensures s[lo..hi][i] in s {
      assert s[lo..hi][i] == s[lo + i];
    }
  }

  /** A LIMIT or OFFSET argument: an integer, or NULL for "none". */
  function PagingArg(v: Value): Option<int> {
    if v.IntV? then Some(v.i) else None
  }

  /** Runs a SELECT: pgx first checks the argument count, then the rows are filtered by the
      WHERE conditions, ordered, and cut by OFFSET and LIMIT. */
  function Select(rows: seq<Row>, q: Query, args: seq<Value>, fts: Matcher): Result<seq<Row>, Error> {
    if |args| != MaxParam(q) then Failure(Db(ArgumentCount(MaxParam(q), |args|)))
    else
      var kept := Filter(rows, r => AllHold(q, r, args, fts));
      match Paging(q)
      case None => Success(kept)
      case Some((l, o)) =>
        var limit := PagingArg(Arg(args, l));
        var offset := PagingArg(Arg(args, o));
        if offset.Some? && offset.value < 0 then Failure(Db(NegativeOffset))
        else if limit.Some? && limit.value < 0 then Failure(Db(NegativeLimit))
        else Success(Page(SortByCreatedDesc(kept),
                          if offset.Some? then offset.value else 0,
                          if limit.Some? then Some(limit.value as nat) else None))
  }

  /** Runs a `SELECT COUNT(*)`. */
  function SelectCount(rows: seq<Row>, q: Query, args: seq<Value>, fts: Matcher): Result<int, Error> {
    if |args| != MaxParam(q) then Failure(Db(ArgumentCount(MaxParam(q), |args|)))
    else Success(|Filter(rows, r => AllHold(q, r, args, fts))|)
  }

  // ---------------------------------------------------------------------------------------
  // The query constants of sql.go.

  /** `baseTemplate4ServiceNameListQuery`: only rows not soft-deleted and with a position. */
  const BaseListQuery: Query := [Where(IsFalse(DeletedColumn)), Where(IsNotNull(PositionColumn))]

  /** `template_4_your_project_nameListOrderBy`. */
  const ListOrderBy: Query := [OrderByCreatedDesc(1, 2)]

  /** `listTemplate4ServiceNamesConditions`. */
  const ListConditions: Query := OptionalFilters(3, 4, 5)

  /** `type_id = coalesce($a, type_id) AND _created_by = coalesce($b, _created_by) AND
      inactivated = coalesce($c, inactivated)`, the filter block of the list and count queries. */
  function OptionalFilters(a: nat, b: nat, c: nat): Query {
    [Where(EqualsCoalesce(TypeIdColumn, a)), Where(EqualsCoalesce(CreatedByColumn, b)),
     Where(EqualsCoalesce(InactivatedColumn, c))]
  }

  /** `listByExternalIdTemplate4ServiceNamesCondition`. */
  const ByExternalIdCondition: Query := [Where(Equals(ExternalIdColumn, 3))]

  /** `getTemplate4ServiceName` and `existTemplate4ServiceName`: the id only, never `_deleted`. */
  const ByIdQuery: Query := [Where(Equals(IdColumn, 1))]

  /** `isActiveTemplate4ServiceName`. */
  const IsActiveQuery: Query := [Where(IsFalse(InactivatedColumn)), Where(Equals(IdColumn, 1))]

  /** `existTemplate4ServiceNameOwnedBy`. */
  const OwnedByQuery: Query := [Where(Equals(IdColumn, 1)), Where(Equals(CreatedByColumn, 2))]

  /** The WHERE of `baseGeoJsonTemplate4ServiceNameSearch`, the same visibility as the lists. */
  const BaseGeoJsonQuery: Query := [Where(IsFalse(DeletedColumn)), Where(IsNotNull(PositionColumn))]

  /** `geoJsonListEndOfQuery`. */
  const GeoJsonEndOfQuery: Query := [OrderByCreatedDesc(1, 2)]

  // ---------------------------------------------------------------------------------------
  // What the WHERE blocks mean for one row.

  /** The base list query keeps exactly the rows not soft-deleted and with a position. */
  lemma BaseListMeaning(r: Row, args: seq<Value>, fts: Matcher)
    ensures AllHold(BaseListQuery, r, args, fts) <==> !r.deleted && r.position.Some?
  {
    AllHoldCons(BaseListQuery, r, args, fts);
    AllHoldCons(BaseListQuery[1..], r, args, fts);
  }

  /** A NULL argument makes its coalesce filter a no-op; a value makes it an equality. */
  lemma OptionalFiltersMeaning(a: nat, b: nat, c: nat, r: Row, args: seq<Value>, fts: Matcher,
                               typeId: Option<Int32>, createdBy: Option<Int32>, inactivated: Option<bool>)
    requires Arg(args, a) == IntOrNull(typeId)
    requires Arg(args, b) == IntOrNull(createdBy)
    requires Arg(args, c) == BoolOrNull(inactivated)
    ensures AllHold(OptionalFilters(a, b, c), r, args, fts) <==>
      && (typeId.None? || r.typeId == typeId.value)
      && (createdBy.None? || r.createdBy == createdBy.value)
      && (inactivated.None? || r.inactivated == inactivated.value)
  {
    var q := OptionalFilters(a, b, c);
    AllHoldCons(q, r, args, fts);
    AllHoldCons(q[1..], r, args, fts);
    AllHoldCons(q[2..], r, args, fts);
    assert q[1..][1..] == q[2..];
  }

  /** `validated = coalesce($n, validated)` with a bound value keeps the rows validated so;
      a row whose `validated` is NULL never matches. */
  lemma ValidatedMeaning(n: nat, r: Row, args: seq<Value>, fts: Matcher, validated: bool)
    requires Arg(args, n) == BoolV(validated)
    ensures AllHold([Where(EqualsCoalesce(ValidatedColumn, n))], r, args, fts) <==> r.validated == Some(validated)
  {
    AllHoldCons([Where(EqualsCoalesce(ValidatedColumn, n))], r, args, fts);
  }

  lemma KeywordMeaning(n: nat, r: Row, args: seq<Value>, fts: Matcher, keywords: string)
    requires Arg(args, n) == TextV(keywords)
    ensures AllHold([Where(MatchesText(n))], r, args, fts) <==> fts(r.textSearch, keywords)
  {
    AllHoldCons([Where(MatchesText(n))], r, args, fts);
  }

  /** `external_id = $n`: a row without an external id never matches. */
  lemma ExternalIdMeaning(r: Row, args: seq<Value>, fts: Matcher, externalId: int)
    requires Arg(args, 3) == IntV(externalId)
    ensures AllHold(ByExternalIdCondition, r, args, fts) <==> r.externalId.Some? && r.externalId.value as int == externalId
  {
    AllHoldCons(ByExternalIdCondition, r, args, fts);
  }

  lemma ByIdMeaning(r: Row, fts: Matcher, id: Uuid)
    ensures AllHold(ByIdQuery, r, [UuidV(id)], fts) <==> r.id == id
  {
    AllHoldCons(ByIdQuery, r, [UuidV(id)], fts);
  }

  lemma IsActiveMeaning(r: Row, fts: Matcher, id: Uuid)
    ensures AllHold(IsActiveQuery, r, [UuidV(id)], fts) <==> r.id == id && !r.inactivated
  {
    AllHoldCons(IsActiveQuery, r, [UuidV(id)], fts);
    AllHoldCons(IsActiveQuery[1..], r, [UuidV(id)], fts);
  }

  lemma OwnedByMeaning(r: Row, fts: Matcher, id: Uuid, userId: Int32)
    ensures AllHold(OwnedByQuery, r, [UuidV(id), IntV(userId as int)], fts) <==> r.id == id && r.createdBy == userId
  {
    AllHoldCons(OwnedByQuery, r, [UuidV(id), IntV(userId as int)], fts);
    AllHoldCons(OwnedByQuery[1..], r, [UuidV(id), IntV(userId as int)], fts);
  }

  lemma OrderByMeaning(r: Row, args: seq<Value>, fts: Matcher)
    ensures AllHold(ListOrderBy, r, args, fts)
  {
    AllHoldCons(ListOrderBy, r, args, fts);
  }

  /** The list projection of `baseTemplate4ServiceNameListQuery`. */
  function ListItem(r: Row): ThingList
    requires r.position.Some?
  {
    ThingList(r.id, r.typeId, r.name, r.description, r.externalId, r.inactivated, r.validated,
              r.status, r.createdBy, Some(r.createdAt), r.position.value.x, r.position.value.y)
  }

  /** The full projection of `getTemplate4ServiceName`; `pos_x`/`pos_y` cannot be NULL. */
  function RecordOf(r: Row): Result<Thing, Error> {
    if r.position.None? then Failure(Db(NullScan))
    else Success(Thing(r.id, r.typeId, r.name, r.description, r.comment, r.externalId, r.externalRef,
                       r.buildAt, r.status, r.containedBy, r.containedByOld, r.inactivated,
                       r.inactivatedTime, r.inactivatedBy, r.inactivatedReason, r.validated,
                       r.validatedTime, r.validatedBy, r.managedBy, Some(r.createdAt), r.createdBy,
                       r.lastModifiedAt, r.lastModifiedBy, r.deleted, r.deletedAt, r.deletedBy,
                       r.moreData, r.position.value.x, r.position.value.y))
  }

  /** `to_tsvector('french', unaccent($3) || ' ' || coalesce(unaccent($4), ' ') || ' ' ||
      coalesce(unaccent($5), ' '))`, before stemming (which the matcher does). */
  function TextDocument(name: string, description: Option<string>, comment: Option<string>): string {
    name + " " + description.GetOr(" ") + " " + comment.GetOr(" ")
  }

  /** The row `createTemplate4ServiceName` inserts. Columns it does not list are assumed to take
      the defaults active, not deleted and never modified; the table definition is not part of
      this model. */
  function InsertedRow(t: Thing, now: Time): Row {
    Row(t.id, t.typeId, t.name, t.description, t.comment, t.externalId, t.externalRef,
        t.buildAt, t.status, t.containedBy, t.containedByOld,
        false, None, None, None,
        t.validated, t.validatedTime, t.validatedBy, t.managedBy,
        now, t.createdBy, None, None,
        false, None, None,
        t.moreData, Some(Point(t.posX, t.posY)), TextDocument(t.name, t.description, t.comment))
  }

  /** The SET list of `updateTemplate4ServiceName` applied to one row. */
  function UpdatedRow(r: Row, t: Thing, now: Time): Row {
    r.(typeId := t.typeId, name := t.name, description := t.description, comment := t.comment,
       externalId := t.externalId, externalRef := t.externalRef, buildAt := t.buildAt,
       status := t.status, containedBy := t.containedBy, containedByOld := t.containedByOld,
       inactivated := t.inactivated, inactivatedTime := t.inactivatedTime,
       inactivatedBy := t.inactivatedBy, inactivatedReason := t.inactivatedReason,
       validated := t.validated, validatedTime := t.validatedTime, validatedBy := t.validatedBy,
       managedBy := t.managedBy, lastModifiedAt := Some(now), lastModifiedBy := t.lastModifiedBy,
       moreData := t.moreData, position := Some(Point(t.posX, t.posY)),
       textSearch := TextDocument(t.name, t.description, t.comment))
  }

  /** The SET list of `deleteTemplate4ServiceName`: a soft delete. */
  function SoftDeletedRow(r: Row, userId: Int32, now: Time): Row {
    r.(deleted := true, deletedBy := Some(userId), deletedAt := Some(now))
  }

  /** Number of rows a `WHERE id = $n` statement touches. */
  function CountId(rows: seq<Row>, id: Uuid): (n: nat)
    ensures n <= |rows|
    ensures n == 0 <==> forall i :: 0 <= i < |rows| ==> rows[i].id != id
  {
    if rows == [] then 0 else (if rows[0].id == id then 1 else 0) + CountId(rows[1..], id)
  }

  /** `UPDATE ... SET <update list> WHERE id = $1`. */
  function UpdateWhereId(rows: seq<Row>, id: Uuid, t: Thing, now: Time): (r: seq<Row>)
    ensures |r| == |rows|
    ensures forall i :: 0 <= i < |rows| ==> r[i] == if rows[i].id == id then UpdatedRow(rows[i], t, now) else rows[i]
  {
    seq(|rows|, i requires 0 <= i < |rows| => if rows[i].id == id then UpdatedRow(rows[i], t, now) else rows[i])
  }

  /** `UPDATE ... SET _deleted = true, ... WHERE id = $2`. */
  function SoftDeleteWhereId(rows: seq<Row>, id: Uuid, userId: Int32, now: Time): (r: seq<Row>)
    ensures |r| == |rows|
    ensures forall i :: 0 <= i < |rows| ==> r[i] == if rows[i].id == id then SoftDeletedRow(rows[i], userId, now) else rows[i]
  {
    seq(|rows|, i requires 0 <= i < |rows| => if rows[i].id == id then SoftDeletedRow(rows[i], userId, now) else rows[i])
  }
}
