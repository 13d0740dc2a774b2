/** What the store's reads and writes promise, proved on their reference definitions. */
module StorageProperties {
  import opened Wrappers
  import opened GoInt
  import opened Domain
  import opened Errors
  import opened Seqs
  import opened Sql
  import opened Storage

  predicate UniqueIds(rows: seq<Row>) {
    forall i, j :: 0 <= i < j < |rows| ==> rows[i].id != rows[j].id
  }

  predicate SameIds(a: seq<Row>, b: seq<Row>) {
    |a| == |b| && forall i :: 0 <= i < |a| ==> a[i].id == b[i].id
  }

  /** Position `k` of `rows` exists and holds `r`. */
  predicate RowAt(rows: seq<Row>, k: int, r: Row) {
    0 <= k < |rows| && rows[k] == r
  }

  // ---------------------------------------------------------------------------------------
  // Reads.

  /** A page holds rows of `kept`, newest first, and no more than `limit` of them. */
  lemma PagedRowsKept(kept: seq<Row>, offset: int, limit: int)
    ensures Paged(kept, offset, limit).Success? ==>
      var page := Paged(kept, offset, limit).value;
      && |page| <= limit
      && SortedByCreatedDesc(page)
      && forall i :: 0 <= i < |page| ==> page[i] in kept
  {
    if Paged(kept, offset, limit).Success? {
      var sorted := SortByCreatedDesc(kept);
      PageOfSorted(sorted, offset, Some(limit));
      forall i | 0 <= i < |sorted| ensures sorted[i] in kept {
        assert sorted[i] in multiset(kept);
      }
    }
  }

  /** List shows only live, positioned rows that pass its filters, newest first; with no
      `inactivated` filter it shows only active rows. */
  lemma ListRowsVisible(env: Env, rows: seq<Row>, offset: int, limit: int, p: ListParams)
    ensures ListRows(env, rows, offset, limit, p).Success? ==>
      var page := ListRows(env, rows, offset, limit, p).value;
      && |page| <= limit
      && SortedByCreatedDesc(page)
      && forall i :: 0 <= i < |page| ==>
           && page[i] in rows && !page[i].deleted && page[i].position.Some?
           && (p.inactivated.None? ==> !page[i].inactivated)
           && (p.typeId.Some? ==> page[i].typeId == p.typeId.value)
           && (p.validated.Some? ==> page[i].validated == p.validated)
  {
    var kept := Filter(rows, r => ListVisible(r, p));
    PagedRowsKept(kept, offset, limit);
  }

  /** A missing `inactivated` filter means "active only" in List: the same answer as `false`. */
  lemma ListInactivatedDefault(env: Env, rows: seq<Row>, offset: int, limit: int, p: ListParams)
    requires p.inactivated.None?
    ensures ListSpec(env, rows, offset, limit, p) == ListSpec(env, rows, offset, limit, p.(inactivated := Some(false)))
  {
    var p' := p.(inactivated := Some(false));
    FilterExtensional(rows, r => ListVisible(r, p), r => ListVisible(r, p'));
  }

  /** In Search and Count a missing `inactivated` filter means "any": the count is the sum of
      the active and the inactive counts. */
  lemma CountInactivatedAny(env: Env, rows: seq<Row>, p: CountParams)
    requires p.inactivated.None?
    requires |rows| < 0x8000_0000
    requires SelectCountThings !in env.failing
    ensures CountSpec(env, rows, p).value as int ==
      CountSpec(env, rows, p.(inactivated := Some(true))).value as int +
      CountSpec(env, rows, p.(inactivated := Some(false))).value as int
  {
    var pt := p.(inactivated := Some(true));
    var pf := p.(inactivated := Some(false));
    var all := Filter(rows, r => SearchVisible(r, p, env.fts));
    var active := Filter(rows, r => SearchVisible(r, pf, env.fts));
    var inactive := Filter(rows, r => SearchVisible(r, pt, env.fts));
    FilterSplit(rows, r => SearchVisible(r, p, env.fts), r => SearchVisible(r, pt, env.fts), r => SearchVisible(r, pf, env.fts));
    assert |all| == |inactive| + |active|;
    assert ToInt32(|all|) as int == |all|;
    assert ToInt32(|active|) as int == |active|;
    assert ToInt32(|inactive|) as int == |inactive|;
  }

  /** Search shows only live, positioned rows matching its filters and keywords, newest first. */
  lemma SearchRowsVisible(env: Env, rows: seq<Row>, offset: int, limit: int, p: SearchParams)
    ensures SearchRows(env, rows, offset, limit, p).Success? ==>
      var page := SearchRows(env, rows, offset, limit, p).value;
      && |page| <= limit
      && SortedByCreatedDesc(page)
      && forall i :: 0 <= i < |page| ==>
           && page[i] in rows && !page[i].deleted && page[i].position.Some?
           && (p.keywords.Some? ==> env.fts(page[i].textSearch, p.keywords.value))
           && (p.inactivated.Some? ==> page[i].inactivated == p.inactivated.value)
  {
    var kept := Filter(rows, r => SearchVisible(r, p, env.fts));
    PagedRowsKept(kept, offset, limit);
  }

  /** The list reads answer `pgx.ErrNoRows` exactly when the page is empty. */
  lemma ListNoRowsIffEmpty(env: Env, rows: seq<Row>, offset: int, limit: int, p: ListParams)
    ensures ListSpec(env, rows, offset, limit, p) == Failure(NoRows) <==> ListRows(env, rows, offset, limit, p) == Success([])
    ensures ListSpec(env, rows, offset, limit, p).Success? ==>
      |ListSpec(env, rows, offset, limit, p).value| == |ListRows(env, rows, offset, limit, p).value| > 0
  {
    var kept := Filter(rows, r => ListVisible(r, p));
    if ListRows(env, rows, offset, limit, p).Failure? {
      assert ListRows(env, rows, offset, limit, p).error != NoRows;
    }
  }

  /** A negative OFFSET is reported before a negative LIMIT. */
  lemma NegativeOffsetFirst(env: Env, rows: seq<Row>, offset: int, limit: int, p: ListParams)
    requires SelectList !in env.failing
    requires offset < 0
    ensures ListSpec(env, rows, offset, limit, p) == Failure(Db(NegativeOffset))
  {
  }

  /** As written, Count with keywords and `validated` always fails, where the corrected
      statement succeeds. */
  lemma CountKeywordValidatedFails(env: Env, rows: seq<Row>, p: CountParams)
    requires p.keywords.Some? && p.validated.Some?
    requires SelectCountThings !in env.failing
    ensures CountAsWrittenSpec(env, rows, p) == Failure(Db(ArgumentCount(4, 5)))
    ensures CountSpec(env, rows, p) == Success(ToInt32(|Filter(rows, r => SearchVisible(r, p, env.fts))|))
  {
  }

  /** Every other Count statement agrees with the corrected one. */
  lemma CountAsWrittenElsewhereCorrect(env: Env, rows: seq<Row>, p: CountParams)
    requires !(p.keywords.Some? && p.validated.Some?)
    ensures CountAsWrittenSpec(env, rows, p) == CountSpec(env, rows, p)
  {
  }

  // ---------------------------------------------------------------------------------------
  // Writes.

  lemma FilterNoId(rows: seq<Row>, id: Uuid)
    requires !HasId(rows, id)
    ensures Filter(rows, (r: Row) => r.id == id) == []
  {
    FilterNone(rows, (r: Row) => r.id == id);
  }

  /** A successful Create returns the stored row: the caller's fields, `createdBy` as given,
      created now, active and not deleted whatever the input said. It never answers (nil, nil). */
  lemma CreateStamps(env: Env, st: DbState, t: Thing, now: Time)
    ensures CreateSpec(env, st, t, now).0 != Success(None)
    ensures CreateSpec(env, st, t, now).0.Success? ==>
      var x := CreateSpec(env, st, t, now).0.value.value;
      && x.id == t.id && x.name == t.name && x.typeId == t.typeId && x.description == t.description
      && x.createdBy == t.createdBy && x.createdAt == Some(now)
      && !x.inactivated && x.inactivatedTime.None? && !x.deleted && x.deletedAt.None?
      && x.lastModifiedAt.None? && x.posX == t.posX && x.posY == t.posY
    ensures CreateSpec(env, st, t, now).0.Success? ==>
      CreateSpec(env, st, t, now).1.things == st.things + [InsertedRow(t, now)]
  {
    var row := InsertedRow(t, now);
    if InsertThing !in env.failing && !HasId(st.things, t.id) && SelectGet !in env.failing {
      FilterAppend(st.things, [row], (r: Row) => r.id == t.id);
      FilterNoId(st.things, t.id);
    }
  }

  /** Create refuses an id already present, leaving the table as it was. */
  lemma CreateDuplicateRefused(env: Env, st: DbState, t: Thing, now: Time)
    requires InsertThing !in env.failing
    requires HasId(st.things, t.id)
    ensures CreateSpec(env, st, t, now) == (Failure(Db(UniqueViolation)), st)
  {
  }

  /** Update and Delete never change ids, so the id of every row stays where it was. */
  lemma UpdateKeepsIds(env: Env, st: DbState, key: Uuid, t: Thing, now: Time)
    ensures SameIds(st.things, UpdateSpec(env, st, key, t, now).1.things)
  {
  }

  lemma DeleteKeepsIds(env: Env, st: DbState, id: Uuid, userId: Int32, now: Time)
    ensures SameIds(st.things, DeleteSpec(env, st, id, userId, now).1.things)
  {
  }

  lemma {:induction false} SameIdsCount(a: seq<Row>, b: seq<Row>, id: Uuid)
    requires SameIds(a, b)
    ensures CountId(a, id) == CountId(b, id)
    ensures HasId(a, id) == HasId(b, id)
  {
    if a != [] {
      assert SameIds(a[1..], b[1..]) by {
        forall i | 0 <= i < |a[1..]| ensures a[1..][i].id == b[1..][i].id {
          assert a[1..][i] == a[i + 1] && b[1..][i] == b[i + 1];
        }
      }
      SameIdsCount(a[1..], b[1..], id);
    }
    if HasId(a, id) {
      var i :| 0 <= i < |a| && a[i].id == id;
      assert b[i].id == id;
    }
    if HasId(b, id) {
      var i :| 0 <= i < |b| && b[i].id == id;
      assert a[i].id == id;
    }
  }

  /** Every write keeps the ids of the table unique. */
  lemma WritesKeepIdsUnique(env: Env, st: DbState, key: Uuid, t: Thing, userId: Int32, now: Time)
    requires UniqueIds(st.things)
    ensures UniqueIds(CreateSpec(env, st, t, now).1.things)
    ensures UniqueIds(UpdateSpec(env, st, key, t, now).1.things)
    ensures UniqueIds(DeleteSpec(env, st, key, userId, now).1.things)
  {
    var rows := CreateSpec(env, st, t, now).1.things;
    if rows != st.things {
      assert rows == st.things + [InsertedRow(t, now)];
      forall i, j | 0 <= i < j < |rows| ensures rows[i].id != rows[j].id {
        if j == |st.things| {
          assert rows[i] == st.things[i];
        }
      }
    }
    UpdateKeepsIds(env, st, key, t, now);
    DeleteKeepsIds(env, st, key, userId, now);
  }

  /** Update rewrites the rows with the key and leaves `id`, `_created_*` and `_deleted*`
      alone; it stamps the modification; rows with another id are untouched. */
  lemma UpdateColumns(env: Env, st: DbState, key: Uuid, t: Thing, now: Time)
    requires UpdateThing !in env.failing
    ensures var rows := UpdateSpec(env, st, key, t, now).1.things;
      && |rows| == |st.things|
      && forall i :: 0 <= i < |rows| ==>
           && rows[i].id == st.things[i].id
           && rows[i].createdAt == st.things[i].createdAt && rows[i].createdBy == st.things[i].createdBy
           && rows[i].deleted == st.things[i].deleted && rows[i].deletedAt == st.things[i].deletedAt
           && rows[i].deletedBy == st.things[i].deletedBy
           && (st.things[i].id != key ==> rows[i] == st.things[i])
           && (st.things[i].id == key ==>
                 rows[i].lastModifiedAt == Some(now) && rows[i].lastModifiedBy == t.lastModifiedBy
                 && rows[i].name == t.name && rows[i].textSearch == TextDocument(t.name, t.description, t.comment))
  {
  }

  /** Update reaches a soft-deleted row: it succeeds and returns the row, still deleted. */
  lemma UpdateReachesDeletedRow(env: Env, st: DbState, key: Uuid, t: Thing, now: Time, k: int)
    requires UpdateThing !in env.failing && SelectGet !in env.failing
    requires UniqueIds(st.things)
    requires 0 <= k < |st.things| && st.things[k].id == key && st.things[k].deleted
    ensures UpdateSpec(env, st, key, t, now).0.Success?
    ensures UpdateSpec(env, st, key, t, now).0.value.Some?
    ensures UpdateSpec(env, st, key, t, now).0.value.value.deleted
    ensures UpdateSpec(env, st, key, t, now).0.value.value.name == t.name
  {
    var rows := UpdateWhereId(st.things, key, t, now);
    assert CountId(st.things, key) != 0;
    FilterSingle(rows, (r: Row) => r.id == key, k);
  }

  /** `getTemplate4ServiceName` reads the first row, in table order, with the id. */
  lemma GetSpecReadsFirst(env: Env, rows: seq<Row>, id: Uuid)
    ensures GetSpec(env, rows, id).Success? ==> exists k :: FirstWithId(rows, id, k) && RecordOf(rows[k]) == GetSpec(env, rows, id)
  {
    if GetSpec(env, rows, id).Success? {
      var f := (r: Row) => r.id == id;
      FilterHead(rows, f);
      var k :| 0 <= k < |rows| && rows[k] == Filter(rows, f)[0] && f(rows[k]) && forall j :: 0 <= j < k ==> !f(rows[j]);
      assert FirstWithId(rows, id, k);
    }
  }

  /** After a successful Delete, Exist, IsUserOwner and Get still see the row: none of them
      looks at `_deleted`. */
  lemma DeleteKeepsRowVisibleById(env: Env, st: DbState, id: Uuid, userId: Int32, now: Time, owner: Int32)
    requires DeleteSpec(env, st, id, userId, now).0 == None
    ensures var rows := DeleteSpec(env, st, id, userId, now).1.things;
      && HasId(rows, id)
      && ExistSpec(env, rows, id) == ExistSpec(env, st.things, id)
      && OwnerSpec(env, rows, id, owner) == OwnerSpec(env, st.things, id, owner)
  {
    var rows := SoftDeleteWhereId(st.things, id, userId, now);
    DeleteKeepsIds(env, st, id, userId, now);
    SameIdsCount(st.things, rows, id);
    assert CountId(st.things, id) != 0;
    if OwnerSpec(env, st.things, id, owner) {
      var i :| 0 <= i < |st.things| && st.things[i].id == id && st.things[i].createdBy == owner;
      assert rows[i].id == id && rows[i].createdBy == owner;
    }
    if OwnerSpec(env, rows, id, owner) {
      var i :| 0 <= i < |rows| && rows[i].id == id && rows[i].createdBy == owner;
      assert st.things[i].id == id && st.things[i].createdBy == owner;
    }
  }

  /** A successful Delete can be repeated: the second one succeeds as well. */
  lemma DeleteRepeatable(env: Env, st: DbState, id: Uuid, userId: Int32, now: Time, now2: Time)
    requires DeleteSpec(env, st, id, userId, now).0 == None
    ensures DeleteSpec(env, DeleteSpec(env, st, id, userId, now).1, id, userId, now2).0 == None
  {
    var st' := DeleteSpec(env, st, id, userId, now).1;
    DeleteKeepsIds(env, st, id, userId, now);
    SameIdsCount(st.things, st'.things, id);
  }

  /** After a successful Delete the row is in no list. */
  lemma DeleteHidesFromLists(env: Env, st: DbState, id: Uuid, userId: Int32, now: Time, p: ListParams)
    requires DeleteThing !in env.failing
    ensures var kept := Filter(DeleteSpec(env, st, id, userId, now).1.things, r => ListVisible(r, p));
      forall i :: 0 <= i < |kept| ==> kept[i].id != id
  {
  }

  /** Delete changes nothing but the `_deleted*` columns of the rows with that id. */
  lemma DeleteOnlyMarks(env: Env, st: DbState, id: Uuid, userId: Int32, now: Time)
    requires DeleteThing !in env.failing
    ensures var rows := DeleteSpec(env, st, id, userId, now).1.things;
      && |rows| == |st.things|
      && forall i :: 0 <= i < |rows| ==>
           && rows[i].(deleted := st.things[i].deleted, deletedAt := st.things[i].deletedAt, deletedBy := st.things[i].deletedBy) == st.things[i]
           && (st.things[i].id == id ==> rows[i].deleted && rows[i].deletedBy == Some(userId) && rows[i].deletedAt == Some(now))
           && (st.things[i].id != id ==> rows[i] == st.things[i])
  {
  }

  /** Update as written ignores the id it is given: with a body naming another row, the row
      named by the caller is untouched and the body's row is rewritten. */
  lemma UpdateAsWrittenIgnoresId(env: Env, st: DbState, id: Uuid, t: Thing, now: Time)
    requires UpdateThing !in env.failing
    requires t.id != id
    ensures var rows := UpdateSpec(env, st, t.id, t, now).1.things;
      forall i :: 0 <= i < |rows| ==>
        && (st.things[i].id == id ==> rows[i] == st.things[i])
        && (st.things[i].id == t.id ==> rows[i] == UpdatedRow(st.things[i], t, now))
  {
  }

  /** Keyed by the caller's id, Update touches that row and no other. */
  lemma UpdateByIdTouchesOnlyId(env: Env, st: DbState, id: Uuid, t: Thing, now: Time)
    requires UpdateThing !in env.failing
    ensures var rows := UpdateSpec(env, st, id, t, now).1.things;
      forall i :: 0 <= i < |rows| ==>
        (st.things[i].id != id ==> rows[i] == st.things[i]) && (st.things[i].id == id ==> rows[i] == UpdatedRow(st.things[i], t, now))
  {
  }

  // ---------------------------------------------------------------------------------------
  // Categories.

  /** A created category gets the next id and the insert's defaults. */
  lemma CreateTypeStamps(env: Env, st: DbState, tt: TypeThing, now: Time)
    ensures CreateTypeSpec(env, st, tt, now).0.Success? ==>
      var x := CreateTypeSpec(env, st, tt, now).0.value;
      && x.id == env.nextTypeId(st.types) && env.nextTypeId(st.types) !in st.types
      && x.name == tt.name && x.createdBy == tt.createdBy && x.createdAt == Some(now)
      && !x.inactivated && !x.deleted && x.lastModifiedAt.None?
  {
    var id := env.nextTypeId(st.types);
    assert ToInt32(id as int) == id;
  }

  /** A successful category delete can be repeated, and the category is still there. */
  lemma DeleteTypeIsSoft(env: Env, st: DbState, id: Int32, userId: Int32, now: Time)
    requires DeleteTypeSpec(env, st, id, userId, now).0 == None
    ensures var st' := DeleteTypeSpec(env, st, id, userId, now).1;
      && id in st'.types && st'.types[id].deleted
      && (SelectGetType !in env.failing ==> GetTypeSpec(env, st'.types, id).Success?)
      && DeleteTypeSpec(env, st', id, userId, now).0 == None
  {
  }
}
