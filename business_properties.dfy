/** What the business layer promises, proved on its reference definitions. */
module BusinessProperties {
  import opened Wrappers
  import opened GoInt
  import opened Domain
  import opened Errors
  import opened Seqs
  import opened Text
  import opened Sql
  import opened Storage
  import opened StorageProperties
  import opened Business

  /** A refusal by a business rule: the error chain ends in the sentinel `k`. */
  predicate Refused(e: Error, k: Kind) {
    Root(e) == Sentinel(k)
  }

  // ---------------------------------------------------------------------------------------
  // The name rule.

  /** Only an all-space name is empty. */
  lemma ValidateNameEmpty()
    ensures ValidateName("") == Some(EmptyName)
    ensures ValidateName("   ") == Some(EmptyName)
  {
    assert AllSpaces("   ");
  }

  /** Fewer than five bytes is too short. */
  lemma ValidateNameShort()
    ensures ValidateName("ab") == Some(NameTooShort)
  {
    assert "ab"[0] != ' ';
  }

  /** Five bytes are enough, and the spaces around the name count. */
  lemma ValidateNameAccepted()
    ensures ValidateName("12345") == None
    ensures ValidateName("    a") == None
  {
    assert "12345"[0] != ' ';
    assert "    a"[4] != ' ';
  }

  /** The length counts bytes, not characters: "é" is two bytes in UTF-8. */
  lemma ValidateNameCountsBytes()
    ensures ValidateName("éé") == Some(NameTooShort)
    ensures ValidateName("ééé") == None
  {
    assert "éé"[0] != ' ';
    assert "ééé"[0] != ' ';
  }

  // ---------------------------------------------------------------------------------------
  // Store failures are never mistaken for a business refusal.

  lemma CreateSpecNotRefused(env: Env, st: DbState, t: Thing, now: Time)
    ensures CreateSpec(env, st, t, now).0.Failure? ==> !Root(CreateSpec(env, st, t, now).0.error).Sentinel?
  {
  }

  lemma UpdateSpecNotRefused(env: Env, st: DbState, key: Uuid, t: Thing, now: Time)
    ensures UpdateSpec(env, st, key, t, now).0.Failure? ==> !Root(UpdateSpec(env, st, key, t, now).0.error).Sentinel?
  {
    if UpdateThing !in env.failing {
      var rows := UpdateWhereId(st.things, key, t, now);
      GetSpecErrors(env, rows, key);
      if GetSpec(env, rows, key).Failure? {
        assert Root(Wrapped(UpdatedNotRetrievable, GetSpec(env, rows, key).error)) == GetSpec(env, rows, key).error;
      }
    }
  }

  /** A read by id fails only with a database error or "no rows". */
  lemma GetSpecErrors(env: Env, rows: seq<Row>, id: Uuid)
    ensures GetSpec(env, rows, id).Failure? ==> GetSpec(env, rows, id).error.Db? || GetSpec(env, rows, id).error == NoRows
  {
    var found := Filter(rows, (r: Row) => r.id == id);
    if SelectGet !in env.failing && found != [] && found[0].position.Some? {
      assert RecordOf(found[0]).Success?;
    }
  }

  lemma DeleteSpecNotRefused(env: Env, st: DbState, id: Uuid, userId: Int32, now: Time)
    ensures DeleteSpec(env, st, id, userId, now).0.Some? ==> !Root(DeleteSpec(env, st, id, userId, now).0.value).Sentinel?
  {
  }

  // ---------------------------------------------------------------------------------------
  // Create.

  /** Create's checks, in order: the name, then the category, then a duplicate id; each
      refusal is decided by its own check and by the ones before it passing, and leaves the
      database as it was. The state changes only through the store's insert. */
  lemma CreateChecksInOrder(env: Env, st: DbState, userId: Int32, t: Thing, now: Time)
    ensures var (r, st') := CreateFlow(env, st, userId, t, now);
      && (r.Failure? && Refused(r.error, InvalidInput) <==> ValidateName(t.name).Some?)
      && (r.Failure? && Refused(r.error, TypeNotFound) <==>
            ValidateName(t.name).None? && !TypePresent(env, st.types, t.typeId))
      && (r.Failure? && Refused(r.error, AlreadyExists) <==>
            ValidateName(t.name).None? && TypePresent(env, st.types, t.typeId) && ExistSpec(env, st.things, t.id))
      && (r.Failure? && Root(r.error).Sentinel? ==> st' == st)
      && (st' != st ==> st' == CreateSpec(env, st, t.(createdBy := userId), now).1)
  {
    if ValidateName(t.name).None? && TypePresent(env, st.types, t.typeId) && !ExistSpec(env, st.things, t.id) {
      CreateSpecNotRefused(env, st, t.(createdBy := userId), now);
    }
  }

  /** An invalid name is refused whatever the database holds or does. */
  lemma CreateNameNeedsNoDatabase(env: Env, env2: Env, st: DbState, st2: DbState, userId: Int32, t: Thing, now: Time)
    requires ValidateName(t.name).Some?
    ensures CreateFlow(env, st, userId, t, now).0 == CreateFlow(env2, st2, userId, t, now).0
    ensures CreateFlow(env, st, userId, t, now).1 == st
  {
  }

  /** The creator is the caller: the input's `createdBy` is ignored. */
  lemma CreateIgnoresInputCreator(env: Env, st: DbState, userId: Int32, t: Thing, createdBy: Int32, now: Time)
    ensures CreateFlow(env, st, userId, t, now) == CreateFlow(env, st, userId, t.(createdBy := createdBy), now)
  {
    var t2 := t.(createdBy := createdBy);
    assert t.(createdBy := userId) == t2.(createdBy := userId);
    if ValidateName(t.name).None? && TypePresent(env, st.types, t.typeId) && !ExistSpec(env, st.things, t.id) {
      CreatePasses(env, st, userId, t, now);
      CreatePasses(env, st, userId, t2, now);
    }
  }

  /** A created record is owned by the caller, carries the caller's fields and is live. */
  lemma CreateSetsCreator(env: Env, st: DbState, userId: Int32, t: Thing, now: Time)
    ensures CreateFlow(env, st, userId, t, now).0.Success? ==>
      var x := CreateFlow(env, st, userId, t, now).0.value;
      x.createdBy == userId && x.id == t.id && x.name == t.name && !x.deleted && x.createdAt == Some(now)
  {
    CreateStamps(env, st, t.(createdBy := userId), now);
    if ValidateName(t.name).None? && TypePresent(env, st.types, t.typeId) && !ExistSpec(env, st.things, t.id) {
      CreatePasses(env, st, userId, t, now);
    }
  }

  /** Past its three checks, Create answers the store's insert of the input owned by the caller. */
  lemma CreatePasses(env: Env, st: DbState, userId: Int32, t: Thing, now: Time)
    requires ValidateName(t.name).None? && TypePresent(env, st.types, t.typeId) && !ExistSpec(env, st.things, t.id)
    ensures var (res, st') := CreateSpec(env, st, t.(createdBy := userId), now);
      && (res.Success? ==> res.value.Some?)
      && CreateFlow(env, st, userId, t, now) ==
           (if res.Failure? then Failure(Wrapped(Creating, res.error)) else Success(res.value.value), st')
  {
    CreateStamps(env, st, t.(createdBy := userId), now);
  }

  /** With every check passing and a working database, Create stores exactly one new row. */
  lemma CreateSucceedsWhenValid(env: Env, st: DbState, userId: Int32, t: Thing, now: Time)
    requires ValidateName(t.name).None? && TypePresent(env, st.types, t.typeId)
    requires !HasId(st.things, t.id)
    requires InsertThing !in env.failing && SelectGet !in env.failing
    ensures CreateFlow(env, st, userId, t, now).0.Success?
    ensures CreateFlow(env, st, userId, t, now).1 == st.(things := st.things + [InsertedRow(t.(createdBy := userId), now)])
  {
    var t' := t.(createdBy := userId);
    var row := InsertedRow(t', now);
    FilterAppend(st.things, [row], (r: Row) => r.id == t'.id);
    FilterNoId(st.things, t'.id);
    assert Filter([row], (r: Row) => r.id == t'.id) == [row];
  }

  // ---------------------------------------------------------------------------------------
  // Update and Delete.

  /** Update's checks, in order: existence, ownership, the name, the category. */
  lemma UpdateChecksInOrder(env: Env, st: DbState, userId: Int32, id: Uuid, t: Thing, now: Time)
    ensures var r := UpdateFlow(env, st, userId, id, t, now).0;
      && (r.Failure? && Refused(r.error, NotFound) <==> !ExistSpec(env, st.things, id))
      && (r.Failure? && Refused(r.error, Unauthorized) <==>
            ExistSpec(env, st.things, id) && !OwnerSpec(env, st.things, id, userId))
      && (r.Failure? && Refused(r.error, InvalidInput) <==>
            ExistSpec(env, st.things, id) && OwnerSpec(env, st.things, id, userId) && ValidateName(t.name).Some?)
      && (r.Failure? && Refused(r.error, TypeNotFound) <==>
            ExistSpec(env, st.things, id) && OwnerSpec(env, st.things, id, userId) && ValidateName(t.name).None?
            && !TypePresent(env, st.types, t.typeId))
  {
    if ExistSpec(env, st.things, id) && OwnerSpec(env, st.things, id, userId) && ValidateName(t.name).None?
       && TypePresent(env, st.types, t.typeId) {
      UpdatePasses(env, st, userId, id, t, now);
      UpdateSpecNotRefused(env, st, id, t.(lastModifiedBy := Some(userId)), now);
    }
  }

  /** Once every check passes, Update is the store's update keyed by `id`, with the caller as
      last modifier. */
  lemma UpdatePasses(env: Env, st: DbState, userId: Int32, id: Uuid, t: Thing, now: Time)
    requires ExistSpec(env, st.things, id) && OwnerSpec(env, st.things, id, userId)
    requires ValidateName(t.name).None? && TypePresent(env, st.types, t.typeId)
    ensures var t' := t.(lastModifiedBy := Some(userId));
      var (res, st') := UpdateSpec(env, st, id, t', now);
      && (res.Success? ==> res.value.Some?)
      && UpdateFlow(env, st, userId, id, t, now) ==
           (if res.Failure? then Failure(Wrapped(Updating, res.error)) else Success(res.value.value), st')
  {
    UpdatePresentAnswers(env, st, id, t.(lastModifiedBy := Some(userId)), now);
  }

  /** A refusal by any of Update's checks leaves the database as it was. */
  lemma UpdateRefusalWritesNothing(env: Env, st: DbState, userId: Int32, id: Uuid, t: Thing, now: Time)
    ensures var (r, st') := UpdateFlow(env, st, userId, id, t, now);
      r.Failure? && Root(r.error).Sentinel? ==> st' == st
  {
    if ExistSpec(env, st.things, id) && OwnerSpec(env, st.things, id, userId) && ValidateName(t.name).None?
       && TypePresent(env, st.types, t.typeId) {
      UpdatePasses(env, st, userId, id, t, now);
      UpdateSpecNotRefused(env, st, id, t.(lastModifiedBy := Some(userId)), now);
    }
  }

  /** With ids unique, Update keyed by the id of row `k` answers that row, rewritten. */
  lemma UpdateReturnsKeyedRow(env: Env, st: DbState, key: Uuid, t: Thing, now: Time, k: int)
    requires UniqueIds(st.things)
    requires 0 <= k < |st.things| && st.things[k].id == key
    ensures UpdateSpec(env, st, key, t, now).0.Success? ==>
      UpdateSpec(env, st, key, t, now).0 == Success(Some(RecordOf(UpdatedRow(st.things[k], t, now)).value))
  {
    var rows := UpdateWhereId(st.things, key, t, now);
    assert CountId(st.things, key) != 0;
    FilterSingle(rows, (r: Row) => r.id == key, k);
  }

  /** A successful Update returns the caller's row, owned by the caller, rewritten with the
      body and stamped with the caller as last modifier. */
  lemma UpdateStampsModifier(env: Env, st: DbState, userId: Int32, id: Uuid, t: Thing, now: Time)
    requires UniqueIds(st.things)
    ensures var r := UpdateFlow(env, st, userId, id, t, now).0;
      r.Success? ==>
        && r.value.id == id && r.value.createdBy == userId && r.value.name == t.name
        && r.value.lastModifiedBy == Some(userId) && r.value.lastModifiedAt == Some(now)
  {
    var r := UpdateFlow(env, st, userId, id, t, now).0;
    if r.Success? {
      var t' := t.(lastModifiedBy := Some(userId));
      UpdatePasses(env, st, userId, id, t, now);
      var j :| 0 <= j < |st.things| && st.things[j].id == id && st.things[j].createdBy == userId;
      UpdateReturnsKeyedRow(env, st, id, t', now, j);
    }
  }

  /** Update rewrites the caller's row only: every row with another id stays as it was. */
  lemma UpdateTouchesOnlyCallerRow(env: Env, st: DbState, userId: Int32, id: Uuid, t: Thing, now: Time)
    ensures var st' := UpdateFlow(env, st, userId, id, t, now).1;
      && |st'.things| == |st.things|
      && forall i :: 0 <= i < |st.things| && st.things[i].id != id ==> st'.things[i] == st.things[i]
  {
    if ExistSpec(env, st.things, id) && OwnerSpec(env, st.things, id, userId) && ValidateName(t.name).None?
       && TypePresent(env, st.types, t.typeId) {
      var t' := t.(lastModifiedBy := Some(userId));
      UpdatePasses(env, st, userId, id, t, now);
      assert UpdateFlow(env, st, userId, id, t, now).1 == UpdateSpec(env, st, id, t', now).1;
      if UpdateThing !in env.failing {
        UpdateColumns(env, st, id, t', now);
        UpdateByIdTouchesOnlyId(env, st, id, t', now);
      } else {
        assert UpdateSpec(env, st, id, t', now).1 == st;
      }
    } else {
      UpdateRefusalWritesNothing(env, st, userId, id, t, now);
      UpdateChecksInOrder(env, st, userId, id, t, now);
    }
  }

  /** Delete's checks, in order: existence, then ownership. A refusal leaves the database as
      it was, and only the owner's delete goes through. */
  lemma DeleteChecksInOrder(env: Env, st: DbState, userId: Int32, id: Uuid, now: Time)
    ensures var (r, st') := DeleteFlow(env, st, userId, id, now);
      && (r.Some? && Refused(r.value, NotFound) <==> !ExistSpec(env, st.things, id))
      && (r.Some? && Refused(r.value, Unauthorized) <==>
            ExistSpec(env, st.things, id) && !OwnerSpec(env, st.things, id, userId))
      && (r.Some? && Root(r.value).Sentinel? ==> st' == st)
      && (r.None? ==> OwnerSpec(env, st.things, id, userId))
      && (st' != st ==> st' == DeleteSpec(env, st, id, userId, now).1)
  {
    if ExistSpec(env, st.things, id) && OwnerSpec(env, st.things, id, userId) {
      DeleteSpecNotRefused(env, st, id, userId, now);
    }
  }

  /** Get refuses with NotFound exactly when the id is not in the table; otherwise it returns
      the record of the first row with the id, soft-deleted or not. */
  lemma GetChecks(env: Env, st: DbState, id: Uuid)
    ensures GetFlow(env, st, id).Failure? && Refused(GetFlow(env, st, id).error, NotFound) <==> !ExistSpec(env, st.things, id)
    ensures GetFlow(env, st, id).Success? ==> GetFlow(env, st, id).value.id == id
    ensures GetFlow(env, st, id).Success? ==>
      exists k :: FirstWithId(st.things, id, k) && RecordOf(st.things[k]) == Success(GetFlow(env, st, id).value)
  {
    if ExistSpec(env, st.things, id) && GetFlow(env, st, id).Success? {
      GetSpecReadsFirst(env, st.things, id);
    }
  }

  /** The as-written store makes Update an authorisation bypass: the checks look at `id`, the
      write goes to the body's `t.id`. A caller owning row `a` rewrites row `b` of another user
      and leaves its own row untouched. Through the corrected store, row `b` is untouched. */
  lemma UpdateAsWrittenBypass(env: Env, st: DbState, userId: Int32, id: Uuid, t: Thing, now: Time, a: int, b: int)
    requires UniqueIds(st.things)
    requires 0 <= a < |st.things| && st.things[a].id == id && st.things[a].createdBy == userId
    requires 0 <= b < |st.things| && st.things[b].id == t.id && st.things[b].createdBy != userId
    requires SelectExist !in env.failing && SelectOwnedBy !in env.failing && UpdateThing !in env.failing
    requires ValidateName(t.name).None? && TypePresent(env, st.types, t.typeId)
    ensures ExistSpec(env, st.things, id) && OwnerSpec(env, st.things, id, userId)
    ensures !OwnerSpec(env, st.things, t.id, userId)
    ensures var t' := t.(lastModifiedBy := Some(userId));
      var rows := UpdateSpec(env, st, t.id, t', now).1.things;
      RowAt(rows, b, UpdatedRow(st.things[b], t', now)) && RowAt(rows, a, st.things[a])
    ensures RowAt(UpdateFlow(env, st, userId, id, t, now).1.things, b, st.things[b])
  {
    BypassChecks(env, st, userId, id, t, a, b);
    WrittenByBodyId(env, st, id, t.(lastModifiedBy := Some(userId)), now, a, b);
    UpdateTouchesOnlyCallerRow(env, st, userId, id, t, now);
  }

  /** The checks of the bypass: they pass on row `a`, and would refuse row `b`. */
  lemma BypassChecks(env: Env, st: DbState, userId: Int32, id: Uuid, t: Thing, a: int, b: int)
    requires UniqueIds(st.things)
    requires 0 <= a < |st.things| && st.things[a].id == id && st.things[a].createdBy == userId
    requires 0 <= b < |st.things| && st.things[b].id == t.id && st.things[b].createdBy != userId
    requires SelectExist !in env.failing && SelectOwnedBy !in env.failing
    ensures a != b && t.id != id
    ensures ExistSpec(env, st.things, id) && OwnerSpec(env, st.things, id, userId)
    ensures !OwnerSpec(env, st.things, t.id, userId)
  {
    assert ExistSpec(env, st.things, id) && OwnerSpec(env, st.things, id, userId);
  }

  /** The write keyed by the body's id rewrites row `b` and leaves row `a`. */
  lemma WrittenByBodyId(env: Env, st: DbState, id: Uuid, t: Thing, now: Time, a: int, b: int)
    requires UpdateThing !in env.failing && t.id != id
    requires 0 <= a < |st.things| && st.things[a].id == id
    requires 0 <= b < |st.things| && st.things[b].id == t.id
    ensures var rows := UpdateSpec(env, st, t.id, t, now).1.things;
      RowAt(rows, b, UpdatedRow(st.things[b], t, now)) && RowAt(rows, a, st.things[a])
  {
    UpdateColumns(env, st, t.id, t, now);
    UpdateAsWrittenIgnoresId(env, st, id, t, now);
  }

  /** Every check of the as-written Update refuses exactly as the corrected one does: the
      checks are the same, and only what happens after them differs. */
  lemma UpdateAsWrittenRefusesAlike(env: Env, st: DbState, userId: Int32, id: Uuid, t: Thing, now: Time)
    requires !(ExistSpec(env, st.things, id) && OwnerSpec(env, st.things, id, userId)
               && ValidateName(t.name).None? && TypePresent(env, st.types, t.typeId))
    ensures UpdateFlow(env, st, userId, id, t, now).0.Failure?
    ensures UpdateFlow(env, st, userId, id, t, now).1 == st
    ensures UpdateAsWrittenFlow(env, st, userId, id, t, now) == (Failure(UpdateFlow(env, st, userId, id, t, now).0.error), st)
  {
  }

  /** When the body carries the id of the path, the as-written Update is the corrected one. */
  lemma UpdateAsWrittenAgreesOnSameId(env: Env, st: DbState, userId: Int32, id: Uuid, t: Thing, now: Time)
    requires t.id == id
    ensures var (r, st') := UpdateFlow(env, st, userId, id, t, now);
      UpdateAsWrittenFlow(env, st, userId, id, t, now) == (if r.Failure? then Failure(r.error) else Success(Some(r.value)), st')
  {
    if ExistSpec(env, st.things, id) && OwnerSpec(env, st.things, id, userId) && ValidateName(t.name).None?
       && TypePresent(env, st.types, t.typeId) {
      UpdatePasses(env, st, userId, id, t, now);
    }
  }

  /** A silent lost update: the checks pass on `id`, no row has the body's id, and the
      as-written Update changes nothing and answers success with no record. */
  lemma UpdateAsWrittenSilentNoOp(env: Env, st: DbState, userId: Int32, id: Uuid, t: Thing, now: Time)
    requires ExistSpec(env, st.things, id) && OwnerSpec(env, st.things, id, userId)
    requires ValidateName(t.name).None? && TypePresent(env, st.types, t.typeId)
    requires UpdateThing !in env.failing && !HasId(st.things, t.id)
    ensures UpdateAsWrittenFlow(env, st, userId, id, t, now) == (Success(None), st)
  {
    var t' := t.(lastModifiedBy := Some(userId));
    assert CountId(st.things, t.id) == 0;
    assert UpdateWhereId(st.things, t.id, t', now) == st.things;
  }

  // ---------------------------------------------------------------------------------------
  // The list-shaped reads.

  lemma PageErrorsFromDb(env: Env, stmt: Statement, kept: seq<Row>, offset: int, limit: int)
    ensures PageOf(env, stmt, kept, offset, limit).Failure? ==> PageOf(env, stmt, kept, offset, limit).error.Db?
  {
  }

  /** Over a store read whose failures are database errors, "no rows" comes only from an
      empty result. */
  lemma EmptyOnNoRowsOfOutcome(res: Result<seq<Row>, Error>, context: Context)
    requires res.Success? ==> AllPositioned(res.value)
    requires res.Failure? ==> res.error.Db?
    ensures EmptyOnNoRows(ListOutcome(res), context) == Success([]) <==> res == Success([])
    ensures EmptyOnNoRows(ListOutcome(res), context).Failure? <==> res.Failure?
  {
  }

  /** List answers an empty list exactly when nothing matched, and fails exactly when the
      store's query failed. */
  lemma ListEmptyIffNothingMatched(env: Env, st: DbState, offset: int, limit: int, p: ListParams)
    ensures ListFlow(env, st, offset, limit, p) == Success([]) <==> ListRows(env, st.things, offset, limit, p) == Success([])
    ensures ListFlow(env, st, offset, limit, p).Failure? <==> ListRows(env, st.things, offset, limit, p).Failure?
  {
    var kept := Filter(st.things, r => ListVisible(r, p));
    ListVisiblePositioned(st.things, p);
    PageKeepsPositions(env, SelectList, kept, offset, limit);
    PageErrorsFromDb(env, SelectList, kept, offset, limit);
    EmptyOnNoRowsOfOutcome(ListRows(env, st.things, offset, limit, p), Listing);
  }

  lemma SearchEmptyIffNothingMatched(env: Env, st: DbState, offset: int, limit: int, p: SearchParams)
    ensures SearchFlow(env, st, offset, limit, p) == Success([]) <==> SearchRows(env, st.things, offset, limit, p) == Success([])
    ensures SearchFlow(env, st, offset, limit, p).Failure? <==> SearchRows(env, st.things, offset, limit, p).Failure?
  {
    var kept := Filter(st.things, r => SearchVisible(r, p, env.fts));
    SearchVisiblePositioned(st.things, p, env.fts);
    PageKeepsPositions(env, SelectSearch, kept, offset, limit);
    PageErrorsFromDb(env, SelectSearch, kept, offset, limit);
    EmptyOnNoRowsOfOutcome(SearchRows(env, st.things, offset, limit, p), Searching);
  }

  lemma ByExternalIdEmptyIffNothingMatched(env: Env, st: DbState, offset: int, limit: int, externalId: int)
    ensures ListByExternalIdFlow(env, st, offset, limit, externalId) == Success([]) <==>
            ByExternalIdRows(env, st.things, offset, limit, externalId) == Success([])
    ensures ListByExternalIdFlow(env, st, offset, limit, externalId).Failure? <==>
            ByExternalIdRows(env, st.things, offset, limit, externalId).Failure?
  {
    var kept := Filter(st.things, r => ExternalIdVisible(r, externalId));
    ExternalIdVisiblePositioned(st.things, externalId);
    PageKeepsPositions(env, SelectByExternalId, kept, offset, limit);
    PageErrorsFromDb(env, SelectByExternalId, kept, offset, limit);
    EmptyOnNoRowsOfOutcome(ByExternalIdRows(env, st.things, offset, limit, externalId), ListingByExternalId);
  }

  lemma GeoJsonNoRowsPassedOn(env: Env, st: DbState, offset: int, limit: int, p: GeoJsonParams)
    ensures GeoJsonFlow(env, st, offset, limit, p).Failure? <==> GeoJsonSpec(env, st.things, offset, limit, p).Failure?
    ensures GeoJsonFlow(env, st, offset, limit, p).Failure? ==>
      GeoJsonFlow(env, st, offset, limit, p).error == Wrapped(RetrievingGeoJson, GeoJsonSpec(env, st.things, offset, limit, p).error)
    ensures GeoJsonFlow(env, st, offset, limit, p).Success? ==> GeoJsonFlow(env, st, offset, limit, p).value != ""
  {
  }

  lemma TypeListNoRowsPassedOn(env: Env, st: DbState, offset: int, limit: int, tp: TypeListParams)
    ensures ListTypeSpec(env, st.types, offset, limit, tp).Failure? ==>
      ListTypesFlow(env, st, offset, limit, tp) == Failure(Wrapped(ListingTypes, ListTypeSpec(env, st.types, offset, limit, tp).error))
    ensures ListTypesFlow(env, st, offset, limit, tp).Success? ==> ListTypesFlow(env, st, offset, limit, tp).value != []
  {
  }

  /** GeoJson and the category list pass "no rows" on, wrapped; GeoJson never answers "". */
  lemma NoRowsPassedOn(env: Env, st: DbState, offset: int, limit: int, p: GeoJsonParams, tp: TypeListParams)
    ensures GeoJsonFlow(env, st, offset, limit, p).Failure? <==> GeoJsonSpec(env, st.things, offset, limit, p).Failure?
    ensures GeoJsonFlow(env, st, offset, limit, p).Failure? ==>
      GeoJsonFlow(env, st, offset, limit, p).error == Wrapped(RetrievingGeoJson, GeoJsonSpec(env, st.things, offset, limit, p).error)
    ensures GeoJsonFlow(env, st, offset, limit, p).Success? ==> GeoJsonFlow(env, st, offset, limit, p).value != ""
    ensures ListTypeSpec(env, st.types, offset, limit, tp).Failure? ==>
      ListTypesFlow(env, st, offset, limit, tp) == Failure(Wrapped(ListingTypes, ListTypeSpec(env, st.types, offset, limit, tp).error))
    ensures ListTypesFlow(env, st, offset, limit, tp).Success? ==> ListTypesFlow(env, st, offset, limit, tp).value != []
  {
    GeoJsonNoRowsPassedOn(env, st, offset, limit, p);
    TypeListNoRowsPassedOn(env, st, offset, limit, tp);
  }

  // ---------------------------------------------------------------------------------------
  // Categories.

  /** Every category operation that needs it refuses a non-admin first, with the database
      left as it was, whatever the other arguments. */
  lemma TypeOpsAdminFirst(env: Env, st: DbState, userId: Int32, id: Int32, tt: TypeThing, now: Time)
    ensures CreateTypeFlow(env, st, userId, false, tt, now) == (Failure(Sentinel(AdminRequired)), st)
    ensures DeleteTypeFlow(env, st, userId, false, id, now) == (Some(Sentinel(AdminRequired)), st)
    ensures GetTypeFlow(env, st, false, id) == Failure(Sentinel(AdminRequired))
    ensures UpdateTypeFlow(env, st, userId, false, id, tt, now) == (Failure(Sentinel(AdminRequired)), st)
  {
  }

  /** For an admin, Get, Update and Delete of a category refuse a missing one, unchanged. */
  lemma TypeOpsNeedCategory(env: Env, st: DbState, userId: Int32, id: Int32, tt: TypeThing, now: Time)
    requires !TypePresent(env, st.types, id)
    ensures DeleteTypeFlow(env, st, userId, true, id, now) == (Some(TypeMissingError(id)), st)
    ensures GetTypeFlow(env, st, true, id) == Failure(TypeMissingError(id))
    ensures UpdateTypeFlow(env, st, userId, true, id, tt, now) == (Failure(TypeMissingError(id)), st)
  {
  }

  /** Category Create checks neither existence nor duplicates: the input's id and creator do
      not matter, the database chooses the id and the caller is the creator. */
  lemma CreateTypeChoosesIdAndCreator(env: Env, st: DbState, userId: Int32, tt: TypeThing, id: Int32, createdBy: Int32, now: Time)
    ensures CreateTypeFlow(env, st, userId, true, tt, now) == CreateTypeFlow(env, st, userId, true, tt.(id := id, createdBy := createdBy), now)
    ensures CreateTypeFlow(env, st, userId, true, tt, now).0.Success? ==>
      var x := CreateTypeFlow(env, st, userId, true, tt, now).0.value;
      x.createdBy == userId && x.id == env.nextTypeId(st.types) && x.name == tt.name
  {
    assert NewTypeRow(tt.(createdBy := userId), env.nextTypeId(st.types), now)
        == NewTypeRow(tt.(id := id, createdBy := createdBy).(createdBy := userId), env.nextTypeId(st.types), now);
    CreateTypeStamps(env, st, tt.(createdBy := userId), now);
  }

  /** A successful category Update returns the category with the caller as last modifier. */
  lemma UpdateTypeStampsModifier(env: Env, st: DbState, userId: Int32, id: Int32, tt: TypeThing, now: Time)
    requires forall k :: k in st.types ==> st.types[k].id == k
    ensures var (r, st') := UpdateTypeFlow(env, st, userId, true, id, tt, now);
      r.Success? ==>
        && r.value.id == id && r.value.lastModifiedBy == Some(userId) && r.value.name == tt.name
        && st'.types.Keys == st.types.Keys
  {
    var tt' := tt.(lastModifiedBy := Some(userId));
    UpdateTypeSpecStamps(env, st, id, tt', now);
    if TypePresent(env, st.types, id) && ValidateName(tt.name).None? {
      assert UpdateTypeFlow(env, st, userId, true, id, tt, now).1 == UpdateTypeSpec(env, st, id, tt', now).1;
    }
  }

  /** The store's category update keeps the set of ids and answers the row it rewrote. */
  lemma UpdateTypeSpecStamps(env: Env, st: DbState, id: Int32, tt: TypeThing, now: Time)
    requires forall k :: k in st.types ==> st.types[k].id == k
    ensures UpdateTypeSpec(env, st, id, tt, now).1.types.Keys == st.types.Keys
    ensures var r := UpdateTypeSpec(env, st, id, tt, now).0;
      r.Success? && r.value.Some? ==>
        r.value.value.id == id && r.value.value.lastModifiedBy == tt.lastModifiedBy && r.value.value.name == tt.name
  {
    if UpdateType !in env.failing && id in st.types {
      var types := st.types[id := UpdatedTypeRow(st.types[id], tt, now)];
      assert UpdateTypeEffect(env, st.types, id, tt, now) == (Success(1), types);
    }
  }
}
