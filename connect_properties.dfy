/** Properties of the record service's Connect handlers: how business errors become status
    codes, which filters a request can express, and what each handler answers for the
    refusals of the layers below it. */
module ConnectProperties {
  import opened Wrappers
  import opened GoInt
  import opened Domain
  import opened Errors
  import opened Seqs
  import opened Sql
  import opened Storage
  import opened Business
  import opened BusinessProperties
  import opened Mappers
  import opened Auth
  import opened Rpc
  import opened Connect

  // =========================================================================================
  // Error mapping.

  /** The status code each innermost error stands for. */
  function CodeForRoot(root: Error): Code {
    match root
    case Sentinel(k) =>
      (match k
       case NotFound => CodeNotFound
       case TypeNotFound => CodeNotFound
       case AlreadyExists => CodeAlreadyExists
       case Unauthorized => CodePermissionDenied
       case NotOwner => CodePermissionDenied
       case AdminRequired => CodePermissionDenied
       case InvalidInput => CodeInvalidArgument)
    case NoRows => CodeNotFound
    case _ => CodeInternal
  }

  /** Since every sentinel wraps nothing, at most one of the `errors.Is` tests holds, and the
      code depends only on the innermost error: the order of the tests does not matter. The
      error itself is passed on for every code but the admin, "no rows" and internal ones. */
  lemma MapErrorByRoot(e: Error)
    ensures MapError(e).code == CodeForRoot(Root(e))
    ensures MapError(e).detail ==
      if Root(e) == Sentinel(AdminRequired) then OnlyAdminCanManageTypes
      else if Root(e) == NoRows then Message("not found")
      else if CodeForRoot(Root(e)) == CodeInternal then Message("internal error")
      else Cause(e)
  {
    IsUnwrappedIffRoot(e, Sentinel(NotFound));
    IsUnwrappedIffRoot(e, Sentinel(TypeNotFound));
    IsUnwrappedIffRoot(e, Sentinel(AlreadyExists));
    IsUnwrappedIffRoot(e, Sentinel(Unauthorized));
    IsUnwrappedIffRoot(e, Sentinel(NotOwner));
    IsUnwrappedIffRoot(e, Sentinel(AdminRequired));
    IsUnwrappedIffRoot(e, Sentinel(InvalidInput));
    IsUnwrappedIffRoot(e, NoRows);
  }

  /** The codes of the business layer's refusals, and of any wrapped database failure. */
  lemma BusinessRefusalCodes(id: Uuid, typeId: Int32, userId: Int32, reason: NameError, context: Context, d: DbError)
    ensures MapError(NotFoundError(id)) == RpcError(CodeNotFound, Cause(NotFoundError(id)))
    ensures MapError(TypeMissingError(typeId)) == RpcError(CodeNotFound, Cause(TypeMissingError(typeId)))
    ensures MapError(AlreadyExistsError(id)) == RpcError(CodeAlreadyExists, Cause(AlreadyExistsError(id)))
    ensures MapError(NotOwnerError(userId, id)) == RpcError(CodePermissionDenied, Cause(NotOwnerError(userId, id)))
    ensures MapError(InvalidInputError(reason)) == RpcError(CodeInvalidArgument, Cause(InvalidInputError(reason)))
    ensures MapError(AdminRequiredError()) == RpcError(CodePermissionDenied, OnlyAdminCanManageTypes)
    ensures MapError(Wrapped(context, NoRows)) == RpcError(CodeNotFound, Message("not found"))
    ensures MapError(Wrapped(context, Db(d))) == RpcError(CodeInternal, Message("internal error"))
  {
    MapErrorByRoot(NotFoundError(id));
    MapErrorByRoot(TypeMissingError(typeId));
    MapErrorByRoot(AlreadyExistsError(id));
    MapErrorByRoot(NotOwnerError(userId, id));
    MapErrorByRoot(InvalidInputError(reason));
    MapErrorByRoot(Wrapped(context, Db(d)));
    MapErrorByRoot(Wrapped(context, NoRows));
  }

  // =========================================================================================
  // Filters a request can express.

  /** Filters with no pointer to 0 and no `false` flag: the ones a request can carry. */
  predicate ListFilterOnWire(p: ListParams) {
    p.typeId != Some(0) && p.createdBy != Some(0) && p.inactivated != Some(false) && p.validated != Some(false)
  }

  predicate SearchFilterOnWire(p: SearchParams) {
    && p.keywords != Some("") && p.typeId != Some(0) && p.createdBy != Some(0)
    && p.inactivated != Some(false) && p.validated != Some(false)
  }

  /** The request that asks for the filters `p`. */
  function ListRequestFor(p: ListParams, limit: Int32, offset: Int32): ListRequest {
    ListRequest(DerefInt32(p.typeId), DerefInt32(p.createdBy), DerefBool(p.inactivated), DerefBool(p.validated), limit, offset)
  }

  function SearchRequestFor(p: SearchParams, limit: Int32, offset: Int32): SearchRequest {
    SearchRequest(DerefString(p.keywords), DerefInt32(p.typeId), DerefInt32(p.createdBy), DerefBool(p.inactivated),
                  DerefBool(p.validated), limit, offset)
  }

  /** Request to filters loses nothing, and the filters a request can produce are exactly the
      wire ones: in particular no request asks List or Search for `inactivated = false`, so
      List with the flag unset shows active rows only while Search shows both. */
  lemma ListFiltersRoundTrip(msg: ListRequest, p: ListParams, limit: Int32, offset: Int32)
    ensures ListFilterOnWire(ListParamsOf(msg))
    ensures ListRequestFor(ListParamsOf(msg), msg.limit, msg.offset) == msg
    ensures ListParamsOf(ListRequestFor(p, limit, offset)) == p <==> ListFilterOnWire(p)
  {
    Int32RoundTrips(msg.typeId, p.typeId);
    Int32RoundTrips(msg.createdBy, p.createdBy);
  }

  lemma SearchFiltersRoundTrip(msg: SearchRequest, p: SearchParams, limit: Int32, offset: Int32)
    ensures SearchFilterOnWire(SearchParamsOf(msg))
    ensures SearchRequestFor(SearchParamsOf(msg), msg.limit, msg.offset) == msg
    ensures SearchParamsOf(SearchRequestFor(p, limit, offset)) == p <==> SearchFilterOnWire(p)
  {
    StringRoundTrips(msg.keywords, p.keywords);
    Int32RoundTrips(msg.typeId, p.typeId);
    Int32RoundTrips(msg.createdBy, p.createdBy);
  }

  /** Count reads the same filters as Search from the same fields. */
  lemma CountFiltersAreSearchFilters(keywords: string, typeId: Int32, createdBy: Int32, inactivated: bool, validated: bool, limit: Int32, offset: Int32)
    ensures CountParamsOf(CountRequest(keywords, typeId, createdBy, inactivated, validated))
         == SearchParamsOf(SearchRequest(keywords, typeId, createdBy, inactivated, validated, limit, offset))
  {
  }

  // =========================================================================================
  // The list-shaped handlers.

  /** With a non-negative default limit, the page a request asks for is never negative, so
      List answers whenever the database does, and any failure is internal. */
  lemma ListAnswersWhenDbAnswers(env: Env, st: DbState, defaultLimit: int, msg: ListRequest)
    requires defaultLimit >= 0
    ensures SelectList !in env.failing ==> ListReply(env, st, defaultLimit, msg).Success?
    ensures ListReply(env, st, defaultLimit, msg).Failure? ==>
      ListReply(env, st, defaultLimit, msg).error == RpcError(CodeInternal, Message("internal error"))
  {
    var (limit, offset) := Pagination(defaultLimit, msg.limit, msg.offset);
    var p := ListParamsOf(msg);
    ListEmptyIffNothingMatched(env, st, offset, limit, p);
    var res := ListFlow(env, st, offset, limit, p);
    if res.Failure? {
      var kept := Filter(st.things, r => ListVisible(r, p));
      PageErrorsFromDb(env, SelectList, kept, offset, limit);
      assert res.error == Wrapped(Listing, ListRows(env, st.things, offset, limit, p).error);
      MapErrorByRoot(res.error);
    }
  }

  lemma SearchAnswersWhenDbAnswers(env: Env, st: DbState, defaultLimit: int, msg: SearchRequest)
    requires defaultLimit >= 0
    ensures SelectSearch !in env.failing ==> SearchReply(env, st, defaultLimit, msg).Success?
    ensures SearchReply(env, st, defaultLimit, msg).Failure? ==>
      SearchReply(env, st, defaultLimit, msg).error == RpcError(CodeInternal, Message("internal error"))
  {
    var (limit, offset) := Pagination(defaultLimit, msg.limit, msg.offset);
    var p := SearchParamsOf(msg);
    SearchEmptyIffNothingMatched(env, st, offset, limit, p);
    var res := SearchFlow(env, st, offset, limit, p);
    if res.Failure? {
      var kept := Filter(st.things, r => SearchVisible(r, p, env.fts));
      PageErrorsFromDb(env, SelectSearch, kept, offset, limit);
      assert res.error == Wrapped(Searching, SearchRows(env, st.things, offset, limit, p).error);
      MapErrorByRoot(res.error);
    }
  }

  /** ListByExternalId never answers an empty list: a page with nothing in it is NotFound. */
  lemma ListByExternalIdNeverEmpty(env: Env, st: DbState, defaultLimit: int, msg: ListByExternalIdRequest)
    ensures ListByExternalIdReply(env, st, defaultLimit, msg).Success? ==>
      ListByExternalIdReply(env, st, defaultLimit, msg).value.Some? && |ListByExternalIdReply(env, st, defaultLimit, msg).value.value| > 0
    ensures var (limit, offset) := Pagination(defaultLimit, msg.limit, msg.offset);
      ByExternalIdRows(env, st.things, offset, limit, msg.externalId as int) == Success([]) ==>
        ListByExternalIdReply(env, st, defaultLimit, msg) == Failure(NoneWithExternalIdError)
  {
    var (limit, offset) := Pagination(defaultLimit, msg.limit, msg.offset);
    ByExternalIdEmptyIffNothingMatched(env, st, offset, limit, msg.externalId as int);
  }

  /** Count counts what Search lists: for the same filters, a Search page that starts at the
      first row and is large enough holds exactly the rows Count counts. */
  lemma CountMatchesSearch(env: Env, st: DbState, msg: CountRequest, limit: int)
    requires SelectCountThings !in env.failing && SelectSearch !in env.failing
    requires limit >= |st.things|
    ensures var p := CountParamsOf(msg);
      var page := SearchRows(env, st.things, 0, limit, p);
      && page.Success?
      && multiset(page.value) == multiset(Filter(st.things, r => SearchVisible(r, p, env.fts)))
      && CountReply(env, st, msg) == Success(ToInt32(|page.value|))
  {
    var p := CountParamsOf(msg);
    var sorted := SortByCreatedDesc(Filter(st.things, r => SearchVisible(r, p, env.fts)));
    assert Page(sorted, 0, Some(limit)) == sorted[0..|sorted|];
    assert sorted[0..|sorted|] == sorted;
  }

  /** Count fails only when its query does, and that failure is internal. */
  lemma CountAnswers(env: Env, st: DbState, msg: CountRequest)
    ensures CountReply(env, st, msg).Failure? <==> SelectCountThings in env.failing
    ensures CountReply(env, st, msg).Failure? ==> CountReply(env, st, msg).error == RpcError(CodeInternal, Message("internal error"))
  {
    if SelectCountThings in env.failing {
      MapErrorByRoot(Wrapped(Counting, DbUnavailable()));
    }
  }

  /** Count as written: a request with keywords and `validated` set is answered Internal,
      whatever the table holds; every other request gets the corrected answer. */
  lemma CountAsWrittenAnswers(env: Env, st: DbState, msg: CountRequest)
    ensures msg.keywords != "" && msg.validated ==>
      CountAsWrittenReply(env, st, msg) == Failure(RpcError(CodeInternal, Message("internal error")))
    ensures !(msg.keywords != "" && msg.validated) ==> CountAsWrittenReply(env, st, msg) == CountReply(env, st, msg)
  {
    var p := CountParamsOf(msg);
    var r := CountAsWrittenFlow(env, st, p);
    if r.Failure? {
      MapErrorByRoot(r.error);
    }
  }

  /** GeoJson renders the rows List shows for the same request. A failing query is internal,
      SQL NULL is NotFound, the empty text is "empty" and any other text is passed on. */
  lemma GeoJsonAnswers(env: Env, st: DbState, defaultLimit: int, msg: GeoJsonRequest)
    ensures var (limit, offset) := Pagination(defaultLimit, msg.limit, msg.offset);
      var p := ListParamsOf(msg);
      var page := GeoJsonRows(env, st.things, offset, limit, p);
      var r := GeoJsonReply(env, st, defaultLimit, msg);
      && (SelectGeoJson !in env.failing && SelectList !in env.failing ==> page == ListRows(env, st.things, offset, limit, p))
      && (page.Failure? ==> r == Failure(RpcError(CodeInternal, Message("internal error"))))
      && (page.Success? && env.geoJson(page.value).None? ==> r == Failure(RpcError(CodeNotFound, Message("not found"))))
      && (page.Success? && env.geoJson(page.value) == Some("") ==> r == Success("empty"))
      && (page.Success? && env.geoJson(page.value).Some? && env.geoJson(page.value).value != "" ==>
            r == Success(env.geoJson(page.value).value))
  {
    var (limit, offset) := Pagination(defaultLimit, msg.limit, msg.offset);
    var p := ListParamsOf(msg);
    var kept := Filter(st.things, r => ListVisible(r, p));
    var page := GeoJsonRows(env, st.things, offset, limit, p);
    PageErrorsFromDb(env, SelectGeoJson, kept, offset, limit);
    var res := GeoJsonFlow(env, st, offset, limit, p);
    if res.Failure? {
      MapErrorByRoot(res.error);
    }
  }

  // =========================================================================================
  // The handlers that take an id.

  /** An id that does not parse is refused before the business layer is called. */
  lemma MalformedIdRefused(env: Env, st: DbState, parse: UuidParser, ctx: AuthContext, msg: IdRequest, update: UpdateRequest, now: Time)
    requires parse(msg.id).None? && parse(update.id).None?
    ensures GetReply(env, st, parse, msg) == Failure(BadIdError)
    ensures DeleteReply(env, st, parse, ctx, msg, now) == (Some(BadIdError), st)
    ensures UpdateReply(env, st, parse, ctx, update, now) == (Failure(BadIdError), st)
  {
  }

  /** A missing body, or one whose id does not parse, is refused before the business layer. */
  lemma CreateBodyRefused(env: Env, st: DbState, parse: UuidParser, ctx: AuthContext, p: ProtoThing, now: Time)
    ensures CreateReply(env, st, parse, ctx, CreateRequest(None), now) == (Failure(MissingThingError), st)
    ensures p.id != "" && parse(p.id).None? ==>
      CreateReply(env, st, parse, ctx, CreateRequest(Some(p)), now) == (Failure(RpcError(CodeInvalidArgument, Cause(BadUuid))), st)
  {
  }

  /** A body that converts reaches the business layer's Create with the caller's id. */
  lemma CreateReplyOfBody(env: Env, st: DbState, parse: UuidParser, ctx: AuthContext, p: ProtoThing, now: Time)
    requires ProtoToThing(parse, Some(p)).Success?
    ensures ProtoToThing(parse, Some(p)).value.Some?
    ensures var (res, st') := CreateFlow(env, st, GetUserFromContext(ctx).0, ProtoToThing(parse, Some(p)).value.value, now);
      CreateReply(env, st, parse, ctx, CreateRequest(Some(p)), now) == (ReplyThing(res), st')
  {
  }

  /** Create's refusals as status codes: an invalid name is InvalidArgument, a missing category
      NotFound, a taken id AlreadyExists, and each leaves the database as it was. */
  lemma CreateRefusalCodes(env: Env, st: DbState, parse: UuidParser, ctx: AuthContext, p: ProtoThing, now: Time)
    requires ProtoToThing(parse, Some(p)).Success?
    ensures var t := ProtoToThing(parse, Some(p)).value.value;
      var (r, st') := CreateReply(env, st, parse, ctx, CreateRequest(Some(p)), now);
      && (ValidateName(t.name).Some? ==> r.Failure? && r.error.code == CodeInvalidArgument && st' == st)
      && (ValidateName(t.name).None? && !TypePresent(env, st.types, t.typeId) ==>
            r.Failure? && r.error.code == CodeNotFound && st' == st)
      && (ValidateName(t.name).None? && TypePresent(env, st.types, t.typeId) && ExistSpec(env, st.things, t.id) ==>
            r.Failure? && r.error.code == CodeAlreadyExists && st' == st)
  {
    CreateReplyOfBody(env, st, parse, ctx, p, now);
    var t := ProtoToThing(parse, Some(p)).value.value;
    var userId := GetUserFromContext(ctx).0;
    if ValidateName(t.name).Some? {
      assert CreateFlow(env, st, userId, t, now) == (Failure(InvalidInputError(ValidateName(t.name).value)), st);
      BusinessRefusalCodes(t.id, t.typeId, userId, ValidateName(t.name).value, Creating, DbError.Unavailable);
    } else if !TypePresent(env, st.types, t.typeId) {
      assert CreateFlow(env, st, userId, t, now) == (Failure(TypeMissingError(t.typeId)), st);
      BusinessRefusalCodes(t.id, t.typeId, userId, EmptyName, Creating, DbError.Unavailable);
    } else if ExistSpec(env, st.things, t.id) {
      assert CreateFlow(env, st, userId, t, now) == (Failure(AlreadyExistsError(t.id)), st);
      BusinessRefusalCodes(t.id, t.typeId, userId, EmptyName, Creating, DbError.Unavailable);
    }
  }

  /** What Create answers is owned by the caller the context names. */
  lemma CreateOwnedByCaller(env: Env, st: DbState, parse: UuidParser, ctx: AuthContext, msg: CreateRequest, now: Time)
    ensures var r := CreateReply(env, st, parse, ctx, msg, now).0;
      r.Success? ==> r.value.createdBy == GetUserFromContext(ctx).0 && !r.value.deleted && r.value.createdAt == Some(now)
  {
    if msg.thing.Some? && ProtoToThing(parse, msg.thing).Success? {
      CreateSetsCreator(env, st, GetUserFromContext(ctx).0, ProtoToThing(parse, msg.thing).value.value, now);
    }
  }

  /** Across the interceptor: a record created in an authenticated call is owned by the token's
      user, with the id truncated to 32 bits. */
  lemma AuthenticatedCreateOwnedByTokenUser(env: Env, st: DbState, parse: UuidParser, ctx: AuthContext, header: string,
                                            tokens: TokenParser, msg: CreateRequest, now: Time)
    requires Authenticate(header, tokens).Success?
    ensures var u := Authenticate(header, tokens).value;
      var r := CreateReply(env, st, parse, WithUser(ctx, u), msg, now).0;
      r.Success? ==> r.value.createdBy == ToInt32(u.userId)
  {
    var u := Authenticate(header, tokens).value;
    AcceptedCarriesTokenUser(ctx, header, tokens, (c: AuthContext) => Success(0));
    CreateOwnedByCaller(env, st, parse, WithUser(ctx, u), msg, now);
  }

  /** Past the parsing steps, Update's reply is the business Update's answer, mapped. */
  lemma UpdateReplyOfFlow(env: Env, st: DbState, parse: UuidParser, ctx: AuthContext, msg: UpdateRequest, now: Time)
    requires parse(msg.id).Some? && msg.thing.Some? && ProtoToThing(parse, msg.thing).Success?
    ensures var f := UpdateFlow(env, st, GetUserFromContext(ctx).0, parse(msg.id).value, ProtoToThing(parse, msg.thing).value.value, now);
      UpdateReply(env, st, parse, ctx, msg, now) == (ReplyThing(f.0), f.1)
  {
    assert ProtoToThing(parse, msg.thing).value.Some?;
  }

  /** Update's refusals as status codes at the business layer's boundary. */
  lemma UpdateFlowRefusalCodes(env: Env, st: DbState, userId: Int32, id: Uuid, t: Thing, now: Time)
    ensures var (res, st') := UpdateFlow(env, st, userId, id, t, now);
      var r := ReplyThing(res);
      && (!ExistSpec(env, st.things, id) ==> r.Failure? && r.error.code == CodeNotFound && st' == st)
      && (ExistSpec(env, st.things, id) && !OwnerSpec(env, st.things, id, userId) ==>
            r.Failure? && r.error.code == CodePermissionDenied && st' == st)
      && (ExistSpec(env, st.things, id) && OwnerSpec(env, st.things, id, userId) && ValidateName(t.name).Some? ==>
            r.Failure? && r.error.code == CodeInvalidArgument && st' == st)
  {
    UpdateChecksInOrder(env, st, userId, id, t, now);
    UpdateRefusalWritesNothing(env, st, userId, id, t, now);
    var r := UpdateFlow(env, st, userId, id, t, now).0;
    if !ExistSpec(env, st.things, id) {
      MapErrorByRoot(r.error);
    } else if !OwnerSpec(env, st.things, id, userId) {
      MapErrorByRoot(r.error);
    } else if ValidateName(t.name).Some? {
      MapErrorByRoot(r.error);
    }
  }

  /** Update's refusals as status codes, each leaving the database as it was. */
  lemma UpdateRefusalCodes(env: Env, st: DbState, parse: UuidParser, ctx: AuthContext, msg: UpdateRequest, now: Time)
    requires parse(msg.id).Some? && msg.thing.Some? && ProtoToThing(parse, msg.thing).Success?
    ensures var id := parse(msg.id).value;
      var t := ProtoToThing(parse, msg.thing).value.value;
      var userId := GetUserFromContext(ctx).0;
      var (r, st') := UpdateReply(env, st, parse, ctx, msg, now);
      && (!ExistSpec(env, st.things, id) ==> r.Failure? && r.error.code == CodeNotFound && st' == st)
      && (ExistSpec(env, st.things, id) && !OwnerSpec(env, st.things, id, userId) ==>
            r.Failure? && r.error.code == CodePermissionDenied && st' == st)
      && (ExistSpec(env, st.things, id) && OwnerSpec(env, st.things, id, userId) && ValidateName(t.name).Some? ==>
            r.Failure? && r.error.code == CodeInvalidArgument && st' == st)
  {
    UpdateReplyOfFlow(env, st, parse, ctx, msg, now);
    UpdateFlowRefusalCodes(env, st, GetUserFromContext(ctx).0, parse(msg.id).value, ProtoToThing(parse, msg.thing).value.value, now);
  }

  /** The silent lost update, as the client sees it. The body's id is empty, so it becomes the
      nil UUID, which no row has. The checks on the path's id pass, nothing is written, and the
      as-written Update answers OK with no record. */
  lemma UpdateAsWrittenOkWithoutRecord(env: Env, st: DbState, parse: UuidParser, ctx: AuthContext, msg: UpdateRequest, now: Time)
    requires parse(msg.id).Some? && msg.thing.Some? && msg.thing.value.id == ""
    requires ExistSpec(env, st.things, parse(msg.id).value) && OwnerSpec(env, st.things, parse(msg.id).value, GetUserFromContext(ctx).0)
    requires ValidateName(msg.thing.value.name).None? && TypePresent(env, st.types, msg.thing.value.typeId)
    requires UpdateThing !in env.failing && !HasId(st.things, NilUuid)
    ensures UpdateAsWrittenReply(env, st, parse, ctx, msg, now) == (Success(None), st)
  {
    var t := ThingOfProto(NilUuid, msg.thing.value);
    UpdateAsWrittenSilentNoOp(env, st, GetUserFromContext(ctx).0, parse(msg.id).value, t, now);
  }

  /** Delete's refusals as status codes; a delete that goes through was the owner's. */
  lemma DeleteRefusalCodes(env: Env, st: DbState, parse: UuidParser, ctx: AuthContext, msg: IdRequest, now: Time)
    requires parse(msg.id).Some?
    ensures var id := parse(msg.id).value;
      var userId := GetUserFromContext(ctx).0;
      var (r, st') := DeleteReply(env, st, parse, ctx, msg, now);
      && (!ExistSpec(env, st.things, id) ==> r.Some? && r.value.code == CodeNotFound && st' == st)
      && (ExistSpec(env, st.things, id) && !OwnerSpec(env, st.things, id, userId) ==>
            r.Some? && r.value.code == CodePermissionDenied && st' == st)
      && (r.None? ==> OwnerSpec(env, st.things, id, userId))
  {
    var id := parse(msg.id).value;
    var userId := GetUserFromContext(ctx).0;
    DeleteChecksInOrder(env, st, userId, id, now);
    var r := DeleteFlow(env, st, userId, id, now).0;
    if r.Some? {
      MapErrorByRoot(r.value);
    }
  }

  /** Get answers NotFound for an id not in the table, and otherwise the record of the first
      row with the id, on the wire. */
  lemma GetAnswers(env: Env, st: DbState, parse: UuidParser, msg: IdRequest)
    requires parse(msg.id).Some?
    ensures var id := parse(msg.id).value;
      && (!ExistSpec(env, st.things, id) ==> GetReply(env, st, parse, msg).Failure? && GetReply(env, st, parse, msg).error.code == CodeNotFound)
      && (GetReply(env, st, parse, msg).Success? ==> GetReply(env, st, parse, msg).value.id == UuidString(id))
      && (GetReply(env, st, parse, msg).Success? ==>
            exists k :: FirstWithId(st.things, id, k) && RecordOf(st.things[k]).Success?
                        && GetReply(env, st, parse, msg).value == ThingToProto(RecordOf(st.things[k]).value))
  {
    var id := parse(msg.id).value;
    GetChecks(env, st, id);
    if GetFlow(env, st, id).Failure? {
      MapErrorByRoot(GetFlow(env, st, id).error);
    }
  }

  /** A list entry on the wire shows, for each of its fields, what the full record of the same
      row shows on the wire. */
  lemma ListEntryAgreesWithRecord(r: Row)
    requires r.position.Some?
    ensures RecordOf(r).Success?
    ensures var e := ThingListToProto(ListItem(r)); var f := ThingToProto(RecordOf(r).value);
      && e.id == f.id && e.typeId == f.typeId && e.name == f.name && e.description == f.description
      && e.externalId == f.externalId && e.inactivated == f.inactivated && e.validated == f.validated
      && e.status == f.status && e.createdBy == f.createdBy && e.createdAt == f.createdAt
      && e.posX == f.posX && e.posY == f.posY
  {
  }
}
