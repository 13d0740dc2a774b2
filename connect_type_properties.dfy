/** Properties of the category handlers: their error mapping against the record server's,
    the admin check seen from the wire, and the empty list for "no rows". */
module ConnectTypeProperties {
  import opened Wrappers
  import opened GoInt
  import opened Domain
  import opened Errors
  import opened Storage
  import opened Business
  import opened BusinessProperties
  import opened Mappers
  import opened Auth
  import opened Rpc
  import opened Connect
  import opened ConnectProperties
  import opened ConnectType

  /** The category server's code for each innermost error. */
  function TypeCodeForRoot(root: Error): Code {
    match root
    case Sentinel(k) =>
      (match k
       case TypeNotFound => CodeNotFound
       case AlreadyExists => CodeAlreadyExists
       case AdminRequired => CodePermissionDenied
       case InvalidInput => CodeInvalidArgument
       case _ => CodeInternal)
    case NoRows => CodeNotFound
    case _ => CodeInternal
  }

  lemma TypeMapErrorByRoot(e: Error)
    ensures TypeMapError(e).code == TypeCodeForRoot(Root(e))
    ensures TypeMapError(e).detail ==
      if Root(e) == Sentinel(AdminRequired) then OnlyAdminCanManageTypes
      else if Root(e) == NoRows then Message("not found")
      else if TypeCodeForRoot(Root(e)) == CodeInternal then Message("internal error")
      else Cause(e)
  {
    IsUnwrappedIffRoot(e, Sentinel(TypeNotFound));
    IsUnwrappedIffRoot(e, Sentinel(AlreadyExists));
    IsUnwrappedIffRoot(e, Sentinel(AdminRequired));
    IsUnwrappedIffRoot(e, Sentinel(InvalidInput));
    IsUnwrappedIffRoot(e, NoRows);
  }

  /** The two servers answer an error alike, except the three record-level refusals, which
      the category server reports as internal errors. */
  lemma ServersDisagreeOnlyOnRecordRefusals(e: Error)
    ensures MapError(e) != TypeMapError(e) <==>
      Root(e) == Sentinel(NotFound) || Root(e) == Sentinel(Unauthorized) || Root(e) == Sentinel(NotOwner)
    ensures MapError(e) != TypeMapError(e) ==> TypeMapError(e) == RpcError(CodeInternal, Message("internal error"))
  {
    MapErrorByRoot(e);
    TypeMapErrorByRoot(e);
  }

  /** The category operations never refuse with a record-level error, so for them the two
      mappings agree: a non-admin is PermissionDenied, a missing category NotFound. */
  lemma TypeRefusalCodes(id: Int32)
    ensures TypeMapError(AdminRequiredError()) == RpcError(CodePermissionDenied, OnlyAdminCanManageTypes)
    ensures TypeMapError(TypeMissingError(id)) == RpcError(CodeNotFound, Cause(TypeMissingError(id)))
  {
    TypeMapErrorByRoot(AdminRequiredError());
    TypeMapErrorByRoot(TypeMissingError(id));
  }

  const AdminDenied: RpcError := RpcError(CodePermissionDenied, OnlyAdminCanManageTypes)

  /** A caller the context does not name as admin is denied by every category write and by
      Get, with the database unchanged; a missing body is refused first, with InvalidArgument. */
  lemma NonAdminDenied(env: Env, st: DbState, ctx: AuthContext, id: Int32, p: ProtoTypeThing, now: Time)
    requires !GetUserFromContext(ctx).1
    ensures TypeCreateReply(env, st, ctx, TypeCreateRequest(Some(p)), now) == (Failure(AdminDenied), st)
    ensures TypeUpdateReply(env, st, ctx, TypeUpdateRequest(id, Some(p)), now) == (Failure(AdminDenied), st)
    ensures TypeGetReply(env, st, ctx, TypeIdRequest(id)) == Failure(AdminDenied)
    ensures TypeDeleteReply(env, st, ctx, TypeIdRequest(id), now) == (Some(AdminDenied), st)
    ensures TypeCreateReply(env, st, ctx, TypeCreateRequest(None), now) == (Failure(MissingTypeError), st)
    ensures TypeUpdateReply(env, st, ctx, TypeUpdateRequest(id, None), now) == (Failure(MissingTypeDataError), st)
  {
    var userId := GetUserFromContext(ctx).0;
    TypeOpsAdminFirst(env, st, userId, id, ProtoToTypeThing(p), now);
    TypeRefusalCodes(id);
  }

  /** Across the interceptor: a token whose user is not an admin cannot read a category. */
  lemma NonAdminTokenDenied(env: Env, st: DbState, ctx: AuthContext, header: string, tokens: TokenParser, id: Int32)
    requires Authenticate(header, tokens).Success? && !Authenticate(header, tokens).value.isAdmin
    ensures TypeGetReply(env, st, WithUser(ctx, Authenticate(header, tokens).value), TypeIdRequest(id)) == Failure(AdminDenied)
  {
    AcceptedCarriesTokenUser(ctx, header, tokens, (c: AuthContext) => Success(0));
    TypeRefusalCodes(id);
  }

  /** For an admin, Get, Update and Delete of a category that is not there answer NotFound,
      with the database unchanged. */
  lemma AdminMissingCategory(env: Env, st: DbState, ctx: AuthContext, id: Int32, p: ProtoTypeThing, now: Time)
    requires GetUserFromContext(ctx).1 && !TypePresent(env, st.types, id)
    ensures var missing := RpcError(CodeNotFound, Cause(TypeMissingError(id)));
      && TypeGetReply(env, st, ctx, TypeIdRequest(id)) == Failure(missing)
      && TypeUpdateReply(env, st, ctx, TypeUpdateRequest(id, Some(p)), now) == (Failure(missing), st)
      && TypeDeleteReply(env, st, ctx, TypeIdRequest(id), now) == (Some(missing), st)
  {
    TypeOpsNeedCategory(env, st, GetUserFromContext(ctx).0, id, ProtoToTypeThing(p), now);
    TypeRefusalCodes(id);
  }

  /** List answers an empty list, not an error, exactly when the query reports "no rows";
      in particular when it finds no category at all. */
  lemma TypeListEmptyOnNoRows(env: Env, st: DbState, msg: TypeListRequest)
    ensures var (limit, offset) := Pagination(TypeListDefaultLimit, msg.limit, msg.offset);
      var spec := ListTypeSpec(env, st.types, offset, limit, TypeListParamsOf(msg));
      TypeListReply(env, st, msg) == Success(Some([])) <==> spec.Failure? && Is(spec.error, NoRows)
    ensures var (limit, offset) := Pagination(TypeListDefaultLimit, msg.limit, msg.offset);
      var (q, args) := TypeListStatement(offset, limit, TypeListParamsOf(msg));
      SelectTypes !in env.failing && env.typeList(q, args, st.types) == Success([]) ==>
        TypeListReply(env, st, msg) == Success(Some([]))
  {
    var (limit, offset) := Pagination(TypeListDefaultLimit, msg.limit, msg.offset);
    var spec := ListTypeSpec(env, st.types, offset, limit, TypeListParamsOf(msg));
    NoRowsPassedOn(env, st, offset, limit, ListParams(None, None, None, None), TypeListParamsOf(msg));
    if spec.Failure? {
      assert Is(Wrapped(ListingTypes, spec.error), NoRows) == Is(spec.error, NoRows);
    } else {
      assert ListTypesFlow(env, st, offset, limit, TypeListParamsOf(msg)) == spec;
    }
  }

  predicate TypeListFilterOnWire(p: TypeListParams) {
    p.keywords != Some("") && p.createdBy != Some(0) && p.externalId != Some(0) && p.inactivated != Some(false)
  }

  function TypeListRequestFor(p: TypeListParams, limit: Int32, offset: Int32): TypeListRequest {
    TypeListRequest(DerefString(p.keywords), DerefInt32(p.createdBy), DerefInt32(p.externalId), DerefBool(p.inactivated), limit, offset)
  }

  /** Request to category filters loses nothing, and the filters a request can produce are
      exactly those without an empty keyword, a zero number or a false flag. */
  lemma TypeListFiltersRoundTrip(msg: TypeListRequest, p: TypeListParams, limit: Int32, offset: Int32)
    ensures TypeListFilterOnWire(TypeListParamsOf(msg))
    ensures TypeListRequestFor(TypeListParamsOf(msg), msg.limit, msg.offset) == msg
    ensures TypeListParamsOf(TypeListRequestFor(p, limit, offset)) == p <==> TypeListFilterOnWire(p)
  {
    StringRoundTrips(msg.keywords, p.keywords);
    Int32RoundTrips(msg.createdBy, p.createdBy);
    Int32RoundTrips(msg.externalId, p.externalId);
  }

  /** The category count is the database's answer to the statement the keyword filter picks,
      truncated to int32, and no admin check guards it. A failing query is internal. */
  lemma TypeCountAnswers(env: Env, st: DbState, msg: TypeCountRequest)
    ensures var (q, args) := TypeCountStatement(TypeCountParamsOf(msg));
      var r := TypeCountReply(env, st, msg);
      && (q == TypeCountWithKeywords <==> msg.keywords != "")
      && (SelectCountTypes in env.failing ==> r == Failure(RpcError(CodeInternal, Message("internal error"))))
      && (SelectCountTypes !in env.failing ==>
            && (r.Success? <==> env.typeCount(q, args, st.types).Success?)
            && (r.Success? ==> r.value == ToInt32(env.typeCount(q, args, st.types).value)))
  {
    if SelectCountTypes in env.failing {
      TypeMapErrorByRoot(Wrapped(CountingTypes, DbUnavailable()));
    }
  }

  /** The category list and count read the same filters: for requests with the same keywords,
      creator and flag, both take the keyword statement or neither does, and the count binds
      the values the list binds for them, in the same order. */
  lemma TypeListAndCountBindSameFilters(lmsg: TypeListRequest, cmsg: TypeCountRequest, offset: int, limit: int)
    requires lmsg.keywords == cmsg.keywords && lmsg.createdBy == cmsg.createdBy && lmsg.inactivated == cmsg.inactivated
    ensures var (lq, largs) := TypeListStatement(offset, limit, TypeListParamsOf(lmsg));
      var (cq, cargs) := TypeCountStatement(TypeCountParamsOf(cmsg));
      && (lq == TypeListWithKeywords <==> cq == TypeCountWithKeywords)
      && (cq == TypeCountWithKeywords ==> |largs| == 6 && cargs == largs[2..4] + [largs[5]])
      && (cq == TypeCountWithoutKeywords ==> |largs| == 5 && cargs == [largs[2], largs[4]])
  {
  }

  /** A category created over the wire is the caller's, with the id the database chose. */
  lemma TypeCreateOwnedByCaller(env: Env, st: DbState, ctx: AuthContext, msg: TypeCreateRequest, now: Time)
    ensures var r := TypeCreateReply(env, st, ctx, msg, now).0;
      r.Success? ==> r.value.createdBy == GetUserFromContext(ctx).0 && r.value.id == env.nextTypeId(st.types)
  {
    if msg.typeThing.Some? {
      var (userId, isAdmin) := GetUserFromContext(ctx);
      var tt := ProtoToTypeThing(msg.typeThing.value);
      if isAdmin {
        CreateTypeChoosesIdAndCreator(env, st, userId, tt, 0, 0, now);
      } else {
        TypeOpsAdminFirst(env, st, userId, 0, tt, now);
      }
    }
  }
}
