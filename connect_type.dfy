/** The Connect RPC handlers of the category service (connect_type_thing_server.go): the same
    shape as the record handlers, with the admin flag from the context passed to the business
    layer, a default page of 250, and "no rows" on List answered with an empty list. */
module ConnectType {
  import opened Wrappers
  import opened GoInt
  import opened Domain
  import opened Errors
  import opened Storage
  import opened Business
  import opened Mappers
  import opened Auth
  import opened Rpc
  import opened Connect

  datatype TypeListRequest = TypeListRequest(keywords: string, createdBy: Int32, externalId: Int32, inactivated: bool, limit: Int32, offset: Int32)
  datatype TypeCountRequest = TypeCountRequest(keywords: string, createdBy: Int32, inactivated: bool)
  /** The Get and Delete requests. */
  datatype TypeIdRequest = TypeIdRequest(id: Int32)
  datatype TypeCreateRequest = TypeCreateRequest(typeThing: Option<ProtoTypeThing>)
  datatype TypeUpdateRequest = TypeUpdateRequest(id: Int32, typeThing: Option<ProtoTypeThing>)

  /** The page size when a List request asks for none. */
  const TypeListDefaultLimit: int := 250

  const MissingTypeError: RpcError := RpcError(CodeInvalidArgument, Message("type_template_4_your_project_name is required"))
  const MissingTypeDataError: RpcError := RpcError(CodeInvalidArgument, Message("type_template_4_your_project_name data is required"))

  /** `mapErrorToConnect` of the category server: fewer cases than the record server's, so a
      record-level NotFound, Unauthorized or NotOwner error is internal here. */
  function TypeMapError(e: Error): (r: RpcError)
    ensures r.code == CodeInternal <==> r.detail == Message("internal error")
    ensures r.detail.Cause? ==> r.detail.err == e
  {
    if Is(e, Sentinel(TypeNotFound)) then RpcError(CodeNotFound, Cause(e))
    else if Is(e, Sentinel(AlreadyExists)) then RpcError(CodeAlreadyExists, Cause(e))
    else if Is(e, Sentinel(AdminRequired)) then RpcError(CodePermissionDenied, OnlyAdminCanManageTypes)
    else if Is(e, Sentinel(InvalidInput)) then RpcError(CodeInvalidArgument, Cause(e))
    else if Is(e, NoRows) then RpcError(CodeNotFound, Message("not found"))
    else RpcError(CodeInternal, Message("internal error"))
  }

  function TypeListParamsOf(msg: TypeListRequest): TypeListParams {
    TypeListParams(StringPtr(msg.keywords), Int32Ptr(msg.createdBy), Int32Ptr(msg.externalId), TrueOnly(msg.inactivated))
  }

  function TypeCountParamsOf(msg: TypeCountRequest): TypeCountParams {
    TypeCountParams(StringPtr(msg.keywords), Int32Ptr(msg.createdBy), TrueOnly(msg.inactivated))
  }

  function ProtoTypeList(items: seq<TypeThingList>): (r: seq<Option<ProtoTypeThingList>>)
    ensures |r| == |items| && forall i :: 0 <= i < |items| ==> r[i] == Some(TypeThingListToProto(items[i]))
  {
    seq(|items|, i requires 0 <= i < |items| => Some(TypeThingListToProto(items[i])))
  }

  function ReplyType(res: Result<TypeThing, Error>): Result<ProtoTypeThing, RpcError> {
    match res
    case Failure(e) => Failure(TypeMapError(e))
    case Success(t) => Success(TypeThingToProto(t))
  }

  // =========================================================================================
  // Reference definitions of the handlers.

  function TypeListReply(env: Env, st: DbState, msg: TypeListRequest): Result<Option<seq<Option<ProtoTypeThingList>>>, RpcError> {
    var (limit, offset) := Pagination(TypeListDefaultLimit, msg.limit, msg.offset);
    match ListTypesFlow(env, st, offset, limit, TypeListParamsOf(msg))
    case Failure(e) => if Is(e, NoRows) then Success(Some([])) else Failure(TypeMapError(e))
    case Success(list) => Success(Some(ProtoTypeList(list)))
  }

  function TypeCreateReply(env: Env, st: DbState, ctx: AuthContext, msg: TypeCreateRequest, now: Time): (Result<ProtoTypeThing, RpcError>, DbState) {
    if msg.typeThing.None? then (Failure(MissingTypeError), st)
    else
      var (userId, isAdmin) := GetUserFromContext(ctx);
      var (res, st') := CreateTypeFlow(env, st, userId, isAdmin, ProtoToTypeThing(msg.typeThing.value), now);
      (ReplyType(res), st')
  }

  function TypeGetReply(env: Env, st: DbState, ctx: AuthContext, msg: TypeIdRequest): Result<ProtoTypeThing, RpcError> {
    ReplyType(GetTypeFlow(env, st, GetUserFromContext(ctx).1, msg.id))
  }

  function TypeUpdateReply(env: Env, st: DbState, ctx: AuthContext, msg: TypeUpdateRequest, now: Time): (Result<ProtoTypeThing, RpcError>, DbState) {
    if msg.typeThing.None? then (Failure(MissingTypeDataError), st)
    else
      var (userId, isAdmin) := GetUserFromContext(ctx);
      var (res, st') := UpdateTypeFlow(env, st, userId, isAdmin, msg.id, ProtoToTypeThing(msg.typeThing.value), now);
      (ReplyType(res), st')
  }

  function TypeDeleteReply(env: Env, st: DbState, ctx: AuthContext, msg: TypeIdRequest, now: Time): (Option<RpcError>, DbState) {
    var (userId, isAdmin) := GetUserFromContext(ctx);
    var (err, st') := DeleteTypeFlow(env, st, userId, isAdmin, msg.id, now);
    (if err.Some? then Some(TypeMapError(err.value)) else None, st')
  }

  function TypeCountReply(env: Env, st: DbState, msg: TypeCountRequest): Result<Int32, RpcError> {
    match CountTypesFlow(env, st, TypeCountParamsOf(msg))
    case Failure(e) => Failure(TypeMapError(e))
    case Success(n) => Success(n)
  }

  // =========================================================================================
  // Filter builders, field by field.

  method TypeListParamsFrom(msg: TypeListRequest) returns (params: TypeListParams)
    ensures params == TypeListParamsOf(msg)
  {
    params := TypeListParams(None, None, None, None);
    if msg.keywords != "" {
      params := params.(keywords := Some(msg.keywords));
    }
    if msg.createdBy != 0 {
      params := params.(createdBy := Some(msg.createdBy));
    }
    if msg.externalId != 0 {
      params := params.(externalId := Some(msg.externalId));
    }
    if msg.inactivated {
      params := params.(inactivated := Some(msg.inactivated));
    }
  }

  method TypeCountParamsFrom(msg: TypeCountRequest) returns (params: TypeCountParams)
    ensures params == TypeCountParamsOf(msg)
  {
    params := TypeCountParams(None, None, None);
    if msg.keywords != "" {
      params := params.(keywords := Some(msg.keywords));
    }
    if msg.createdBy != 0 {
      params := params.(createdBy := Some(msg.createdBy));
    }
    if msg.inactivated {
      params := params.(inactivated := Some(msg.inactivated));
    }
  }

  // =========================================================================================
  // The server (`TypeTemplate4ServiceNameConnectServer`).

  class TypeServer {
    const business: BusinessService

    constructor (business: BusinessService)
      ensures this.business == business
    {
      this.business := business;
    }

    method ToProtoTypeList(list: seq<TypeThingList>) returns (r: Option<seq<Option<ProtoTypeThingList>>>)
      ensures r == Some(ProtoTypeList(list))
    {
      r := TypeThingListSliceToProto(Some(Pointers(list)));
      assert r.value == ProtoTypeList(list) by {
        forall i | 0 <= i < |list| ensures r.value[i] == ProtoTypeList(list)[i] {
          assert Pointers(list)[i] == Some(list[i]);
        }
      }
    }

    method List(msg: TypeListRequest) returns (r: Result<Option<seq<Option<ProtoTypeThingList>>>, RpcError>)
      ensures r == TypeListReply(business.store.dbi.env, business.store.dbi.State(), msg)
    {
      var params := TypeListParamsFrom(msg);
      var limit, offset := PageFrom(TypeListDefaultLimit, msg.limit, msg.offset);
      var list := business.ListTypes(offset, limit, params);
      if list.Failure? {
        if Is(list.error, NoRows) {
          return Success(Some([]));
        }
        return Failure(TypeMapError(list.error));
      }
      var items := ToProtoTypeList(list.value);
      r := Success(items);
    }

    method Create(ctx: AuthContext, msg: TypeCreateRequest, now: Time) returns (r: Result<ProtoTypeThing, RpcError>)
      modifies business.store.dbi
      ensures (r, business.store.dbi.State()) == TypeCreateReply(business.store.dbi.env, old(business.store.dbi.State()), ctx, msg, now)
    {
      var (userId, isAdmin) := GetUserFromContext(ctx);
      if msg.typeThing.None? {
        return Failure(MissingTypeError);
      }
      var domain := ProtoToTypeThing(msg.typeThing.value);
      var created := business.CreateType(userId, isAdmin, domain, now);
      if created.Failure? {
        return Failure(TypeMapError(created.error));
      }
      r := Success(TypeThingToProto(created.value));
    }

    method Get(ctx: AuthContext, msg: TypeIdRequest) returns (r: Result<ProtoTypeThing, RpcError>)
      ensures r == TypeGetReply(business.store.dbi.env, business.store.dbi.State(), ctx, msg)
    {
      var (_, isAdmin) := GetUserFromContext(ctx);
      var typeThing := business.GetType(isAdmin, msg.id);
      if typeThing.Failure? {
        return Failure(TypeMapError(typeThing.error));
      }
      r := Success(TypeThingToProto(typeThing.value));
    }

    method Update(ctx: AuthContext, msg: TypeUpdateRequest, now: Time) returns (r: Result<ProtoTypeThing, RpcError>)
      modifies business.store.dbi
      ensures (r, business.store.dbi.State()) == TypeUpdateReply(business.store.dbi.env, old(business.store.dbi.State()), ctx, msg, now)
    {
      var (userId, isAdmin) := GetUserFromContext(ctx);
      if msg.typeThing.None? {
        return Failure(MissingTypeDataError);
      }
      var domain := ProtoToTypeThing(msg.typeThing.value);
      var updated := business.UpdateType(userId, isAdmin, msg.id, domain, now);
      if updated.Failure? {
        return Failure(TypeMapError(updated.error));
      }
      r := Success(TypeThingToProto(updated.value));
    }

    method Delete(ctx: AuthContext, msg: TypeIdRequest, now: Time) returns (r: Option<RpcError>)
      modifies business.store.dbi
      ensures (r, business.store.dbi.State()) == TypeDeleteReply(business.store.dbi.env, old(business.store.dbi.State()), ctx, msg, now)
    {
      var (userId, isAdmin) := GetUserFromContext(ctx);
      var err := business.DeleteType(userId, isAdmin, msg.id, now);
      if err.Some? {
        return Some(TypeMapError(err.value));
      }
      r := None;
    }

    method Count(msg: TypeCountRequest) returns (r: Result<Int32, RpcError>)
      ensures r == TypeCountReply(business.store.dbi.env, business.store.dbi.State(), msg)
    {
      var params := TypeCountParamsFrom(msg);
      var count := business.CountTypes(params);
      if count.Failure? {
        return Failure(TypeMapError(count.error));
      }
      r := Success(count.value);
    }
  }
}
