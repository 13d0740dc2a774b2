/** The Connect RPC handlers of the record service (connect_server.go). Each handler turns the
    request message into domain values, calls the business service and maps its outcome back
    to a response message or a Connect error. Every handler is a method of `ThingServer`,
    proved equal to a reply function on the database state; the properties of the replies are
    in ConnectProperties. */
module Connect {
  import opened Wrappers
  import opened GoInt
  import opened Domain
  import opened Errors
  import opened Storage
  import opened Business
  import opened Mappers
  import opened Auth
  import opened Rpc

  // =========================================================================================
  // Request messages. Protobuf scalars have no "absent" state: 0, "" and false stand for it.

  datatype ListRequest = ListRequest(typeId: Int32, createdBy: Int32, inactivated: bool, validated: bool, limit: Int32, offset: Int32)
  type GeoJsonRequest = ListRequest
  datatype SearchRequest = SearchRequest(keywords: string, typeId: Int32, createdBy: Int32, inactivated: bool, validated: bool, limit: Int32, offset: Int32)
  datatype CountRequest = CountRequest(keywords: string, typeId: Int32, createdBy: Int32, inactivated: bool, validated: bool)
  datatype ListByExternalIdRequest = ListByExternalIdRequest(externalId: Int32, limit: Int32, offset: Int32)
  /** The Get and Delete requests. */
  datatype IdRequest = IdRequest(id: string)
  datatype CreateRequest = CreateRequest(thing: Option<ProtoThing>)
  datatype UpdateRequest = UpdateRequest(id: string, thing: Option<ProtoThing>)

  // =========================================================================================
  // Helpers.

  /** `mapErrorToConnect`: the first `errors.Is` test that holds decides the code. Internal
      errors are logged and answered with a fixed text, never with the error itself. */
  function MapError(e: Error): (r: RpcError)
    ensures r.code == CodeInternal <==> r.detail == Message("internal error")
    ensures r.detail.Cause? ==> r.detail.err == e
  {
    if Is(e, Sentinel(NotFound)) then RpcError(CodeNotFound, Cause(e))
    else if Is(e, Sentinel(TypeNotFound)) then RpcError(CodeNotFound, Cause(e))
    else if Is(e, Sentinel(AlreadyExists)) then RpcError(CodeAlreadyExists, Cause(e))
    else if Is(e, Sentinel(Unauthorized)) then RpcError(CodePermissionDenied, Cause(e))
    else if Is(e, Sentinel(NotOwner)) then RpcError(CodePermissionDenied, Cause(e))
    else if Is(e, Sentinel(AdminRequired)) then RpcError(CodePermissionDenied, OnlyAdminCanManageTypes)
    else if Is(e, Sentinel(InvalidInput)) then RpcError(CodeInvalidArgument, Cause(e))
    else if Is(e, NoRows) then RpcError(CodeNotFound, Message("not found"))
    else RpcError(CodeInternal, Message("internal error"))
  }

  /** A request flag sets a filter only when true: `false` means "no filter". */
  function TrueOnly(b: bool): (r: Option<bool>)
    ensures r.Some? <==> b
    ensures r != Some(false)
  {
    if b then Some(true) else None
  }

  function ListParamsOf(msg: ListRequest): ListParams {
    ListParams(Int32Ptr(msg.typeId), Int32Ptr(msg.createdBy), TrueOnly(msg.inactivated), TrueOnly(msg.validated))
  }

  function SearchParamsOf(msg: SearchRequest): SearchParams {
    SearchParams(StringPtr(msg.keywords), Int32Ptr(msg.typeId), Int32Ptr(msg.createdBy), TrueOnly(msg.inactivated), TrueOnly(msg.validated))
  }

  function CountParamsOf(msg: CountRequest): CountParams {
    SearchParams(StringPtr(msg.keywords), Int32Ptr(msg.typeId), Int32Ptr(msg.createdBy), TrueOnly(msg.inactivated), TrueOnly(msg.validated))
  }

  /** Limit and offset of a list request: a limit that is not positive gives the default, an
      offset that is not positive gives 0. */
  function Pagination(defaultLimit: int, limit: Int32, offset: Int32): (r: (int, int))
    ensures limit > 0 ==> r.0 == limit as int
    ensures limit <= 0 ==> r.0 == defaultLimit
    ensures r.1 >= 0 && (offset > 0 ==> r.1 == offset as int) && (offset <= 0 ==> r.1 == 0)
  {
    (if limit > 0 then limit as int else defaultLimit, if offset > 0 then offset as int else 0)
  }

  /** The slice of list items, each as a non-nil pointer. */
  function Pointers<T>(items: seq<T>): (r: seq<Option<T>>)
    ensures |r| == |items| && forall i :: 0 <= i < |items| ==> r[i] == Some(items[i])
  {
    seq(|items|, i requires 0 <= i < |items| => Some(items[i]))
  }

  /** The list the response carries: one wire item per domain item, in the same order. */
  function ProtoList(items: seq<ThingList>): (r: seq<Option<ProtoThingList>>)
    ensures |r| == |items| && forall i :: 0 <= i < |items| ==> r[i] == Some(ThingListToProto(items[i]))
  {
    seq(|items|, i requires 0 <= i < |items| => Some(ThingListToProto(items[i])))
  }

  function ReplyList(res: Result<seq<ThingList>, Error>): Result<Option<seq<Option<ProtoThingList>>>, RpcError> {
    match res
    case Failure(e) => Failure(MapError(e))
    case Success(list) => Success(Some(ProtoList(list)))
  }

  function ReplyThing(res: Result<Thing, Error>): Result<ProtoThing, RpcError> {
    match res
    case Failure(e) => Failure(MapError(e))
    case Success(t) => Success(ThingToProto(t))
  }

  /** The reply of a call whose business result may be a nil record: the mapper sends nil to a
      response with no record. */
  function ReplyMaybeThing(res: Result<Option<Thing>, Error>): Result<Option<ProtoThing>, RpcError> {
    match res
    case Failure(e) => Failure(MapError(e))
    case Success(t) => Success(MapPtr(ThingToProto, t))
  }

  const BadIdError: RpcError := RpcError(CodeInvalidArgument, Message("invalid template_4_your_project_name ID format"))
  const MissingThingError: RpcError := RpcError(CodeInvalidArgument, Message("template_4_your_project_name is required"))
  const MissingThingDataError: RpcError := RpcError(CodeInvalidArgument, Message("template_4_your_project_name data is required"))
  const NoneWithExternalIdError: RpcError := RpcError(CodeNotFound, Message("no template_4_your_project_names found with this external ID"))

  // =========================================================================================
  // Reference definitions of the handlers, on the database state before the call.

  function ListReply(env: Env, st: DbState, defaultLimit: int, msg: ListRequest): Result<Option<seq<Option<ProtoThingList>>>, RpcError> {
    var (limit, offset) := Pagination(defaultLimit, msg.limit, msg.offset);
    ReplyList(ListFlow(env, st, offset, limit, ListParamsOf(msg)))
  }

  function CreateReply(env: Env, st: DbState, parse: UuidParser, ctx: AuthContext, msg: CreateRequest, now: Time): (Result<ProtoThing, RpcError>, DbState) {
    if msg.thing.None? then (Failure(MissingThingError), st)
    else match ProtoToThing(parse, msg.thing)
      case Failure(e) => (Failure(RpcError(CodeInvalidArgument, Cause(e))), st)
      case Success(t) =>
        var (res, st') := CreateFlow(env, st, GetUserFromContext(ctx).0, t.value, now);
        (ReplyThing(res), st')
  }

  function GetReply(env: Env, st: DbState, parse: UuidParser, msg: IdRequest): Result<ProtoThing, RpcError> {
    match parse(msg.id)
    case None => Failure(BadIdError)
    case Some(id) => ReplyThing(GetFlow(env, st, id))
  }

  function UpdateReply(env: Env, st: DbState, parse: UuidParser, ctx: AuthContext, msg: UpdateRequest, now: Time): (Result<ProtoThing, RpcError>, DbState) {
    match parse(msg.id)
    case None => (Failure(BadIdError), st)
    case Some(id) =>
      if msg.thing.None? then (Failure(MissingThingDataError), st)
      else match ProtoToThing(parse, msg.thing)
        case Failure(e) => (Failure(RpcError(CodeInvalidArgument, Cause(e))), st)
        case Success(t) =>
          var (res, st') := UpdateFlow(env, st, GetUserFromContext(ctx).0, id, t.value, now);
          (ReplyThing(res), st')
  }

  /** Update over the business layer as written (Finding 1). */
  function UpdateAsWrittenReply(env: Env, st: DbState, parse: UuidParser, ctx: AuthContext, msg: UpdateRequest, now: Time): (Result<Option<ProtoThing>, RpcError>, DbState) {
    match parse(msg.id)
    case None => (Failure(BadIdError), st)
    case Some(id) =>
      if msg.thing.None? then (Failure(MissingThingDataError), st)
      else match ProtoToThing(parse, msg.thing)
        case Failure(e) => (Failure(RpcError(CodeInvalidArgument, Cause(e))), st)
        case Success(t) =>
          var (res, st') := UpdateAsWrittenFlow(env, st, GetUserFromContext(ctx).0, id, t.value, now);
          (ReplyMaybeThing(res), st')
  }

  function DeleteReply(env: Env, st: DbState, parse: UuidParser, ctx: AuthContext, msg: IdRequest, now: Time): (Option<RpcError>, DbState) {
    match parse(msg.id)
    case None => (Some(BadIdError), st)
    case Some(id) =>
      var (err, st') := DeleteFlow(env, st, GetUserFromContext(ctx).0, id, now);
      (if err.Some? then Some(MapError(err.value)) else None, st')
  }

  function SearchReply(env: Env, st: DbState, defaultLimit: int, msg: SearchRequest): Result<Option<seq<Option<ProtoThingList>>>, RpcError> {
    var (limit, offset) := Pagination(defaultLimit, msg.limit, msg.offset);
    ReplyList(SearchFlow(env, st, offset, limit, SearchParamsOf(msg)))
  }

  function CountReply(env: Env, st: DbState, msg: CountRequest): Result<Int32, RpcError> {
    match CountFlow(env, st, CountParamsOf(msg))
    case Failure(e) => Failure(MapError(e))
    case Success(n) => Success(n)
  }

  /** Count over the business layer as written (Finding 2). */
  function CountAsWrittenReply(env: Env, st: DbState, msg: CountRequest): Result<Int32, RpcError> {
    match CountAsWrittenFlow(env, st, CountParamsOf(msg))
    case Failure(e) => Failure(MapError(e))
    case Success(n) => Success(n)
  }

  function GeoJsonReply(env: Env, st: DbState, defaultLimit: int, msg: GeoJsonRequest): Result<string, RpcError> {
    var (limit, offset) := Pagination(defaultLimit, msg.limit, msg.offset);
    match GeoJsonFlow(env, st, offset, limit, ListParamsOf(msg))
    case Failure(e) => Failure(MapError(e))
    case Success(s) => Success(s)
  }

  function ListByExternalIdReply(env: Env, st: DbState, defaultLimit: int, msg: ListByExternalIdRequest): Result<Option<seq<Option<ProtoThingList>>>, RpcError> {
    var (limit, offset) := Pagination(defaultLimit, msg.limit, msg.offset);
    match ListByExternalIdFlow(env, st, offset, limit, msg.externalId as int)
    case Failure(e) => Failure(MapError(e))
    case Success(list) => if |list| == 0 then Failure(NoneWithExternalIdError) else Success(Some(ProtoList(list)))
  }

  // =========================================================================================
  // The handlers' first steps, as the code writes them: a filter is set field by field.

  method ListParamsFrom(msg: ListRequest) returns (params: ListParams)
    ensures params == ListParamsOf(msg)
  {
    params := ListParams(None, None, None, None);
    if msg.typeId != 0 {
      params := params.(typeId := Some(msg.typeId));
    }
    if msg.createdBy != 0 {
      params := params.(createdBy := Some(msg.createdBy));
    }
    if msg.inactivated {
      params := params.(inactivated := Some(msg.inactivated));
    }
    if msg.validated {
      params := params.(validated := Some(msg.validated));
    }
  }

  method SearchParamsFrom(msg: SearchRequest) returns (params: SearchParams)
    ensures params == SearchParamsOf(msg)
  {
    params := SearchParams(None, None, None, None, None);
    if msg.keywords != "" {
      params := params.(keywords := Some(msg.keywords));
    }
    if msg.typeId != 0 {
      params := params.(typeId := Some(msg.typeId));
    }
    if msg.createdBy != 0 {
      params := params.(createdBy := Some(msg.createdBy));
    }
    if msg.inactivated {
      params := params.(inactivated := Some(msg.inactivated));
    }
    if msg.validated {
      params := params.(validated := Some(msg.validated));
    }
  }

  method CountParamsFrom(msg: CountRequest) returns (params: CountParams)
    ensures params == CountParamsOf(msg)
  {
    params := SearchParams(None, None, None, None, None);
    if msg.keywords != "" {
      params := params.(keywords := Some(msg.keywords));
    }
    if msg.typeId != 0 {
      params := params.(typeId := Some(msg.typeId));
    }
    if msg.createdBy != 0 {
      params := params.(createdBy := Some(msg.createdBy));
    }
    if msg.inactivated {
      params := params.(inactivated := Some(msg.inactivated));
    }
    if msg.validated {
      params := params.(validated := Some(msg.validated));
    }
  }

  method PageFrom(defaultLimit: int, msgLimit: Int32, msgOffset: Int32) returns (limit: int, offset: int)
    ensures (limit, offset) == Pagination(defaultLimit, msgLimit, msgOffset)
  {
    limit := defaultLimit;
    if msgLimit > 0 {
      limit := msgLimit as int;
    }
    offset := 0;
    if msgOffset > 0 {
      offset := msgOffset as int;
    }
  }

  // =========================================================================================
  // The server (`Template4ServiceNameConnectServer`).

  class ThingServer {
    const business: BusinessService
    /** `uuid.Parse`. */
    const parseUuid: UuidParser

    constructor (business: BusinessService, parseUuid: UuidParser)
      ensures this.business == business && this.parseUuid == parseUuid
    {
      this.business := business;
      this.parseUuid := parseUuid;
    }

    /** The slice mapper applied to a (non-nil) business list. */
    method ToProtoList(list: seq<ThingList>) returns (r: Option<seq<Option<ProtoThingList>>>)
      ensures r == Some(ProtoList(list))
    {
      r := ThingListSliceToProto(Some(Pointers(list)));
      assert r.value == ProtoList(list) by {
        forall i | 0 <= i < |list| ensures r.value[i] == ProtoList(list)[i] {
          assert Pointers(list)[i] == Some(list[i]);
        }
      }
    }

    method List(msg: ListRequest) returns (r: Result<Option<seq<Option<ProtoThingList>>>, RpcError>)
      ensures r == ListReply(business.store.dbi.env, business.store.dbi.State(), business.listDefaultLimit, msg)
    {
      var params := ListParamsFrom(msg);
      var limit, offset := PageFrom(business.listDefaultLimit, msg.limit, msg.offset);
      var list := business.List(offset, limit, params);
      if list.Failure? {
        return Failure(MapError(list.error));
      }
      var items := ToProtoList(list.value);
      r := Success(items);
    }

    method Create(ctx: AuthContext, msg: CreateRequest, now: Time) returns (r: Result<ProtoThing, RpcError>)
      modifies business.store.dbi
      ensures (r, business.store.dbi.State()) ==
              CreateReply(business.store.dbi.env, old(business.store.dbi.State()), parseUuid, ctx, msg, now)
    {
      var (userId, _) := GetUserFromContext(ctx);
      if msg.thing.None? {
        return Failure(MissingThingError);
      }
      var domain := ProtoToThing(parseUuid, msg.thing);
      if domain.Failure? {
        return Failure(RpcError(CodeInvalidArgument, Cause(domain.error)));
      }
      var created := business.Create(userId, domain.value.value, now);
      if created.Failure? {
        return Failure(MapError(created.error));
      }
      r := Success(ThingToProto(created.value));
    }

    method Get(msg: IdRequest) returns (r: Result<ProtoThing, RpcError>)
      ensures r == GetReply(business.store.dbi.env, business.store.dbi.State(), parseUuid, msg)
    {
      var id := parseUuid(msg.id);
      if id.None? {
        return Failure(BadIdError);
      }
      var thing := business.Get(id.value);
      if thing.Failure? {
        return Failure(MapError(thing.error));
      }
      r := Success(ThingToProto(thing.value));
    }

    method Update(ctx: AuthContext, msg: UpdateRequest, now: Time) returns (r: Result<ProtoThing, RpcError>)
      modifies business.store.dbi
      ensures (r, business.store.dbi.State()) ==
              UpdateReply(business.store.dbi.env, old(business.store.dbi.State()), parseUuid, ctx, msg, now)
    {
      var (userId, _) := GetUserFromContext(ctx);
      var id := parseUuid(msg.id);
      if id.None? {
        return Failure(BadIdError);
      }
      if msg.thing.None? {
        return Failure(MissingThingDataError);
      }
      var domain := ProtoToThing(parseUuid, msg.thing);
      if domain.Failure? {
        return Failure(RpcError(CodeInvalidArgument, Cause(domain.error)));
      }
      var updated := business.Update(userId, id.value, domain.value.value, now);
      if updated.Failure? {
        return Failure(MapError(updated.error));
      }
      r := Success(ThingToProto(updated.value));
    }

    /** `Update` over the business layer as written (Finding 1). */
    method UpdateAsWritten(ctx: AuthContext, msg: UpdateRequest, now: Time) returns (r: Result<Option<ProtoThing>, RpcError>)
      modifies business.store.dbi
      ensures (r, business.store.dbi.State()) ==
              UpdateAsWrittenReply(business.store.dbi.env, old(business.store.dbi.State()), parseUuid, ctx, msg, now)
    {
      var (userId, _) := GetUserFromContext(ctx);
      var id := parseUuid(msg.id);
      if id.None? {
        return Failure(BadIdError);
      }
      if msg.thing.None? {
        return Failure(MissingThingDataError);
      }
      var domain := ProtoToThing(parseUuid, msg.thing);
      if domain.Failure? {
        return Failure(RpcError(CodeInvalidArgument, Cause(domain.error)));
      }
      var updated := business.UpdateAsWritten(userId, id.value, domain.value.value, now);
      if updated.Failure? {
        return Failure(MapError(updated.error));
      }
      r := Success(MapPtr(ThingToProto, updated.value));
    }

    method Delete(ctx: AuthContext, msg: IdRequest, now: Time) returns (r: Option<RpcError>)
      modifies business.store.dbi
      ensures (r, business.store.dbi.State()) ==
              DeleteReply(business.store.dbi.env, old(business.store.dbi.State()), parseUuid, ctx, msg, now)
    {
      var (userId, _) := GetUserFromContext(ctx);
      var id := parseUuid(msg.id);
      if id.None? {
        return Some(BadIdError);
      }
      var err := business.Delete(userId, id.value, now);
      if err.Some? {
        return Some(MapError(err.value));
      }
      r := None;
    }

    method Search(msg: SearchRequest) returns (r: Result<Option<seq<Option<ProtoThingList>>>, RpcError>)
      ensures r == SearchReply(business.store.dbi.env, business.store.dbi.State(), business.listDefaultLimit, msg)
    {
      var params := SearchParamsFrom(msg);
      var limit, offset := PageFrom(business.listDefaultLimit, msg.limit, msg.offset);
      var list := business.Search(offset, limit, params);
      if list.Failure? {
        return Failure(MapError(list.error));
      }
      var items := ToProtoList(list.value);
      r := Success(items);
    }

    method Count(msg: CountRequest) returns (r: Result<Int32, RpcError>)
      ensures r == CountReply(business.store.dbi.env, business.store.dbi.State(), msg)
    {
      var params := CountParamsFrom(msg);
      var count := business.Count(params);
      if count.Failure? {
        return Failure(MapError(count.error));
      }
      r := Success(count.value);
    }

    /** `Count` over the business layer as written (Finding 2). */
    method CountAsWritten(msg: CountRequest) returns (r: Result<Int32, RpcError>)
      ensures r == CountAsWrittenReply(business.store.dbi.env, business.store.dbi.State(), msg)
    {
      var params := CountParamsFrom(msg);
      var count := business.CountAsWritten(params);
      if count.Failure? {
        return Failure(MapError(count.error));
      }
      r := Success(count.value);
    }

    method GeoJson(msg: GeoJsonRequest) returns (r: Result<string, RpcError>)
      ensures r == GeoJsonReply(business.store.dbi.env, business.store.dbi.State(), business.listDefaultLimit, msg)
    {
      var params := ListParamsFrom(msg);
      var limit, offset := PageFrom(business.listDefaultLimit, msg.limit, msg.offset);
      var result := business.GeoJson(offset, limit, params);
      if result.Failure? {
        return Failure(MapError(result.error));
      }
      r := Success(result.value);
    }

    method ListByExternalId(msg: ListByExternalIdRequest) returns (r: Result<Option<seq<Option<ProtoThingList>>>, RpcError>)
      ensures r == ListByExternalIdReply(business.store.dbi.env, business.store.dbi.State(), business.listDefaultLimit, msg)
    {
      var limit, offset := PageFrom(business.listDefaultLimit, msg.limit, msg.offset);
      var list := business.ListByExternalId(offset, limit, msg.externalId as int);
      if list.Failure? {
        return Failure(MapError(list.error));
      }
      if |list.value| == 0 {
        return Failure(NoneWithExternalIdError);
      }
      var items := ToProtoList(list.value);
      r := Success(items);
    }
  }
}
