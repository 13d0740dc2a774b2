/** The transport-independent business layer (`BusinessService` in business_service.go).
    Each operation is a fixed sequence of checks followed by one store call. Every operation
    has a reference definition over the database state (the `...Flow` functions), and the
    service's methods, which run the checks step by step against the store, are proved equal
    to it. The service's `DbConn` and `Store` are one database here, as in the server wiring. */
module Business {
  import opened Wrappers
  import opened GoInt
  import opened Domain
  import opened Errors
  import opened Text
  import opened Sql
  import opened Storage
  import opened StorageProperties

  /** `MinNameLength`, in bytes. */
  const MinNameLength: nat := 5

  /** `validateName`: a name of spaces only is empty; otherwise it must have at least
      `MinNameLength` bytes, counting the spaces around it. */
  function ValidateName(name: string): (r: Option<NameError>)
    ensures r == Some(EmptyName) <==> AllSpaces(name)
    ensures r == Some(NameTooShort) <==> !AllSpaces(name) && Utf8Len(name) < MinNameLength
    ensures r.None? <==> !AllSpaces(name) && Utf8Len(name) >= MinNameLength
  {
    TrimSpacesEmptyIff(name);
    if Utf8Len(TrimSpaces(name)) < 1 then Some(EmptyName)
    else if Utf8Len(name) < MinNameLength then Some(NameTooShort)
    else None
  }

  // The errors the service builds with `fmt.Errorf("%w: ...", sentinel, ...)`.

  function InvalidInputError(reason: NameError): Error { Wrapped(InvalidName(reason), Sentinel(InvalidInput)) }
  function TypeMissingError(typeId: Int32): Error { Wrapped(TypeIdContext(typeId), Sentinel(TypeNotFound)) }
  function NotFoundError(id: Uuid): Error { Wrapped(IdContext(id), Sentinel(NotFound)) }
  function AlreadyExistsError(id: Uuid): Error { Wrapped(IdContext(id), Sentinel(AlreadyExists)) }
  function NotOwnerError(userId: Int32, id: Uuid): Error { Wrapped(NotOwnerContext(userId, id), Sentinel(Unauthorized)) }
  function AdminRequiredError(): Error { Sentinel(AdminRequired) }

  /** The category check: the count query must succeed and find at least one row. */
  predicate TypePresent(env: Env, types: map<Int32, TypeThing>, typeId: Int32) {
    var count := ExistTypeCountSpec(env, types, typeId);
    count.Success? && count.value >= 1
  }

  /** The list-shaped calls: "no rows" anywhere in the chain is an empty list; any other
      error is wrapped with the call's context. */
  function EmptyOnNoRows<T>(res: Result<seq<T>, Error>, context: Context): (r: Result<seq<T>, Error>)
    ensures res.Success? ==> r == res
    ensures res.Failure? && Is(res.error, NoRows) ==> r == Success([])
    ensures res.Failure? && !Is(res.error, NoRows) ==> r == Failure(Wrapped(context, res.error))
  {
    match res
    case Success(l) => Success(l)
    case Failure(e) => if Is(e, NoRows) then Success([]) else Failure(Wrapped(context, e))
  }

  /** Wraps a failure with the call's context, keeps a success. */
  function WrapFailure<T>(res: Result<T, Error>, context: Context): Result<T, Error> {
    match res
    case Success(v) => Success(v)
    case Failure(e) => Failure(Wrapped(context, e))
  }

  // =========================================================================================
  // Reference definitions of the operations.

  function GeoJsonFlow(env: Env, st: DbState, offset: int, limit: int, p: GeoJsonParams): Result<string, Error> {
    match GeoJsonSpec(env, st.things, offset, limit, p)
    case Failure(e) => Failure(Wrapped(RetrievingGeoJson, e))
    case Success(s) => if s == "" then Success("empty") else Success(s)
  }

  function ListFlow(env: Env, st: DbState, offset: int, limit: int, p: ListParams): Result<seq<ThingList>, Error> {
    EmptyOnNoRows(ListSpec(env, st.things, offset, limit, p), Listing)
  }

  function ListByExternalIdFlow(env: Env, st: DbState, offset: int, limit: int, externalId: int): Result<seq<ThingList>, Error> {
    EmptyOnNoRows(ListByExternalIdSpec(env, st.things, offset, limit, externalId), ListingByExternalId)
  }

  function SearchFlow(env: Env, st: DbState, offset: int, limit: int, p: SearchParams): Result<seq<ThingList>, Error> {
    EmptyOnNoRows(SearchSpec(env, st.things, offset, limit, p), Searching)
  }

  function CountFlow(env: Env, st: DbState, p: CountParams): Result<Int32, Error> {
    WrapFailure(CountSpec(env, st.things, p), Counting)
  }

  function CreateFlow(env: Env, st: DbState, userId: Int32, t: Thing, now: Time): (Result<Thing, Error>, DbState) {
    var nameError := ValidateName(t.name);
    if nameError.Some? then (Failure(InvalidInputError(nameError.value)), st)
    else if !TypePresent(env, st.types, t.typeId) then (Failure(TypeMissingError(t.typeId)), st)
    else if ExistSpec(env, st.things, t.id) then (Failure(AlreadyExistsError(t.id)), st)
    else
      var t' := t.(createdBy := userId);
      CreateStamps(env, st, t', now);
      var (res, st') := CreateSpec(env, st, t', now);
      match res
      case Failure(e) => (Failure(Wrapped(Creating, e)), st')
      case Success(created) => (Success(created.value), st')
  }

  function DeleteFlow(env: Env, st: DbState, userId: Int32, id: Uuid, now: Time): (Option<Error>, DbState) {
    if !ExistSpec(env, st.things, id) then (Some(NotFoundError(id)), st)
    else if !OwnerSpec(env, st.things, id, userId) then (Some(NotOwnerError(userId, id)), st)
    else
      var (res, st') := DeleteSpec(env, st, id, userId, now);
      match res
      case Some(e) => (Some(Wrapped(Deleting, e)), st')
      case None => (None, st')
  }

  function GetFlow(env: Env, st: DbState, id: Uuid): Result<Thing, Error> {
    if !ExistSpec(env, st.things, id) then Failure(NotFoundError(id))
    else WrapFailure(GetSpec(env, st.things, id), Retrieving)
  }

  /** An update of an id present in the table never answers (nil, nil). */
  lemma UpdatePresentAnswers(env: Env, st: DbState, id: Uuid, t: Thing, now: Time)
    requires HasId(st.things, id)
    ensures UpdateSpec(env, st, id, t, now).0 != Success(None)
  {
    var i :| 0 <= i < |st.things| && st.things[i].id == id;
    assert CountId(st.things, id) != 0;
  }

  function UpdateFlow(env: Env, st: DbState, userId: Int32, id: Uuid, t: Thing, now: Time): (Result<Thing, Error>, DbState) {
    if !ExistSpec(env, st.things, id) then (Failure(NotFoundError(id)), st)
    else if !OwnerSpec(env, st.things, id, userId) then (Failure(NotOwnerError(userId, id)), st)
    else
      var nameError := ValidateName(t.name);
      if nameError.Some? then (Failure(InvalidInputError(nameError.value)), st)
      else if !TypePresent(env, st.types, t.typeId) then (Failure(TypeMissingError(t.typeId)), st)
      else
        var t' := t.(lastModifiedBy := Some(userId));
        UpdatePresentAnswers(env, st, id, t', now);
        var (res, st') := UpdateSpec(env, st, id, t', now);
        match res
        case Failure(e) => (Failure(Wrapped(Updating, e)), st')
        case Success(updated) => (Success(updated.value), st')
  }

  /** Update as business_service.go:151-183 runs it over the store's Update as written: the
      checks look at `id`, but the store writes and re-reads the row of the body's id. When no
      row has the body's id, the write matches nothing and the store's `(nil, nil)` comes back
      as a success with no record. */
  function UpdateAsWrittenFlow(env: Env, st: DbState, userId: Int32, id: Uuid, t: Thing, now: Time): (Result<Option<Thing>, Error>, DbState) {
    if !ExistSpec(env, st.things, id) then (Failure(NotFoundError(id)), st)
    else if !OwnerSpec(env, st.things, id, userId) then (Failure(NotOwnerError(userId, id)), st)
    else
      var nameError := ValidateName(t.name);
      if nameError.Some? then (Failure(InvalidInputError(nameError.value)), st)
      else if !TypePresent(env, st.types, t.typeId) then (Failure(TypeMissingError(t.typeId)), st)
      else
        var t' := t.(lastModifiedBy := Some(userId));
        var (res, st') := UpdateSpec(env, st, t'.id, t', now);
        (WrapFailure(res, Updating), st')
  }

  /** Count as business_service.go:104-110 runs it over the store's Count as written. */
  function CountAsWrittenFlow(env: Env, st: DbState, p: CountParams): Result<Int32, Error> {
    WrapFailure(CountAsWrittenSpec(env, st.things, p), Counting)
  }

  function ListTypesFlow(env: Env, st: DbState, offset: int, limit: int, p: TypeListParams): Result<seq<TypeThingList>, Error> {
    WrapFailure(ListTypeSpec(env, st.types, offset, limit, p), ListingTypes)
  }

  function CountTypesFlow(env: Env, st: DbState, p: TypeCountParams): Result<Int32, Error> {
    WrapFailure(CountTypeSpec(env, st.types, p), CountingTypes)
  }

  function CreateTypeFlow(env: Env, st: DbState, userId: Int32, isAdmin: bool, tt: TypeThing, now: Time): (Result<TypeThing, Error>, DbState) {
    if !isAdmin then (Failure(AdminRequiredError()), st)
    else
      var nameError := ValidateName(tt.name);
      if nameError.Some? then (Failure(InvalidInputError(nameError.value)), st)
      else
        var (res, st') := CreateTypeSpec(env, st, tt.(createdBy := userId), now);
        (WrapFailure(res, CreatingType), st')
  }

  function DeleteTypeFlow(env: Env, st: DbState, userId: Int32, isAdmin: bool, id: Int32, now: Time): (Option<Error>, DbState) {
    if !isAdmin then (Some(AdminRequiredError()), st)
    else if !TypePresent(env, st.types, id) then (Some(TypeMissingError(id)), st)
    else
      var (res, st') := DeleteTypeSpec(env, st, id, userId, now);
      match res
      case Some(e) => (Some(Wrapped(DeletingType, e)), st')
      case None => (None, st')
  }

  function GetTypeFlow(env: Env, st: DbState, isAdmin: bool, id: Int32): Result<TypeThing, Error> {
    if !isAdmin then Failure(AdminRequiredError())
    else if !TypePresent(env, st.types, id) then Failure(TypeMissingError(id))
    else WrapFailure(GetTypeSpec(env, st.types, id), RetrievingType)
  }

  function UpdateTypeFlow(env: Env, st: DbState, userId: Int32, isAdmin: bool, id: Int32, tt: TypeThing, now: Time): (Result<TypeThing, Error>, DbState) {
    if !isAdmin then (Failure(AdminRequiredError()), st)
    else if !TypePresent(env, st.types, id) then (Failure(TypeMissingError(id)), st)
    else
      var nameError := ValidateName(tt.name);
      if nameError.Some? then (Failure(InvalidInputError(nameError.value)), st)
      else
        var (res, st') := UpdateTypeSpec(env, st, id, tt.(lastModifiedBy := Some(userId)), now);
        match res
        case Failure(e) => (Failure(Wrapped(UpdatingType, e)), st')
        case Success(updated) => (Success(updated.value), st')
  }

  // =========================================================================================
  // The service.

  class BusinessService {
    const store: PgxStore
    const listDefaultLimit: int

    constructor (store: PgxStore, listDefaultLimit: int)
      ensures this.store == store && this.listDefaultLimit == listDefaultLimit
    {
      this.store := store;
      this.listDefaultLimit := listDefaultLimit;
    }

    method GeoJson(offset: int, limit: int, params: GeoJsonParams) returns (r: Result<string, Error>)
      ensures r == GeoJsonFlow(store.dbi.env, store.dbi.State(), offset, limit, params)
    {
      var jsonResult := store.GeoJson(offset, limit, params);
      if jsonResult.Failure? {
        return Failure(Wrapped(RetrievingGeoJson, jsonResult.error));
      }
      if jsonResult.value == "" {
        return Success("empty");
      }
      r := jsonResult;
    }

    method List(offset: int, limit: int, params: ListParams) returns (r: Result<seq<ThingList>, Error>)
      ensures r == ListFlow(store.dbi.env, store.dbi.State(), offset, limit, params)
    {
      var list := store.List(offset, limit, params);
      if list.Failure? {
        if Is(list.error, NoRows) {
          return Success([]);
        }
        return Failure(Wrapped(Listing, list.error));
      }
      r := list;
    }

    method Create(currentUserId: Int32, newThing: Thing, now: Time) returns (r: Result<Thing, Error>)
      modifies store.dbi
      ensures (r, store.dbi.State()) == CreateFlow(store.dbi.env, old(store.dbi.State()), currentUserId, newThing, now)
    {
      var nameError := ValidateName(newThing.name);
      if nameError.Some? {
        return Failure(InvalidInputError(nameError.value));
      }
      var typeCount := store.dbi.QueryTypeCount(newThing.typeId);
      if typeCount.Failure? || typeCount.value < 1 {
        return Failure(TypeMissingError(newThing.typeId));
      }
      var found := store.Exist(newThing.id);
      if found {
        return Failure(AlreadyExistsError(newThing.id));
      }
      var t := newThing.(createdBy := currentUserId);
      CreateStamps(store.dbi.env, store.dbi.State(), t, now);
      var created := store.Create(t, now);
      if created.Failure? {
        return Failure(Wrapped(Creating, created.error));
      }
      r := Success(created.value.value);
    }

    method Count(params: CountParams) returns (r: Result<Int32, Error>)
      ensures r == CountFlow(store.dbi.env, store.dbi.State(), params)
    {
      var count := store.CountCorrected(params);
      if count.Failure? {
        return Failure(Wrapped(Counting, count.error));
      }
      r := count;
    }

    /** `Count` over the store's Count as written (Finding 2). */
    method CountAsWritten(params: CountParams) returns (r: Result<Int32, Error>)
      ensures r == CountAsWrittenFlow(store.dbi.env, store.dbi.State(), params)
    {
      var count := store.Count(params);
      if count.Failure? {
        return Failure(Wrapped(Counting, count.error));
      }
      r := count;
    }

    method Delete(currentUserId: Int32, id: Uuid, now: Time) returns (r: Option<Error>)
      modifies store.dbi
      ensures (r, store.dbi.State()) == DeleteFlow(store.dbi.env, old(store.dbi.State()), currentUserId, id, now)
    {
      var found := store.Exist(id);
      if !found {
        return Some(NotFoundError(id));
      }
      var owner := store.IsUserOwner(id, currentUserId);
      if !owner {
        return Some(NotOwnerError(currentUserId, id));
      }
      var err := store.Delete(id, currentUserId, now);
      if err.Some? {
        return Some(Wrapped(Deleting, err.value));
      }
      r := None;
    }

    method Get(id: Uuid) returns (r: Result<Thing, Error>)
      ensures r == GetFlow(store.dbi.env, store.dbi.State(), id)
    {
      var found := store.Exist(id);
      if !found {
        return Failure(NotFoundError(id));
      }
      var thing := store.Get(id);
      if thing.Failure? {
        return Failure(Wrapped(Retrieving, thing.error));
      }
      r := thing;
    }

    method Update(currentUserId: Int32, id: Uuid, updateThing: Thing, now: Time) returns (r: Result<Thing, Error>)
      modifies store.dbi
      ensures (r, store.dbi.State()) == UpdateFlow(store.dbi.env, old(store.dbi.State()), currentUserId, id, updateThing, now)
    {
      var found := store.Exist(id);
      if !found {
        return Failure(NotFoundError(id));
      }
      var owner := store.IsUserOwner(id, currentUserId);
      if !owner {
        return Failure(NotOwnerError(currentUserId, id));
      }
      var nameError := ValidateName(updateThing.name);
      if nameError.Some? {
        return Failure(InvalidInputError(nameError.value));
      }
      var typeCount := store.dbi.QueryTypeCount(updateThing.typeId);
      if typeCount.Failure? || typeCount.value < 1 {
        return Failure(TypeMissingError(updateThing.typeId));
      }
      var t := updateThing.(lastModifiedBy := Some(currentUserId));
      UpdatePresentAnswers(store.dbi.env, store.dbi.State(), id, t, now);
      var updated := store.UpdateById(id, t, now);
      if updated.Failure? {
        return Failure(Wrapped(Updating, updated.error));
      }
      r := Success(updated.value.value);
    }

    /** `Update` over the store's Update as written (Finding 1). */
    method UpdateAsWritten(currentUserId: Int32, id: Uuid, updateThing: Thing, now: Time) returns (r: Result<Option<Thing>, Error>)
      modifies store.dbi
      ensures (r, store.dbi.State()) == UpdateAsWrittenFlow(store.dbi.env, old(store.dbi.State()), currentUserId, id, updateThing, now)
    {
      var found := store.Exist(id);
      if !found {
        return Failure(NotFoundError(id));
      }
      var owner := store.IsUserOwner(id, currentUserId);
      if !owner {
        return Failure(NotOwnerError(currentUserId, id));
      }
      var nameError := ValidateName(updateThing.name);
      if nameError.Some? {
        return Failure(InvalidInputError(nameError.value));
      }
      var typeCount := store.dbi.QueryTypeCount(updateThing.typeId);
      if typeCount.Failure? || typeCount.value < 1 {
        return Failure(TypeMissingError(updateThing.typeId));
      }
      var t := updateThing.(lastModifiedBy := Some(currentUserId));
      var updated := store.Update(id, t, now);
      if updated.Failure? {
        return Failure(Wrapped(Updating, updated.error));
      }
      r := updated;
    }

    method ListByExternalId(offset: int, limit: int, externalId: int) returns (r: Result<seq<ThingList>, Error>)
      ensures r == ListByExternalIdFlow(store.dbi.env, store.dbi.State(), offset, limit, externalId)
    {
      var list := store.ListByExternalId(offset, limit, externalId);
      if list.Failure? {
        if Is(list.error, NoRows) {
          return Success([]);
        }
        return Failure(Wrapped(ListingByExternalId, list.error));
      }
      r := list;
    }

    method Search(offset: int, limit: int, params: SearchParams) returns (r: Result<seq<ThingList>, Error>)
      ensures r == SearchFlow(store.dbi.env, store.dbi.State(), offset, limit, params)
    {
      var list := store.Search(offset, limit, params);
      if list.Failure? {
        if Is(list.error, NoRows) {
          return Success([]);
        }
        return Failure(Wrapped(Searching, list.error));
      }
      r := list;
    }

    method ListTypes(offset: int, limit: int, params: TypeListParams) returns (r: Result<seq<TypeThingList>, Error>)
      ensures r == ListTypesFlow(store.dbi.env, store.dbi.State(), offset, limit, params)
    {
      var list := store.ListType(offset, limit, params);
      if list.Failure? {
        return Failure(Wrapped(ListingTypes, list.error));
      }
      r := list;
    }

    method CreateType(currentUserId: Int32, isAdmin: bool, newType: TypeThing, now: Time) returns (r: Result<TypeThing, Error>)
      modifies store.dbi
      ensures (r, store.dbi.State()) == CreateTypeFlow(store.dbi.env, old(store.dbi.State()), currentUserId, isAdmin, newType, now)
    {
      if !isAdmin {
        return Failure(AdminRequiredError());
      }
      var nameError := ValidateName(newType.name);
      if nameError.Some? {
        return Failure(InvalidInputError(nameError.value));
      }
      var tt := newType.(createdBy := currentUserId);
      var created := store.CreateType(tt, now);
      if created.Failure? {
        return Failure(Wrapped(CreatingType, created.error));
      }
      r := created;
    }

    method CountTypes(params: TypeCountParams) returns (r: Result<Int32, Error>)
      ensures r == CountTypesFlow(store.dbi.env, store.dbi.State(), params)
    {
      var count := store.CountType(params);
      if count.Failure? {
        return Failure(Wrapped(CountingTypes, count.error));
      }
      r := count;
    }

    method DeleteType(currentUserId: Int32, isAdmin: bool, id: Int32, now: Time) returns (r: Option<Error>)
      modifies store.dbi
      ensures (r, store.dbi.State()) == DeleteTypeFlow(store.dbi.env, old(store.dbi.State()), currentUserId, isAdmin, id, now)
    {
      if !isAdmin {
        return Some(AdminRequiredError());
      }
      var typeCount := store.dbi.QueryTypeCount(id);
      if typeCount.Failure? || typeCount.value < 1 {
        return Some(TypeMissingError(id));
      }
      var err := store.DeleteType(id, currentUserId, now);
      if err.Some? {
        return Some(Wrapped(DeletingType, err.value));
      }
      r := None;
    }

    method GetType(isAdmin: bool, id: Int32) returns (r: Result<TypeThing, Error>)
      ensures r == GetTypeFlow(store.dbi.env, store.dbi.State(), isAdmin, id)
    {
      if !isAdmin {
        return Failure(AdminRequiredError());
      }
      var typeCount := store.dbi.QueryTypeCount(id);
      if typeCount.Failure? || typeCount.value < 1 {
        return Failure(TypeMissingError(id));
      }
      var found := store.GetType(id);
      if found.Failure? {
        return Failure(Wrapped(RetrievingType, found.error));
      }
      r := found;
    }

    method UpdateType(currentUserId: Int32, isAdmin: bool, id: Int32, updateType: TypeThing, now: Time) returns (r: Result<TypeThing, Error>)
      modifies store.dbi
      ensures (r, store.dbi.State()) == UpdateTypeFlow(store.dbi.env, old(store.dbi.State()), currentUserId, isAdmin, id, updateType, now)
    {
      if !isAdmin {
        return Failure(AdminRequiredError());
      }
      var typeCount := store.dbi.QueryTypeCount(id);
      if typeCount.Failure? || typeCount.value < 1 {
        return Failure(TypeMissingError(id));
      }
      var nameError := ValidateName(updateType.name);
      if nameError.Some? {
        return Failure(InvalidInputError(nameError.value));
      }
      var tt := updateType.(lastModifiedBy := Some(currentUserId));
      var updated := store.UpdateType(id, tt, now);
      if updated.Failure? {
        return Failure(Wrapped(UpdatingType, updated.error));
      }
      r := Success(updated.value.value);
    }
  }
}
