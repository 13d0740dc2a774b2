/** The mappers between the domain records and the wire (protobuf) messages (mappers.go).
    A protobuf scalar field has no "absent" state: the empty string, 0 and false stand for
    it, so a nil domain pointer and a pointer to the zero value look the same on the wire.
    Timestamps keep their value across `timeToTimestamp`/`timestampToTime` and JSON documents
    across `mapToStruct`/`structToMap`; `uuid.Parse` is a parameter. */
module Mappers {
  import opened Wrappers
  import opened GoInt
  import opened Domain
  import opened Errors

  /** The wire record (`v1.Template4ServiceName` / `v1.Todo`). */
  datatype ProtoThing = ProtoThing(
    id: string,
    typeId: Int32,
    name: string,
    description: string,
    comment: string,
    externalId: Int32,
    externalRef: string,
    buildAt: Option<Time>,
    status: string,
    containedBy: string,
    containedByOld: Int32,
    inactivated: bool,
    inactivatedTime: Option<Time>,
    inactivatedBy: Int32,
    inactivatedReason: string,
    validated: bool,
    validatedTime: Option<Time>,
    validatedBy: Int32,
    managedBy: Int32,
    createdAt: Option<Time>,
    createdBy: Int32,
    lastModifiedAt: Option<Time>,
    lastModifiedBy: Int32,
    deleted: bool,
    deletedAt: Option<Time>,
    deletedBy: Int32,
    moreData: Option<Document>,
    posX: Coord,
    posY: Coord)

  datatype ProtoThingList = ProtoThingList(
    id: string,
    typeId: Int32,
    name: string,
    description: string,
    externalId: Int32,
    inactivated: bool,
    validated: bool,
    status: string,
    createdBy: Int32,
    createdAt: Option<Time>,
    posX: Coord,
    posY: Coord)

  datatype ProtoTypeThing = ProtoTypeThing(
    id: Int32,
    name: string,
    description: string,
    comment: string,
    externalId: Int32,
    tableName: string,
    geometryType: string,
    inactivated: bool,
    inactivatedTime: Option<Time>,
    inactivatedBy: Int32,
    inactivatedReason: string,
    managedBy: Int32,
    iconPath: string,
    createdAt: Option<Time>,
    createdBy: Int32,
    lastModifiedAt: Option<Time>,
    lastModifiedBy: Int32,
    deleted: bool,
    deletedAt: Option<Time>,
    deletedBy: Int32,
    moreDataSchema: Option<Document>)

  datatype ProtoTypeThingList = ProtoTypeThingList(
    id: Int32,
    name: string,
    externalId: Int32,
    iconPath: string,
    createdAt: Option<Time>,
    tableName: string,
    geometryType: string,
    inactivated: bool)

  /** `uuid.Parse`: `None` is a parse error. */
  type UuidParser = string -> Option<Uuid>

  // =========================================================================================
  // Pointer helpers.

  /** `stringPtr`: nil for the empty string. */
  function StringPtr(s: string): (r: Option<string>)
    ensures r.None? <==> s == ""
    ensures r.Some? ==> r.value == s
  {
    if s == "" then None else Some(s)
  }

  /** `derefString`: the empty string for nil. */
  function DerefString(p: Option<string>): (r: string)
    ensures p.None? ==> r == ""
    ensures p.Some? ==> r == p.value
  {
    if p.None? then "" else p.value
  }

  /** `int32Ptr`: nil for zero. */
  function Int32Ptr(i: Int32): (r: Option<Int32>)
    ensures r.None? <==> i == 0
    ensures r.Some? ==> r.value == i
  {
    if i == 0 then None else Some(i)
  }

  /** `derefInt32`: zero for nil. */
  function DerefInt32(p: Option<Int32>): (r: Int32)
    ensures p.None? ==> r == 0
    ensures p.Some? ==> r == p.value
  {
    if p.None? then 0 else p.value
  }

  /** `boolPtr`: never nil. */
  function BoolPtr(b: bool): (r: Option<bool>)
    ensures r == Some(b)
  {
    Some(b)
  }

  /** `derefBool`: false for nil. */
  function DerefBool(p: Option<bool>): (r: bool)
    ensures r <==> p == Some(true)
  {
    if p.None? then false else p.value
  }

  /** `statusToString`. */
  function StatusToString(s: Option<string>): string {
    DerefString(s)
  }

  /** `stringToStatus`. */
  function StringToStatus(s: string): Option<string> {
    StringPtr(s)
  }

  /** A status survives wire to domain to wire; domain to wire to domain loses only an empty
      status, which comes back as no status, and no status is sent as "". */
  lemma StatusRoundTrips(s: string, p: Option<string>)
    ensures StatusToString(StringToStatus(s)) == s
    ensures StringToStatus(StatusToString(p)) == p <==> p != Some("")
    ensures StringToStatus(s).None? <==> s == ""
    ensures StatusToString(None) == ""
  {
  }

  /** Wire value to pointer and back is the identity; pointer to wire and back loses only a
      pointer to the zero value. */
  lemma StringRoundTrips(s: string, p: Option<string>)
    ensures DerefString(StringPtr(s)) == s
    ensures StringPtr(DerefString(p)) == p <==> p != Some("")
    ensures StatusToString(StringToStatus(s)) == s
  {
  }

  lemma Int32RoundTrips(i: Int32, p: Option<Int32>)
    ensures DerefInt32(Int32Ptr(i)) == i
    ensures Int32Ptr(DerefInt32(p)) == p <==> p != Some(0)
  {
  }

  lemma BoolRoundTrips(b: bool, p: Option<bool>)
    ensures DerefBool(BoolPtr(b)) == b
    ensures BoolPtr(DerefBool(p)) == p <==> p.Some?
  {
  }

  // =========================================================================================
  // Record mappers.

  /** `DomainTemplate4ServiceNameToProto`: the wire record carries the id as text and every
      field, and read back under the same id it gives the normalised record. */
  function ThingToProto(t: Thing): (r: ProtoThing)
    ensures r.id == UuidString(t.id)
    ensures ThingOfProto(t.id, r) == Normalised(t)
  {
    ProtoThing(
      UuidString(t.id), t.typeId, t.name, DerefString(t.description), DerefString(t.comment),
      DerefInt32(t.externalId), DerefString(t.externalRef), t.buildAt, StatusToString(t.status),
      DerefString(t.containedBy), DerefInt32(t.containedByOld), t.inactivated, t.inactivatedTime,
      DerefInt32(t.inactivatedBy), DerefString(t.inactivatedReason), DerefBool(t.validated),
      t.validatedTime, DerefInt32(t.validatedBy), DerefInt32(t.managedBy), t.createdAt, t.createdBy,
      t.lastModifiedAt, DerefInt32(t.lastModifiedBy), t.deleted, t.deletedAt, DerefInt32(t.deletedBy),
      t.moreData, t.posX, t.posY)
  }

  /** The domain record the wire record describes, with its id already parsed: a zero value
      becomes a nil pointer, so the record has no pointer to a zero value and is its own
      normal form. */
  function ThingOfProto(id: Uuid, p: ProtoThing): (r: Thing)
    ensures r.id == id && r.typeId == p.typeId && r.name == p.name
    ensures WireExact(r)
    ensures Normalised(r) == r
  {
    Thing(
      id, p.typeId, p.name, StringPtr(p.description), StringPtr(p.comment), Int32Ptr(p.externalId),
      StringPtr(p.externalRef), p.buildAt, StringToStatus(p.status), StringPtr(p.containedBy),
      Int32Ptr(p.containedByOld), p.inactivated, p.inactivatedTime, Int32Ptr(p.inactivatedBy),
      StringPtr(p.inactivatedReason), BoolPtr(p.validated), p.validatedTime, Int32Ptr(p.validatedBy),
      Int32Ptr(p.managedBy), p.createdAt, p.createdBy, p.lastModifiedAt, Int32Ptr(p.lastModifiedBy),
      p.deleted, p.deletedAt, Int32Ptr(p.deletedBy), p.moreData, p.posX, p.posY)
  }

  /** `ProtoTemplate4ServiceNameToDomain`: nil gives (nil, nil); an empty id is the nil UUID;
      an id that does not parse is an error and no record. */
  function ProtoToThing(parse: UuidParser, p: Option<ProtoThing>): (r: Result<Option<Thing>, Error>)
    ensures p.None? ==> r == Success(None)
    ensures p.Some? && p.value.id == "" ==> r == Success(Some(ThingOfProto(NilUuid, p.value)))
    ensures p.Some? && p.value.id != "" ==>
      (r == Failure(BadUuid) <==> parse(p.value.id).None?) &&
      (parse(p.value.id).Some? ==> r == Success(Some(ThingOfProto(parse(p.value.id).value, p.value))))
  {
    if p.None? then Success(None)
    else if p.value.id == "" then Success(Some(ThingOfProto(NilUuid, p.value)))
    else match parse(p.value.id)
      case None => Failure(BadUuid)
      case Some(id) => Success(Some(ThingOfProto(id, p.value)))
  }

  /** A wire record converts unless its id is present and malformed; what it converts to
      carries the parsed id, or the nil UUID for an empty one, and no pointer to a zero value. */
  lemma ProtoToThingRefusesOnlyMalformedId(parse: UuidParser, p: ProtoThing)
    ensures ProtoToThing(parse, Some(p)).Failure? <==> p.id != "" && parse(p.id).None?
    ensures ProtoToThing(parse, Some(p)).Failure? ==> ProtoToThing(parse, Some(p)).error == BadUuid
    ensures ProtoToThing(parse, Some(p)).Success? ==>
      && ProtoToThing(parse, Some(p)).value.Some?
      && WireExact(ProtoToThing(parse, Some(p)).value.value)
      && ProtoToThing(parse, Some(p)).value.value.id == (if p.id == "" then NilUuid else parse(p.id).value)
  {
  }

  /** `DomainTemplate4ServiceNameListToProto`. */
  function ThingListToProto(t: ThingList): ProtoThingList {
    ProtoThingList(
      UuidString(t.id), t.typeId, t.name, DerefString(t.description), DerefInt32(t.externalId),
      t.inactivated, DerefBool(t.validated), StatusToString(t.status), t.createdBy, t.createdAt,
      t.posX, t.posY)
  }

  /** `DomainTypeTemplate4ServiceNameToProto`: read back, the wire record gives the
      normalised category. */
  function TypeThingToProto(t: TypeThing): (r: ProtoTypeThing)
    ensures r.id == t.id && r.name == t.name
    ensures ProtoToTypeThing(r) == NormalisedType(t)
  {
    ProtoTypeThing(
      t.id, t.name, DerefString(t.description), DerefString(t.comment), DerefInt32(t.externalId),
      DerefString(t.tableName), DerefString(t.geometryType), t.inactivated, t.inactivatedTime,
      DerefInt32(t.inactivatedBy), DerefString(t.inactivatedReason), DerefInt32(t.managedBy),
      t.iconPath, t.createdAt, t.createdBy, t.lastModifiedAt, DerefInt32(t.lastModifiedBy),
      t.deleted, t.deletedAt, DerefInt32(t.deletedBy), t.moreDataSchema)
  }

  /** `ProtoTypeTemplate4ServiceNameToDomain`: the category has no pointer to a zero value. */
  function ProtoToTypeThing(p: ProtoTypeThing): (r: TypeThing)
    ensures r.id == p.id && r.name == p.name
    ensures TypeWireExact(r)
    ensures NormalisedType(r) == r
  {
    TypeThing(
      p.id, p.name, StringPtr(p.description), StringPtr(p.comment), Int32Ptr(p.externalId),
      StringPtr(p.tableName), StringPtr(p.geometryType), p.inactivated, p.inactivatedTime,
      Int32Ptr(p.inactivatedBy), StringPtr(p.inactivatedReason), Int32Ptr(p.managedBy),
      p.iconPath, p.createdAt, p.createdBy, p.lastModifiedAt, Int32Ptr(p.lastModifiedBy),
      p.deleted, p.deletedAt, Int32Ptr(p.deletedBy), p.moreDataSchema)
  }

  /** `DomainTypeTemplate4ServiceNameListToProto`: the creation time is always set. */
  function TypeThingListToProto(t: TypeThingList): ProtoTypeThingList {
    ProtoTypeThingList(
      t.id, t.name, DerefInt32(t.externalId), t.iconPath, Some(t.createdAt),
      DerefString(t.tableName), DerefString(t.geometryType), t.inactivated)
  }

  /** Each of the mappers sends a nil pointer to nil. */
  function MapPtr<A, B>(f: A -> B, p: Option<A>): (r: Option<B>)
    ensures r.None? <==> p.None?
    ensures p.Some? ==> r.value == f(p.value)
  {
    if p.None? then None else Some(f(p.value))
  }

  // =========================================================================================
  // Round trips.

  /** What a domain record keeps through the wire: a pointer to the zero value becomes nil, and
      a nil `Validated` becomes false. */
  function Normalised(t: Thing): Thing {
    t.(description := StringPtr(DerefString(t.description)), comment := StringPtr(DerefString(t.comment)),
       externalId := Int32Ptr(DerefInt32(t.externalId)), externalRef := StringPtr(DerefString(t.externalRef)),
       status := StringPtr(DerefString(t.status)), containedBy := StringPtr(DerefString(t.containedBy)),
       containedByOld := Int32Ptr(DerefInt32(t.containedByOld)), inactivatedBy := Int32Ptr(DerefInt32(t.inactivatedBy)),
       inactivatedReason := StringPtr(DerefString(t.inactivatedReason)), validated := BoolPtr(DerefBool(t.validated)),
       validatedBy := Int32Ptr(DerefInt32(t.validatedBy)), managedBy := Int32Ptr(DerefInt32(t.managedBy)),
       lastModifiedBy := Int32Ptr(DerefInt32(t.lastModifiedBy)), deletedBy := Int32Ptr(DerefInt32(t.deletedBy)))
  }

  /** A record the wire carries without loss. */
  predicate WireExact(t: Thing) {
    && t.description != Some("") && t.comment != Some("") && t.externalId != Some(0)
    && t.externalRef != Some("") && t.status != Some("") && t.containedBy != Some("")
    && t.containedByOld != Some(0) && t.inactivatedBy != Some(0) && t.inactivatedReason != Some("")
    && t.validated.Some? && t.validatedBy != Some(0) && t.managedBy != Some(0)
    && t.lastModifiedBy != Some(0) && t.deletedBy != Some(0)
  }

  /** Wire to domain to wire is exact, the id included when it is in canonical form; an empty
      id comes back as the nil UUID's text. */
  lemma ProtoThingRoundTrip(parse: UuidParser, p: ProtoThing)
    requires p.id == "" || parse(p.id).Some?
    ensures ProtoToThing(parse, Some(p)).Success? && ProtoToThing(parse, Some(p)).value.Some?
    ensures var back := ThingToProto(ProtoToThing(parse, Some(p)).value.value);
      && back == p.(id := back.id)
      && (p.id != "" && UuidString(parse(p.id).value) == p.id ==> back == p)
      && (p.id == "" ==> back.id == UuidString(NilUuid))
  {
  }

  /** Domain to wire to domain gives the normalised record, which is the record itself
      exactly when it has no pointer to a zero value and a set `Validated`. */
  lemma ThingRoundTrip(parse: UuidParser, t: Thing)
    requires parse(UuidString(t.id)) == Some(t.id)
    ensures ProtoToThing(parse, Some(ThingToProto(t))) == Success(Some(Normalised(t)))
    ensures Normalised(t) == t <==> WireExact(t)
  {
    assert UuidString(t.id) != "";
  }

  /** The loss on a concrete record: an empty description and a nil `Validated`. */
  lemma ThingRoundTripLossy(parse: UuidParser, t: Thing)
    requires parse(UuidString(t.id)) == Some(t.id)
    requires t.description == Some("") && t.validated.None?
    ensures ProtoToThing(parse, Some(ThingToProto(t))).value.value.description.None?
    ensures ProtoToThing(parse, Some(ThingToProto(t))).value.value.validated == Some(false)
  {
    ThingRoundTrip(parse, t);
  }

  lemma ProtoTypeThingRoundTrip(p: ProtoTypeThing)
    ensures TypeThingToProto(ProtoToTypeThing(p)) == p
  {
  }

  /** What a category keeps through the wire: a pointer to the zero value becomes nil. */
  function NormalisedType(t: TypeThing): TypeThing {
    t.(description := StringPtr(DerefString(t.description)), comment := StringPtr(DerefString(t.comment)),
       externalId := Int32Ptr(DerefInt32(t.externalId)), tableName := StringPtr(DerefString(t.tableName)),
       geometryType := StringPtr(DerefString(t.geometryType)), inactivatedBy := Int32Ptr(DerefInt32(t.inactivatedBy)),
       inactivatedReason := StringPtr(DerefString(t.inactivatedReason)), managedBy := Int32Ptr(DerefInt32(t.managedBy)),
       lastModifiedBy := Int32Ptr(DerefInt32(t.lastModifiedBy)), deletedBy := Int32Ptr(DerefInt32(t.deletedBy)))
  }

  /** A category the wire carries without loss. */
  predicate TypeWireExact(t: TypeThing) {
    && t.description != Some("") && t.comment != Some("") && t.externalId != Some(0)
    && t.tableName != Some("") && t.geometryType != Some("") && t.inactivatedBy != Some(0)
    && t.inactivatedReason != Some("") && t.managedBy != Some(0) && t.lastModifiedBy != Some(0)
    && t.deletedBy != Some(0)
  }

  /** Domain to wire to domain gives the normalised category, which is the category itself
      exactly when it has no pointer to a zero value. */
  lemma TypeThingRoundTrip(t: TypeThing)
    ensures ProtoToTypeThing(TypeThingToProto(t)) == NormalisedType(t)
    ensures NormalisedType(t) == t <==> TypeWireExact(t)
  {
  }

  /** A category's list entry shows, for each field it has, what the full record shows for
      it; its creation time is always present. */
  lemma TypeListEntryAgrees(l: TypeThingList, t: TypeThing)
    requires l.id == t.id && l.name == t.name && l.externalId == t.externalId && l.iconPath == t.iconPath
    requires Some(l.createdAt) == t.createdAt && l.tableName == t.tableName
    requires l.geometryType == t.geometryType && l.inactivated == t.inactivated
    ensures var e := TypeThingListToProto(l); var f := TypeThingToProto(t);
      && e.id == f.id && e.name == f.name && e.externalId == f.externalId && e.iconPath == f.iconPath
      && e.createdAt == f.createdAt && e.createdAt.Some? && e.tableName == f.tableName
      && e.geometryType == f.geometryType && e.inactivated == f.inactivated
  {
  }

  // =========================================================================================
  // Slice mappers: a nil slice stays nil, otherwise element `i` is the mapped element `i`.

  /** `DomainTemplate4ServiceNameListSliceToProto`. */
  method ThingListSliceToProto(items: Option<seq<Option<ThingList>>>) returns (r: Option<seq<Option<ProtoThingList>>>)
    ensures r.None? <==> items.None?
    ensures items.Some? ==>
      && |r.value| == |items.value|
      && forall i :: 0 <= i < |items.value| ==> r.value[i] == MapPtr(ThingListToProto, items.value[i])
  {
    if items.None? {
      return None;
    }
    var s := items.value;
    var result := new Option<ProtoThingList>[|s|];
    for i := 0 to |s|
      invariant forall j :: 0 <= j < i ==> result[j] == MapPtr(ThingListToProto, s[j])
    {
      result[i] := MapPtr(ThingListToProto, s[i]);
    }
    r := Some(result[..]);
  }

  /** `DomainTypeTemplate4ServiceNameListSliceToProto`. */
  method TypeThingListSliceToProto(items: Option<seq<Option<TypeThingList>>>) returns (r: Option<seq<Option<ProtoTypeThingList>>>)
    ensures r.None? <==> items.None?
    ensures items.Some? ==>
      && |r.value| == |items.value|
      && forall i :: 0 <= i < |items.value| ==> r.value[i] == MapPtr(TypeThingListToProto, items.value[i])
  {
    if items.None? {
      return None;
    }
    var s := items.value;
    var result := new Option<ProtoTypeThingList>[|s|];
    for i := 0 to |s|
      invariant forall j :: 0 <= j < i ==> result[j] == MapPtr(TypeThingListToProto, s[j])
    {
      result[i] := MapPtr(TypeThingListToProto, s[i]);
    }
    r := Some(result[..]);
  }
}
