/** The domain records of the service and the filter parameters of its read operations.
    In the template copy the record is called `Template4ServiceName` and its category
    `TypeTemplate4ServiceName`; in the todo copy they are `Todo` and `TypeTodo`. Here they are
    `Thing` and `TypeThing`. A Go pointer field that may be nil is an `Option`. */
module Domain {
  import opened Wrappers
  import opened GoInt

  /** A UUID, as its 128-bit value. */
  newtype Uuid = x: int | 0 <= x < 0x1_0000_0000_0000_0000_0000_0000_0000_0000

  /** `uuid.Nil`, the value a `uuid.UUID` variable holds before assignment. */
  const NilUuid: Uuid := 0

  function HexChar(d: nat): char
    requires d < 16
  {
    if d < 10 then ('0' as int + d) as char else ('a' as int + d - 10) as char
  }

  /** The `n` lowest hexadecimal digits of `x`, most significant first. */
  function HexDigits(x: nat, n: nat): (s: string)
    ensures |s| == n
  {
    if n == 0 then "" else HexDigits(x / 16, n - 1) + [HexChar(x % 16)]
  }

  /** `uuid.UUID.String()`: 32 lower-case hex digits grouped 8-4-4-4-12. */
  function UuidString(u: Uuid): (s: string)
    ensures |s| == 36 && s[8] == '-' && s[13] == '-' && s[18] == '-' && s[23] == '-'
  {
    var d := HexDigits(u as nat, 32);
    d[..8] + "-" + d[8..12] + "-" + d[12..16] + "-" + d[16..20] + "-" + d[20..]
  }

  /** An instant, as given by an abstract clock. */
  type Time = int

  /** A float64 coordinate; the model never computes with it. */
  type Coord = int

  /** A JSON object (`more_data`, `more_data_schema`), kept opaque. */
  type Document = string

  /** The stored record (`Template4ServiceName` / `Todo`). */
  datatype Thing = Thing(
    id: Uuid,
    typeId: Int32,
    name: string,
    description: Option<string>,
    comment: Option<string>,
    externalId: Option<Int32>,
    externalRef: Option<string>,
    buildAt: Option<Time>,
    status: Option<string>,
    containedBy: Option<string>,
    containedByOld: Option<Int32>,
    inactivated: bool,
    inactivatedTime: Option<Time>,
    inactivatedBy: Option<Int32>,
    inactivatedReason: Option<string>,
    validated: Option<bool>,
    validatedTime: Option<Time>,
    validatedBy: Option<Int32>,
    managedBy: Option<Int32>,
    createdAt: Option<Time>,
    createdBy: Int32,
    lastModifiedAt: Option<Time>,
    lastModifiedBy: Option<Int32>,
    deleted: bool,
    deletedAt: Option<Time>,
    deletedBy: Option<Int32>,
    moreData: Option<Document>,
    posX: Coord,
    posY: Coord)

  /** The projection the list queries return (`Template4ServiceNameList` / `TodoList`). */
  datatype ThingList = ThingList(
    id: Uuid,
    typeId: Int32,
    name: string,
    description: Option<string>,
    externalId: Option<Int32>,
    inactivated: bool,
    validated: Option<bool>,
    status: Option<string>,
    createdBy: Int32,
    createdAt: Option<Time>,
    posX: Coord,
    posY: Coord)

  /** A category (`TypeTemplate4ServiceName` / `TypeTodo`). */
  datatype TypeThing = TypeThing(
    id: Int32,
    name: string,
    description: Option<string>,
    comment: Option<string>,
    externalId: Option<Int32>,
    tableName: Option<string>,
    geometryType: Option<string>,
    inactivated: bool,
    inactivatedTime: Option<Time>,
    inactivatedBy: Option<Int32>,
    inactivatedReason: Option<string>,
    managedBy: Option<Int32>,
    iconPath: string,
    createdAt: Option<Time>,
    createdBy: Int32,
    lastModifiedAt: Option<Time>,
    lastModifiedBy: Option<Int32>,
    deleted: bool,
    deletedAt: Option<Time>,
    deletedBy: Option<Int32>,
    moreDataSchema: Option<Document>)

  /** The category list projection; its `CreatedAt` is not a pointer. */
  datatype TypeThingList = TypeThingList(
    id: Int32,
    name: string,
    externalId: Option<Int32>,
    iconPath: string,
    createdAt: Time,
    tableName: Option<string>,
    geometryType: Option<string>,
    inactivated: bool)

  /** Filters of List and GeoJson: an absent field is "no filter" (but see the store). */
  datatype ListParams = ListParams(
    typeId: Option<Int32>,
    createdBy: Option<Int32>,
    inactivated: Option<bool>,
    validated: Option<bool>)

  type GeoJsonParams = ListParams

  /** Filters of Search and Count. */
  datatype SearchParams = SearchParams(
    keywords: Option<string>,
    typeId: Option<Int32>,
    createdBy: Option<Int32>,
    inactivated: Option<bool>,
    validated: Option<bool>)

  type CountParams = SearchParams

  datatype TypeListParams = TypeListParams(
    keywords: Option<string>,
    createdBy: Option<Int32>,
    externalId: Option<Int32>,
    inactivated: Option<bool>)

  datatype TypeCountParams = TypeCountParams(
    keywords: Option<string>,
    createdBy: Option<Int32>,
    inactivated: Option<bool>)
}
