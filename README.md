# A verified model of the go-cloud-k8s-todo service core

The repository is a template for small CRUD services in Go. A service stores one kind of
record (`Template4ServiceName` in the template package, `Todo` in the todo package) and its
categories (`TypeTemplate4ServiceName` / `TypeTodo`). The records live in a PostgreSQL table
with soft deletion. The service offers them over Connect RPC, behind a bearer-token
interceptor. The two packages `pkg/template4gopackage` and `pkg/todo` are the same code under
two sets of names; only the identifiers, the comments and the text of some messages differ.
This model therefore follows the template package once, calling the record `Thing` and the
category `TypeThing`. The authentication interceptor exists only in the template package.

The model has four layers, one module each, plus the modules they share:

- **Storage** (`storage.dfy`, from storage_postgres.go and sql.go). The database handle is a
  class, `Database`, holding the thing table (a sequence of rows) and the category table (a
  map from id to category). The store, `PgxStore`, is a class whose methods send statements
  to that handle. Each read method is proved equal to a reference definition on the rows.
  The statements are modelled as data (`Sql.Query`). The `+=`-composed query strings, their
  placeholder numbering and their argument lists are interpreted by a small SQL engine:
  conjunctive WHERE with SQL NULL semantics, `ORDER BY _created_at DESC`, OFFSET and LIMIT,
  and pgx's check that the argument count matches the highest placeholder. Lemmas prove
  what each statement selects (`storage_properties.dfy`).
- **Business** (`business.dfy`, from business_service.go). `BusinessService` is a class over
  the store. Each method is proved equal to a `...Flow` function of the database state. The
  order of the checks, the error each refusal carries and what each write changes are lemmas
  about those functions (`business_properties.dfy`).
- **Mappers** (`mappers.dfy`, from mappers.go). The wire messages are datatypes and the
  mappers are functions, with round-trip lemmas. The two slice mappers loop in Go and are
  methods here.
- **RPC** (`auth.dfy`, `connect.dfy`, `connect_type.dfy`). These come from
  auth_interceptor.go, connect_server.go and connect_type_thing_server.go. `ThingServer` and
  `TypeServer` are classes over the business service. Each handler is proved equal to a reply
  function, and the reply functions carry the properties a client sees: status codes, the
  empty list for "no rows", the admin check and the owner of what is created
  (`connect_properties.dfy`, `connect_type_properties.dfy`).

The supporting modules are `Wrappers` (Option/Result), `GoInt` (`int32` and its truncating
conversion), `Domain` (records, UUIDs, filter parameters), `Errors` (sentinels, `%w` wrapping,
`errors.Is`), `Seqs`, `Text` (UTF-8 byte length, `strings.Trim`, `strings.TrimPrefix`), `Sql`
and `Rpc` (Connect codes and errors).

Things the model takes from outside:

- the database clock (`CURRENT_TIMESTAMP`) is a `now` parameter;
- uuid parsing (`uuid.Parse`) is a function parameter;
- the token check (`JwtChecker.ParseToken`) is a function parameter;
- full-text matching (`plainto_tsquery` over `to_tsvector(unaccent(...))`) is an abstract
  matcher in the environment;
- GeoJSON rendering (`row_to_json` of the FeatureCollection) is an abstract function in the
  environment;
- the next category id and the answers of the category list and count queries are abstract
  functions in the environment;
- which statements fail in the database is a set in the environment.

`database.DB` (used through `dbi`) and the pgx pool (`Conn`) are one database here.

### Behaviour a caller may not expect

The model follows the code in each case below.

- The store interface says Delete "removes" the record from the storage (storage.go:31) and
  that Exist is true "only if" the record "exists in store" (storage.go:23). Delete is a soft
  delete (sql.go:84-90), and the queries `getTemplate4ServiceName`,
  `existTemplate4ServiceName` and `existTemplate4ServiceNameOwnedBy` (sql.go:48-82) never test
  `_deleted`. So a deleted row is still found by Get, Exist and the owner check, and a second
  Delete succeeds (`StorageProperties.DeleteKeepsRowVisibleById`,
  `StorageProperties.DeleteRepeatable`). Update also reaches a deleted row
  (`StorageProperties.UpdateReachesDeletedRow`). Only the lists, Search, Count and GeoJSON
  hide deleted rows.
- A caller would expect a write that affects zero rows to be reported as an error. Create
  and Update in storage_postgres.go:281-284 and :308-311 return `nil, err` with `err` nil.
  The model keeps that `(nil, nil)` answer (`Success(None)`). Create never takes it
  (`StorageProperties.CreateStamps`), nor does an Update keyed by the id the business layer
  checked (`Business.UpdatePresentAnswers`). As written, Update is keyed by the body's id, and
  a body with no id (the nil UUID) matches no row: every check passes on the id argument,
  nothing is written, and the client is answered OK with no record
  (`BusinessProperties.UpdateAsWrittenSilentNoOp`, `ConnectProperties.UpdateAsWrittenOkWithoutRecord`).
- The store interface says Update updates the record "with given ID" (storage.go:29), and the
  business layer checks existence and ownership on that id. The write and the re-read use the
  body's id instead, so the ownership check guards a different row
  (`BusinessProperties.UpdateAsWrittenBypass`, Finding 1).
- The record server maps `ErrNotFound`, `ErrUnauthorized` and `ErrNotOwner`. The category
  server does not, and answers them as internal errors
  (`ConnectTypeProperties.ServersDisagreeOnlyOnRecordRefusals`).
- A missing List `inactivated` filter means "active only": the store binds `false`
  (storage_postgres.go:100-103). Search and Count bind NULL, so the missing filter means
  "any" (`StorageProperties.ListInactivatedDefault`, `StorageProperties.CountInactivatedAny`).

## Model

| member | source | states |
|---|---|---|
| GoInt.ToInt32 | pkg/template4gopackage/auth_interceptor.go:59 | `int32(x)` agrees with `x` modulo 2^32 and is `x` itself when `x` fits in 32 bits |
| Domain.UuidString | pkg/template4gopackage/mappers.go:128 | `uuid.UUID.String()` is 36 characters with dashes at positions 8, 13, 18 and 23 |
| Errors.Root | pkg/template4gopackage/connect_server.go:40-62 | the innermost error of a `%w` chain is not itself a wrap, and `errors.Is` finds it in the chain |
| Errors.IsUnwrappedIffRoot | pkg/template4gopackage/connect_server.go:40-62 | for a sentinel target, `errors.Is(e, target)` holds exactly when the innermost error of `e` is the target |
| Text.Utf8Len | pkg/template4gopackage/business_service.go:38 | Go's `len` of a string is between its character count and four times it, and 0 only for the empty string |
| Text.TrimSpacesEmptyIff | pkg/template4gopackage/business_service.go:35 | `strings.Trim(name, " ")` is empty exactly when the name is all spaces |
| Text.TrimSpacesIsInfix | pkg/template4gopackage/business_service.go:35 | `strings.Trim(name, " ")` is a contiguous middle part of the name, with only spaces cut from both ends |
| Text.TrimPrefix | pkg/template4gopackage/auth_interceptor.go:46 | `strings.TrimPrefix` removes the prefix once when it is there and otherwise returns the string unchanged |
| Sql.MaxParam | pkg/template4gopackage/storage_postgres.go:104-115 | the parameter count PostgreSQL infers is at least every placeholder of the statement |
| Sql.MaxParamReached | pkg/template4gopackage/storage_postgres.go:104-115 | the inferred count is reached: some clause carries `$n`, unless the statement has no placeholder |
| Sql.SortByCreatedDesc | pkg/template4gopackage/sql.go:21 | `ORDER BY _created_at DESC` gives a newest-first permutation of the rows |
| Sql.Page | pkg/template4gopackage/sql.go:21 | `LIMIT/OFFSET` keeps at most `limit` rows, nothing past the end, and a contiguous run of the input |
| Sql.PageWindow | pkg/template4gopackage/sql.go:21 | a page is the window that starts at the offset and holds as many rows as the limit allows, to the end when unlimited |
| Sql.PagesConcatenate | pkg/template4gopackage/sql.go:21 | consecutive pages partition the rows: a page of `a` then the next of `b` is the page of `a + b`; the unlimited page from 0 is every row |
| Sql.PageOfSorted | pkg/template4gopackage/sql.go:21 | a page of a newest-first list is newest first and holds only rows of the list |
| Sql.BaseListMeaning | pkg/template4gopackage/sql.go:19 | the base list query keeps exactly the rows not soft-deleted and with a position |
| Sql.OptionalFiltersMeaning | pkg/template4gopackage/sql.go:22-26 | each `col = coalesce($n, col)` is no filter for a NULL argument and an equality for a value |
| Sql.ValidatedMeaning | pkg/template4gopackage/storage_postgres.go:108 | `validated = coalesce($n, validated)` with a value keeps the rows validated so; a NULL `validated` never matches |
| Sql.KeywordMeaning | pkg/template4gopackage/sql.go:32 | the full-text condition keeps exactly the rows the matcher accepts for the keywords |
| Sql.ExternalIdMeaning | pkg/template4gopackage/sql.go:27 | `external_id = $3` keeps rows with that external id; a row without one never matches |
| Sql.ByIdMeaning | pkg/template4gopackage/sql.go:78-80 | `WHERE id = $1` keeps exactly the rows with that id, deleted or not |
| Sql.IsActiveMeaning | pkg/template4gopackage/sql.go:81 | the active check keeps the rows with that id that are not inactivated |
| Sql.OwnedByMeaning | pkg/template4gopackage/sql.go:82 | the owner check keeps the rows with that id and that creator |
| Sql.OrderByMeaning | pkg/template4gopackage/sql.go:21 | the ORDER BY/LIMIT tail adds no condition on the rows |
| Sql.CountId | pkg/template4gopackage/sql.go:90 | the rows-affected count of a `WHERE id` statement is at most the table size, and 0 exactly when no row has the id |
| Storage.ListStatementSelects | pkg/template4gopackage/storage_postgres.go:100-115 | both statements `List` can build, with their argument lists, return the newest-first page of the visible rows matching the filters |
| Storage.ListWhere | pkg/template4gopackage/storage_postgres.go:100-104 | the WHERE of `List` keeps the live positioned rows with the type and creator asked for and `inactivated` equal to the bound flag |
| Storage.ExternalIdStatementSelects | pkg/template4gopackage/storage_postgres.go:131-132 | the by-external-id statement returns the page of live positioned rows with that external id |
| Storage.SearchStatementSelects | pkg/template4gopackage/storage_postgres.go:150-172 | each of the four Search statements, with its argument list, returns the page of rows matching filters and keywords |
| Storage.SearchWhereMeaning | pkg/template4gopackage/storage_postgres.go:150-172 | for every row, the WHERE of each Search statement holds exactly when the row is visible to Search |
| Storage.SearchRowMeaning | pkg/template4gopackage/storage_postgres.go:150-172 | for one row, the WHERE of each Search statement holds exactly when the row is visible to Search |
| Storage.CountStatementCounts | pkg/template4gopackage/storage_postgres.go:225-258 | the Count statements built with `validated` at `$4` in the no-keyword branch and `$5` with keywords count exactly the rows Search would show |
| Storage.CountRowMeaning | pkg/template4gopackage/storage_postgres.go:225-258 | for one row, the WHERE of each correct Count statement holds exactly when the row is visible to Search |
| Storage.ByIdSelects | pkg/template4gopackage/storage_postgres.go:186-216 | the get and exist statements return and count the rows with the id |
| Storage.OwnedBySelects | pkg/template4gopackage/storage_postgres.go:355-369 | the owner statement counts the rows with the id and that creator |
| Storage.IsActiveSelects | pkg/template4gopackage/storage_postgres.go:338-352 | the active statement counts the rows with the id that are not inactivated |
| Storage.Database.constructor | pkg/template4gopackage/storage_postgres.go:22-46 | a handle over the given tables and environment |
| Storage.Database.ExecInsertThing | pkg/template4gopackage/storage_postgres.go:273-276 | the insert adds one row, or fails with a unique violation or a database failure and keeps the table; the category table is untouched |
| Storage.Database.ExecUpdateThing | pkg/template4gopackage/storage_postgres.go:299-303 | the update rewrites the rows with the key and reports how many; the category table is untouched |
| Storage.Database.ExecDeleteThing | pkg/template4gopackage/storage_postgres.go:325 | the soft delete marks the rows with the id and reports how many; the category table is untouched |
| Storage.Database.ExecInsertType | pkg/template4gopackage/storage_postgres.go:375-377 | the category insert stores the category under the next id, or fails; the thing table is untouched |
| Storage.Database.ExecUpdateType | pkg/template4gopackage/storage_postgres.go:396-399 | the category update rewrites that category and reports 1, or reports 0 when it is missing; the thing table is untouched |
| Storage.Database.ExecDeleteType | pkg/template4gopackage/storage_postgres.go:421 | the category soft delete marks that category and reports 1, or reports 0; the thing table is untouched |
| Storage.PgxStore.constructor | pkg/template4gopackage/storage_postgres.go:22-46 | a store over the given database handle |
| Storage.PgxStore.List | pkg/template4gopackage/storage_postgres.go:88-125 | the answer is the list items of the newest-first page of visible rows, or `pgx.ErrNoRows` for an empty page |
| Storage.PgxStore.GeoJson | pkg/template4gopackage/storage_postgres.go:48-85 | read as a single-row scan of the `row_to_json` text (see Left out): the rendering of the same page List would select, a NULL rendering being `pgx.ErrNoRows` |
| Storage.PgxStore.ListByExternalId | pkg/template4gopackage/storage_postgres.go:128-142 | the answer is the page of live positioned rows with that external id, or `pgx.ErrNoRows` |
| Storage.PgxStore.Search | pkg/template4gopackage/storage_postgres.go:144-183 | the answer is the page of rows matching filters and keywords, or `pgx.ErrNoRows` |
| Storage.PgxStore.Count | pkg/template4gopackage/storage_postgres.go:219-267 | as written: the count Search's filters select, truncated to int32, except that keywords with `validated` fail with an argument-count error |
| Storage.PgxStore.CountCorrected | pkg/template4gopackage/storage_postgres.go:219-267 | corrected: in every branch, the number of rows Search's filters select, truncated to int32 |
| Storage.PgxStore.CountWith | pkg/template4gopackage/storage_postgres.go:219-267 | the Count code with the keyword branch's `validated` placeholder as a parameter: `$4` gives the as-written answer, `$5` the corrected one |
| Storage.PgxStore.Get | pkg/template4gopackage/storage_postgres.go:186-199 | the record of the first row with the id, deleted or not; `pgx.ErrNoRows` when there is none |
| Storage.PgxStore.Exist | pkg/template4gopackage/storage_postgres.go:202-216 | true exactly when a row has the id and the query succeeds |
| Storage.PgxStore.IsUserOwner | pkg/template4gopackage/storage_postgres.go:355-369 | true exactly when a row has the id and that creator and the query succeeds |
| Storage.PgxStore.IsActive | pkg/template4gopackage/storage_postgres.go:338-352 | true exactly when a row with the id is not inactivated and the query succeeds |
| Storage.PgxStore.Create | pkg/template4gopackage/storage_postgres.go:270-293 | the new state and answer are those of the insert followed by the re-read of the row |
| Storage.PgxStore.Update | pkg/template4gopackage/storage_postgres.go:296-320 | as written: the write and the re-read are keyed by the body's id, not the id argument |
| Storage.PgxStore.UpdateById | pkg/template4gopackage/storage_postgres.go:296-320 | corrected: the write and the re-read are keyed by the id argument |
| Storage.PgxStore.UpdateKeyed | pkg/template4gopackage/storage_postgres.go:296-320 | the shared update code: write the rows with the key, then re-read that row |
| Storage.PgxStore.Delete | pkg/template4gopackage/storage_postgres.go:323-335 | the soft delete's new state; a failure is wrapped, zero rows is "not marked for deletion" |
| Storage.PgxStore.CreateType | pkg/template4gopackage/storage_postgres.go:372-390 | the category insert followed by the re-read under the returned id |
| Storage.PgxStore.UpdateType | pkg/template4gopackage/storage_postgres.go:393-416 | the category update followed by the re-read, with `(nil, nil)` for zero rows |
| Storage.PgxStore.DeleteType | pkg/template4gopackage/storage_postgres.go:419-431 | the category soft delete; a failure is wrapped, zero rows is "not marked for deletion" |
| Storage.PgxStore.GetType | pkg/template4gopackage/storage_postgres.go:463-476 | the stored category, or `pgx.ErrNoRows` |
| Storage.PgxStore.ListType | pkg/template4gopackage/storage_postgres.go:434-460 | the category statement chosen by the keyword filter, with its arguments; an empty answer is `pgx.ErrNoRows` |
| Storage.PgxStore.CountType | pkg/template4gopackage/storage_postgres.go:479-508 | the category count statement chosen by the keyword filter, truncated to int32 |
| StorageProperties.PagedRowsKept | pkg/template4gopackage/sql.go:21 | a page holds at most `limit` rows, all of them selected, newest first |
| StorageProperties.ListRowsVisible | pkg/template4gopackage/storage_postgres.go:88-125 | every row List shows is live, positioned and matches the filters; with no `inactivated` filter it is active |
| StorageProperties.ListInactivatedDefault | pkg/template4gopackage/storage_postgres.go:100-103 | List with no `inactivated` filter answers as with `inactivated = false` |
| StorageProperties.CountInactivatedAny | pkg/template4gopackage/storage_postgres.go:219-267 | Count with no `inactivated` filter is the active count plus the inactivated count |
| StorageProperties.SearchRowsVisible | pkg/template4gopackage/storage_postgres.go:144-183 | every row Search shows is live, positioned, matches the keywords and the filters, newest first |
| StorageProperties.ListNoRowsIffEmpty | pkg/template4gopackage/storage_postgres.go:120-123 | List answers `pgx.ErrNoRows` exactly when the page is empty, and a success has the page's length |
| StorageProperties.NegativeOffsetFirst | pkg/template4gopackage/storage_postgres.go:88-125 | a negative offset is reported as such whatever the limit |
| StorageProperties.CountKeywordValidatedFails | pkg/template4gopackage/storage_postgres.go:234-238 | as written, Count with keywords and `validated` always fails, where the corrected count succeeds |
| StorageProperties.CountAsWrittenElsewhereCorrect | pkg/template4gopackage/storage_postgres.go:219-267 | in every other branch the as-written Count equals the corrected one |
| StorageProperties.FilterNoId | pkg/template4gopackage/storage_postgres.go:186-199 | with no row carrying the id, the by-id query finds nothing |
| StorageProperties.CreateStamps | pkg/template4gopackage/storage_postgres.go:270-293 | Create never answers `(nil, nil)`; a created record carries the input's fields, the clock's creation time, and is active and not deleted; the table gains exactly that row |
| StorageProperties.CreateDuplicateRefused | pkg/template4gopackage/storage_postgres.go:273-280 | an insert of an id already present fails with a unique violation and leaves the state unchanged |
| StorageProperties.UpdateKeepsIds | pkg/template4gopackage/sql.go:91-118 | Update changes no row's id |
| StorageProperties.DeleteKeepsIds | pkg/template4gopackage/sql.go:84-90 | Delete changes no row's id |
| StorageProperties.SameIdsCount | pkg/template4gopackage/sql.go:84-118 | tables with the same ids have the same rows-affected counts and the same id lookups |
| StorageProperties.WritesKeepIdsUnique | pkg/template4gopackage/storage_postgres.go:270-335 | Create, Update and Delete keep the ids of the table unique |
| StorageProperties.UpdateColumns | pkg/template4gopackage/sql.go:91-118 | Update keeps id, creation and deletion columns; it rewrites name, text search and modification stamps of the keyed rows only |
| StorageProperties.UpdateReachesDeletedRow | pkg/template4gopackage/storage_postgres.go:296-320 | Update of a soft-deleted row succeeds and returns it still deleted |
| StorageProperties.GetSpecReadsFirst | pkg/template4gopackage/storage_postgres.go:186-199 | a successful Get is the record of the first row, in table order, with the id |
| StorageProperties.DeleteKeepsRowVisibleById | pkg/template4gopackage/sql.go:78-82 | after a successful Delete, Exist and the owner check answer as before |
| StorageProperties.DeleteRepeatable | pkg/template4gopackage/storage_postgres.go:323-335 | a successful Delete can be repeated, and the second succeeds too |
| StorageProperties.DeleteHidesFromLists | pkg/template4gopackage/sql.go:19 | after Delete the row is in no list |
| StorageProperties.DeleteOnlyMarks | pkg/template4gopackage/sql.go:84-90 | Delete changes only the `_deleted*` columns of the rows with the id: set, by the caller, at the clock's time |
| StorageProperties.UpdateAsWrittenIgnoresId | pkg/template4gopackage/storage_postgres.go:299-300 | as written, with a body naming another row, the row of the id argument is untouched and the body's row is rewritten |
| StorageProperties.UpdateByIdTouchesOnlyId | pkg/template4gopackage/storage_postgres.go:296-320 | corrected, Update rewrites the rows of the id argument and no other |
| StorageProperties.CreateTypeStamps | pkg/template4gopackage/storage_postgres.go:372-390 | a created category gets a fresh id, the clock's time and the insert's defaults |
| StorageProperties.DeleteTypeIsSoft | pkg/template4gopackage/storage_postgres.go:419-431 | under the keyed-map reading of the category statements (see Left out): a deleted category is still stored and readable, and its delete can be repeated |
| Business.ValidateName | pkg/template4gopackage/business_service.go:34-42 | a name of spaces only is empty; otherwise fewer than 5 bytes is too short; both directions |
| Business.UpdatePresentAnswers | pkg/template4gopackage/storage_postgres.go:308-311 | with the id present, Update never takes the `(nil, nil)` branch |
| Business.BusinessService.constructor | pkg/template4gopackage/business_service.go:24-31 | a service over the given store and default limit |
| Business.BusinessService.GeoJson | pkg/template4gopackage/business_service.go:45-54 | the store's GeoJSON, wrapped on failure, with an empty text answered as "empty" |
| Business.BusinessService.List | pkg/template4gopackage/business_service.go:57-70 | the store's list, with "no rows" as the empty list |
| Business.BusinessService.Create | pkg/template4gopackage/business_service.go:73-101 | name, category and duplicate checks in order, then the insert with the caller as creator |
| Business.BusinessService.Count | pkg/template4gopackage/business_service.go:104-110 | the corrected store count, wrapped on failure |
| Business.BusinessService.CountAsWritten | pkg/template4gopackage/business_service.go:103-110 | as written: the store count, wrapped on failure, so keywords with `validated` fail with the argument-count error |
| Business.BusinessService.Delete | pkg/template4gopackage/business_service.go:113-132 | existence and ownership checks, then the soft delete by the caller |
| Business.BusinessService.Get | pkg/template4gopackage/business_service.go:135-148 | existence check, then the store's record |
| Business.BusinessService.Update | pkg/template4gopackage/business_service.go:151-184 | existence, ownership, name and category checks, then the write keyed by the id, stamped with the caller |
| Business.BusinessService.UpdateAsWritten | pkg/template4gopackage/business_service.go:151-184 | as written: the same checks on the id, then the write and re-read keyed by the body's id, stamped with the caller |
| Business.BusinessService.ListByExternalId | pkg/template4gopackage/business_service.go:187-200 | the store's list by external id, with "no rows" as the empty list |
| Business.BusinessService.Search | pkg/template4gopackage/business_service.go:203-216 | the store's search, with "no rows" as the empty list |
| Business.BusinessService.ListTypes | pkg/template4gopackage/business_service.go:219-228 | the store's category list, wrapped on failure ("no rows" included) |
| Business.BusinessService.CreateType | pkg/template4gopackage/business_service.go:231-253 | the admin check, then the insert with the caller as creator |
| Business.BusinessService.CountTypes | pkg/template4gopackage/business_service.go:256-262 | the store's category count, wrapped on failure |
| Business.BusinessService.DeleteType | pkg/template4gopackage/business_service.go:265-285 | admin and existence checks, then the soft delete |
| Business.BusinessService.GetType | pkg/template4gopackage/business_service.go:288-307 | admin and existence checks, then the stored category |
| Business.BusinessService.UpdateType | pkg/template4gopackage/business_service.go:310-338 | admin and existence checks, then the update stamped with the caller |
| BusinessProperties.ValidateNameEmpty | pkg/template4gopackage/business_service.go:35-37 | "" and "   " are refused as empty |
| BusinessProperties.ValidateNameShort | pkg/template4gopackage/business_service.go:38-40 | "ab" is refused as too short |
| BusinessProperties.ValidateNameAccepted | pkg/template4gopackage/business_service.go:34-42 | "12345" and "    a" are accepted: the surrounding spaces count toward the five bytes |
| BusinessProperties.ValidateNameCountsBytes | pkg/template4gopackage/business_service.go:38 | the length is in bytes: "éé" (4 bytes) is too short and "ééé" (6 bytes) is accepted |
| BusinessProperties.CreateSpecNotRefused | pkg/template4gopackage/storage_postgres.go:270-293 | the store's Create never fails with a business sentinel |
| BusinessProperties.UpdateSpecNotRefused | pkg/template4gopackage/storage_postgres.go:296-320 | the store's Update never fails with a business sentinel |
| BusinessProperties.GetSpecErrors | pkg/template4gopackage/storage_postgres.go:186-199 | a read by id fails only with a database error or `pgx.ErrNoRows` |
| BusinessProperties.DeleteSpecNotRefused | pkg/template4gopackage/storage_postgres.go:323-335 | the store's Delete never fails with a business sentinel |
| BusinessProperties.CreateChecksInOrder | pkg/template4gopackage/business_service.go:73-101 | each refusal of Create happens exactly when its check fails and the earlier ones pass; a refusal writes nothing |
| BusinessProperties.CreateNameNeedsNoDatabase | pkg/template4gopackage/business_service.go:76-79 | an invalid name is refused the same way whatever the database holds, and writes nothing |
| BusinessProperties.CreateIgnoresInputCreator | pkg/template4gopackage/business_service.go:90 | the creator given in the input has no effect |
| BusinessProperties.CreateSetsCreator | pkg/template4gopackage/business_service.go:90-100 | a created record is the caller's, with the input's id and name, not deleted, stamped with the clock |
| BusinessProperties.CreateSucceedsWhenValid | pkg/template4gopackage/business_service.go:73-101 | a valid, new record in an existing category is stored: the table gains exactly its row |
| BusinessProperties.UpdateChecksInOrder | pkg/template4gopackage/business_service.go:151-184 | each refusal of Update happens exactly when its check fails and the earlier ones pass |
| BusinessProperties.UpdatePasses | pkg/template4gopackage/business_service.go:173-183 | past the checks, Update answers the store's write, stamped with the caller, never `(nil, nil)` |
| BusinessProperties.UpdateRefusalWritesNothing | pkg/template4gopackage/business_service.go:151-172 | a refused Update leaves the database as it was |
| BusinessProperties.UpdateReturnsKeyedRow | pkg/template4gopackage/storage_postgres.go:314-319 | a successful store Update returns the rewritten row of the key |
| BusinessProperties.UpdateStampsModifier | pkg/template4gopackage/business_service.go:173-183 | an updated record has the id asked for, is the caller's own (the owner check passed), takes the new name, and is stamped with the caller and the clock |
| BusinessProperties.UpdateTouchesOnlyCallerRow | pkg/template4gopackage/business_service.go:151-184 | corrected, Update changes no row other than the one whose id was passed and checked |
| BusinessProperties.UpdateAsWrittenRefusesAlike | pkg/template4gopackage/business_service.go:151-172 | as written, Update refuses exactly as the corrected one does and writes nothing |
| BusinessProperties.UpdateAsWrittenAgreesOnSameId | pkg/template4gopackage/storage_postgres.go:296-320 | when the body's id is the id argument, the as-written and corrected Update give the same answer and state |
| BusinessProperties.UpdateAsWrittenSilentNoOp | pkg/template4gopackage/storage_postgres.go:308-311 | as written, a body whose id matches no row passes every check, writes nothing and answers `(nil, nil)` |
| BusinessProperties.DeleteChecksInOrder | pkg/template4gopackage/business_service.go:113-132 | existence before ownership; a refusal writes nothing; a delete that goes through was the owner's |
| BusinessProperties.GetChecks | pkg/template4gopackage/business_service.go:135-148 | Get refuses with NotFound exactly when the id is missing, and otherwise returns the record of the first row with that id |
| BusinessProperties.UpdateAsWrittenBypass | pkg/template4gopackage/storage_postgres.go:299-300 | as written, a caller who owns one record can overwrite another user's record by naming its id in the body |
| BusinessProperties.PageErrorsFromDb | pkg/template4gopackage/storage_postgres.go:116-119 | a paged read fails only with a database failure |
| BusinessProperties.EmptyOnNoRowsOfOutcome | pkg/template4gopackage/business_service.go:57-70 | an empty list comes exactly from an empty page, and a failure exactly from a failed query |
| BusinessProperties.ListEmptyIffNothingMatched | pkg/template4gopackage/business_service.go:57-70 | List answers the empty list exactly when nothing matched, and fails exactly when the query fails |
| BusinessProperties.SearchEmptyIffNothingMatched | pkg/template4gopackage/business_service.go:203-216 | Search answers the empty list exactly when nothing matched, and fails exactly when the query fails |
| BusinessProperties.ByExternalIdEmptyIffNothingMatched | pkg/template4gopackage/business_service.go:187-200 | ListByExternalId answers the empty list exactly when nothing matched |
| BusinessProperties.NoRowsPassedOn | pkg/template4gopackage/business_service.go:45-54 | GeoJSON and the category list pass "no rows" on as a wrapped error, and never answer an empty text or list |
| BusinessProperties.TypeOpsAdminFirst | pkg/template4gopackage/business_service.go:231-338 | for a non-admin every category write and Get fails with AdminRequired and writes nothing |
| BusinessProperties.TypeOpsNeedCategory | pkg/template4gopackage/business_service.go:265-338 | for an admin, Get, Update and Delete of a missing category fail with TypeNotFound and write nothing |
| BusinessProperties.CreateTypeChoosesIdAndCreator | pkg/template4gopackage/business_service.go:231-253 | the input's id and creator do not matter: the database picks the id and the caller is the creator |
| BusinessProperties.UpdateTypeStampsModifier | pkg/template4gopackage/business_service.go:310-338 | an updated category keeps its id, takes the new name, is stamped with the caller, and no category is added or removed |
| Mappers.StringRoundTrips | pkg/template4gopackage/mappers.go:36-49 | wire string to pointer and back is exact; pointer to wire and back is exact exactly when it does not point to ""; status strings survive `stringToStatus` then `statusToString` |
| Mappers.Int32RoundTrips | pkg/template4gopackage/mappers.go:52-65 | wire number to pointer and back is exact; pointer to wire and back is exact exactly when it does not point to 0 |
| Mappers.BoolRoundTrips | pkg/template4gopackage/mappers.go:68-78 | wire flag to pointer and back is exact; pointer to wire and back is exact exactly when it is not nil |
| Mappers.StatusRoundTrips | pkg/template4gopackage/mappers.go:102-117 | a wire status survives both conversions; a domain status does exactly when it is not ""; no status is sent as "" |
| Mappers.ThingToProto | pkg/template4gopackage/mappers.go:123-158 | the id is sent as its text, and the wire record read back under that id is the normalised record |
| Mappers.ThingOfProto | pkg/template4gopackage/mappers.go:162-207 | the record carries the given id, the name and category, and no pointer to a zero value |
| Mappers.ProtoToThingRefusesOnlyMalformedId | pkg/template4gopackage/mappers.go:162-207 | a wire record is refused exactly when its id is present and does not parse; otherwise its record carries the parsed id or the nil UUID |
| Mappers.TypeThingToProto | pkg/template4gopackage/mappers.go:247-274 | the wire category read back is the normalised category |
| Mappers.ProtoToTypeThing | pkg/template4gopackage/mappers.go:277-304 | the category keeps id and name and has no pointer to a zero value |
| Mappers.TypeThingRoundTrip | pkg/template4gopackage/mappers.go:247-304 | category domain to wire to domain drops only pointers to zero values, and is exact on categories without them |
| Mappers.TypeListEntryAgrees | pkg/template4gopackage/mappers.go:307-321 | a category list entry shows the same values as the full category for the fields it has, and always a creation time |
| Mappers.ProtoThingRoundTrip | pkg/template4gopackage/mappers.go:123-207 | wire to domain to wire is exact, the id included when canonical; an empty id comes back as the nil UUID |
| Mappers.ThingRoundTrip | pkg/template4gopackage/mappers.go:123-207 | domain to wire to domain drops only pointers to zero values, and is exact on records without them |
| Mappers.ThingRoundTripLossy | pkg/template4gopackage/mappers.go:123-207 | an empty description comes back nil and a nil `Validated` comes back false |
| Mappers.ProtoTypeThingRoundTrip | pkg/template4gopackage/mappers.go:247-304 | category wire to domain to wire is exact |
| Mappers.ThingListSliceToProto | pkg/template4gopackage/mappers.go:231-240 | nil for nil; otherwise one wire item per item, in order, nil for nil |
| Mappers.TypeThingListSliceToProto | pkg/template4gopackage/mappers.go:324-333 | nil for nil; otherwise one wire item per item, in order, nil for nil |
| Auth.Authenticate | pkg/template4gopackage/auth_interceptor.go:40-56 | a call is accepted exactly when the header is present, starts with "Bearer " and the rest is a valid token; each refusal carries its own message |
| Auth.Intercept | pkg/template4gopackage/auth_interceptor.go:37-68 | a refused call is answered Unauthenticated without the handler; an accepted call is the handler's answer in the context carrying the token's user |
| Auth.WithUser | pkg/template4gopackage/auth_interceptor.go:59-61 | the context keeps the incoming keys, adds the three user keys, and yields the token's id as int32, its admin flag and its record |
| Auth.GetUserFromContext | pkg/template4gopackage/auth_interceptor.go:73-81 | the stored int32 id and admin flag; 0 and false where missing or of another type |
| Auth.RefusedNeverReachesHandler | pkg/template4gopackage/auth_interceptor.go:40-56 | a refused call is Unauthenticated whatever the handler does |
| Auth.AcceptedCarriesTokenUser | pkg/template4gopackage/auth_interceptor.go:59-65 | an accepted call runs the handler in a context that yields the token's id as int32, its admin flag and its record |
| Auth.WithUserOverrides | pkg/template4gopackage/auth_interceptor.go:59-61 | after the interceptor every key is set, and what the incoming context held is replaced |
| Auth.MustGetAfterIntercept | pkg/template4gopackage/auth_interceptor.go:59 | after the interceptor `MustGetUserFromContext` panics exactly for ids ≡ 0 mod 2^32, and returns ids in (0, 2^31) unchanged |
| Auth.AuthenticateExamples | pkg/template4gopackage/auth_interceptor.go:40-56 | the prefix is case-sensitive, "Bearer" alone is malformed, and only one "Bearer " is removed |
| Connect.MapError | pkg/template4gopackage/connect_server.go:40-62 | only the internal code carries the generic message, and a detail that carries an error carries the original one |
| Connect.TrueOnly | pkg/template4gopackage/connect_server.go:88-93 | a request flag is a filter exactly when true, and never a filter on false |
| Connect.ListParamsFrom | pkg/template4gopackage/connect_server.go:81-93 | the filters built field by field are those of the request |
| Connect.SearchParamsFrom | pkg/template4gopackage/connect_server.go:259-275 | the filters built field by field are those of the request |
| Connect.CountParamsFrom | pkg/template4gopackage/connect_server.go:308-324 | the filters built field by field are those of the request |
| Connect.PageFrom | pkg/template4gopackage/connect_server.go:95-103 | the limit and offset computed step by step are the pagination rule's |
| Connect.ThingServer.constructor | pkg/template4gopackage/connect_server.go:28-33 | a server over the given business service |
| Connect.ThingServer.ToProtoList | pkg/template4gopackage/connect_server.go:112 | the slice mapper applied to a business list gives the wire list |
| Connect.ThingServer.List | pkg/template4gopackage/connect_server.go:69-116 | the request's filters and paging, the business list, and its errors mapped |
| Connect.ThingServer.Create | pkg/template4gopackage/connect_server.go:119-151 | nil body refused, conversion errors InvalidArgument, then the business Create with the context's user |
| Connect.ThingServer.Get | pkg/template4gopackage/connect_server.go:154-180 | a malformed id refused, then the business Get and its errors mapped |
| Connect.ThingServer.Update | pkg/template4gopackage/connect_server.go:183-220 | id parse, nil body, conversion, then the business Update with the context's user |
| Connect.ThingServer.UpdateAsWritten | pkg/template4gopackage/connect_server.go:183-220 | as written: the same parsing and refusals, then the as-written business Update, so an OK answer may carry no record |
| Connect.ThingServer.Delete | pkg/template4gopackage/connect_server.go:223-246 | a malformed id refused, then the business Delete with the context's user |
| Connect.ThingServer.Search | pkg/template4gopackage/connect_server.go:249-295 | the request's filters and paging, the business search, and its errors mapped |
| Connect.ThingServer.Count | pkg/template4gopackage/connect_server.go:298-335 | the request's filters, the business count, and its errors mapped |
| Connect.ThingServer.CountAsWritten | pkg/template4gopackage/connect_server.go:298-335 | as written: the request's filters, the as-written business count, and its errors mapped |
| Connect.ThingServer.GeoJson | pkg/template4gopackage/connect_server.go:338-381 | the request's filters and paging, the business GeoJSON, and its errors mapped |
| Connect.ThingServer.ListByExternalId | pkg/template4gopackage/connect_server.go:384-418 | the business list by external id; an empty one is NotFound |
| ConnectProperties.MapErrorByRoot | pkg/template4gopackage/connect_server.go:40-62 | the status code and detail depend only on the innermost error, per a fixed table |
| ConnectProperties.BusinessRefusalCodes | pkg/template4gopackage/connect_server.go:40-62 | each business refusal gets its code (NotFound, AlreadyExists, PermissionDenied, InvalidArgument) with its error; wrapped "no rows" is NotFound; a database failure is Internal |
| ConnectProperties.ListFiltersRoundTrip | pkg/template4gopackage/connect_server.go:81-93 | request to filters loses nothing, and the filters a List request can express are exactly those with no zero and no false |
| ConnectProperties.CountMatchesSearch | pkg/template4gopackage/connect_server.go:298-335 | the count answered is the number of records a Search with the same filters returns when its page holds them all |
| ConnectProperties.CountAnswers | pkg/template4gopackage/connect_server.go:298-335 | the corrected count fails exactly when its query fails, and then with Internal |
| ConnectProperties.CountAsWrittenAnswers | pkg/template4gopackage/storage_postgres.go:234-238 | as written, a count with keywords and `validated` is answered Internal; any other count is the corrected one |
| ConnectProperties.GeoJsonAnswers | pkg/template4gopackage/connect_server.go:338-381 | the rendered rows are the page List would select; a failed page is Internal, a NULL rendering NotFound, an empty text "empty", other text passed on |
| ConnectProperties.UpdateAsWrittenOkWithoutRecord | pkg/template4gopackage/connect_server.go:183-220 | as written, an Update whose body has no id, by the owner of an existing record, is answered OK with no record and writes nothing |
| ConnectProperties.ListEntryAgreesWithRecord | pkg/template4gopackage/mappers.go:210-228 | a list entry on the wire shows the same values as the full record of the same row, field by field |
| ConnectProperties.SearchFiltersRoundTrip | pkg/template4gopackage/connect_server.go:259-275 | request to filters loses nothing, and the filters a Search request can express are exactly those with no empty, zero or false value |
| ConnectProperties.CountFiltersAreSearchFilters | pkg/template4gopackage/connect_server.go:308-324 | Count reads the same filters as Search from the same fields |
| ConnectProperties.ListAnswersWhenDbAnswers | pkg/template4gopackage/connect_server.go:69-116 | List succeeds whenever its query runs, and otherwise answers Internal with the generic message |
| ConnectProperties.SearchAnswersWhenDbAnswers | pkg/template4gopackage/connect_server.go:249-295 | Search succeeds whenever its query runs, and otherwise answers Internal with the generic message |
| ConnectProperties.ListByExternalIdNeverEmpty | pkg/template4gopackage/connect_server.go:405-412 | a success carries at least one item; a page with nothing in it is NotFound |
| ConnectProperties.MalformedIdRefused | pkg/template4gopackage/connect_server.go:154-246 | Get, Update and Delete refuse an id that does not parse, writing nothing |
| ConnectProperties.CreateBodyRefused | pkg/template4gopackage/connect_server.go:129-138 | Create refuses a missing body, and a body whose id does not parse, writing nothing |
| ConnectProperties.CreateReplyOfBody | pkg/template4gopackage/connect_server.go:135-150 | a body that converts reaches the business Create with the caller's id |
| ConnectProperties.CreateRefusalCodes | pkg/template4gopackage/connect_server.go:119-151 | a bad name is InvalidArgument, a missing category NotFound, a duplicate AlreadyExists, each writing nothing |
| ConnectProperties.CreateOwnedByCaller | pkg/template4gopackage/connect_server.go:119-151 | a created record is owned by the context's user, not deleted, stamped with the clock |
| ConnectProperties.AuthenticatedCreateOwnedByTokenUser | pkg/template4gopackage/auth_interceptor.go:59-65 | across the interceptor, a created record is owned by the token's user id as int32 |
| ConnectProperties.UpdateRefusalCodes | pkg/template4gopackage/connect_server.go:183-220 | a missing record is NotFound, another's PermissionDenied, a bad name InvalidArgument, each writing nothing |
| ConnectProperties.DeleteRefusalCodes | pkg/template4gopackage/connect_server.go:223-246 | a missing record is NotFound, another's PermissionDenied, each writing nothing; a delete that goes through was the owner's |
| ConnectProperties.GetAnswers | pkg/template4gopackage/connect_server.go:154-180 | a missing id is NotFound, and a success is the wire form of the record of the first row with that id |
| ConnectType.TypeMapError | pkg/template4gopackage/connect_type_thing_server.go:39-55 | only the internal code carries the generic message, and a detail that carries an error carries the original one |
| ConnectType.TypeListParamsFrom | pkg/template4gopackage/connect_type_thing_server.go:73-85 | the filters built field by field are those of the request |
| ConnectType.TypeCountParamsFrom | pkg/template4gopackage/connect_type_thing_server.go:225-235 | the filters built field by field are those of the request |
| ConnectType.TypeServer.constructor | pkg/template4gopackage/connect_type_thing_server.go:27-32 | a server over the given business service |
| ConnectType.TypeServer.ToProtoTypeList | pkg/template4gopackage/connect_type_thing_server.go:107-110 | the slice mapper applied to a business list gives the wire list |
| ConnectType.TypeServer.List | pkg/template4gopackage/connect_type_thing_server.go:62-112 | filters, paging with default 250, the business list, "no rows" as an empty list |
| ConnectType.TypeServer.Create | pkg/template4gopackage/connect_type_thing_server.go:115-141 | a nil body refused, then the business CreateType with the context's user and flag |
| ConnectType.TypeServer.Get | pkg/template4gopackage/connect_type_thing_server.go:144-162 | the business GetType with the context's admin flag |
| ConnectType.TypeServer.Update | pkg/template4gopackage/connect_type_thing_server.go:165-191 | a nil body refused, then the business UpdateType with the context's user and flag |
| ConnectType.TypeServer.Delete | pkg/template4gopackage/connect_type_thing_server.go:194-210 | the business DeleteType with the context's user and flag |
| ConnectType.TypeServer.Count | pkg/template4gopackage/connect_type_thing_server.go:213-244 | the request's filters, the business category count, and its errors mapped |
| ConnectTypeProperties.TypeMapErrorByRoot | pkg/template4gopackage/connect_type_thing_server.go:39-55 | the status code and detail depend only on the innermost error, per the category server's table |
| ConnectTypeProperties.ServersDisagreeOnlyOnRecordRefusals | pkg/template4gopackage/connect_type_thing_server.go:39-55 | the two servers map an error differently exactly for NotFound, Unauthorized and NotOwner, which the category server calls internal |
| ConnectTypeProperties.TypeRefusalCodes | pkg/template4gopackage/connect_type_thing_server.go:45-46 | AdminRequired is PermissionDenied with the fixed message; a missing category is NotFound with its error |
| ConnectTypeProperties.NonAdminDenied | pkg/template4gopackage/connect_type_thing_server.go:115-210 | a caller without the admin flag is PermissionDenied on Create, Get, Update and Delete, writing nothing; a missing body is refused first |
| ConnectTypeProperties.NonAdminTokenDenied | pkg/template4gopackage/auth_interceptor.go:59-65 | across the interceptor, a token whose user is not an admin cannot read a category |
| ConnectTypeProperties.AdminMissingCategory | pkg/template4gopackage/connect_type_thing_server.go:144-210 | for an admin, Get, Update and Delete of a missing category are NotFound and write nothing |
| ConnectTypeProperties.TypeListEmptyOnNoRows | pkg/template4gopackage/connect_type_thing_server.go:97-104 | List answers the empty list exactly when the query reports "no rows", in particular when nothing matches |
| ConnectTypeProperties.TypeListFiltersRoundTrip | pkg/template4gopackage/connect_type_thing_server.go:73-85 | request to filters loses nothing, and the filters a request can express are exactly those with no empty, zero or false value |
| ConnectTypeProperties.TypeCountAnswers | pkg/template4gopackage/storage_postgres.go:479-508 | the category count is the database's answer to the statement the keyword filter picks, truncated to int32; a failed query is Internal |
| ConnectTypeProperties.TypeListAndCountBindSameFilters | pkg/template4gopackage/storage_postgres.go:434-508 | for the same filters, the category list and count take the same statement family and bind the same filter values in the same order |
| ConnectTypeProperties.TypeCreateOwnedByCaller | pkg/template4gopackage/connect_type_thing_server.go:115-141 | a created category is owned by the context's user and has the id the database chose |

## Left out

- pkg/todo: the same code as pkg/template4gopackage under other names and message texts; it is modelled once.
- `NewPgxDB`, `GetStorageInstanceOrPanic` and the connection pool: start-up and I/O. The store is built over a given handle.
- `GetTypeTemplate4ServiceNameMaxId`: no caller in the modelled core.
- `searchConditions` in sql.go: declared but not used by the code.
- The category table's SQL is not part of this model. Storage.PgxStore.ListType and Storage.PgxStore.CountType: their rows and counts are the environment's answer to the statement and arguments the model chooses; the partner lemmas state which statement and arguments, not what the database returns.
- Storage.PgxStore.GetType, Storage.PgxStore.UpdateType, Storage.PgxStore.DeleteType and the category existence query (Storage.ExistTypeCountSpec): their SQL is not part of this model; they are modelled as keyed lookups and updates of the category map that ignore `_deleted`, by analogy with the record statements in sql.go:78-90. StorageProperties.DeleteTypeIsSoft is a consequence of that assumption, not of code in the modelled files.
- Storage.PgxStore.GeoJson: `pgxscan.Select` into `&mayBeResultIsNull` (storage_postgres.go:69-75) is read as a single-row scan of the `row_to_json` text, NULL giving `pgx.ErrNoRows`; how scany treats a destination that is not a slice is not part of this model.
- Storage.Env.geoJson: the rendering is an unconstrained function of the selected rows. The statement at sql.go:121-148 aggregates without GROUP BY under `row_to_json`, so PostgreSQL always returns one non-NULL, non-empty text, `{"type":"FeatureCollection","features":[]}` for an empty page. The NotFound branch (storage_postgres.go:80-83) and the "empty" answer are therefore dead with this statement, although the model, and ConnectProperties.GeoJsonAnswers, treat them as reachable.
- Sql.InsertedRow, StorageProperties.CreateStamps: the INSERT at sql.go:34-46 does not list `inactivated`, `_deleted` or the last-modified columns; the model assumes the table's defaults are `inactivated = false`, `_deleted = false`, and NULL for the last-modified, inactivation and deletion stamps. The table definition is not part of this model, so StorageProperties.ListInactivatedDefault and every "a created record is listed" consequence rest on these defaults.
- Full-text search: stemming, `unaccent` and French configuration are an abstract matcher.
- PostGIS, `round(...)` and floating-point coordinates: coordinates are opaque values that are copied, never computed with.
- GeoJSON assembly by `row_to_json`: an abstract function of the selected rows.
- Timestamps: `CURRENT_TIMESTAMP` is a `now` parameter, and `timeToTimestamp`/`timestampToTime` are the identity on `Time`.
- `mapToStruct`/`structToMap`: the JSON documents are opaque strings. `mapToStruct`'s failure-to-nil case is not modelled.
- service.go, the HTTP/Echo handlers and the Connect wiring: transport, not core logic.
- Logging, `context.Context` cancellation and concurrency: the model is sequential, and a handler's log-only `GetUserFromContext` call is not modelled.
- `uuid.Parse` and `JwtChecker.ParseToken`: function parameters. Only `userId` and `isAdmin` of the token's user are modelled.
- The interceptor's `next(ctx, req)` is a function of the context; the request it also passes is not modelled.
- `claims.User` is assumed non-nil: the code dereferences it without a check.
- `OnlyAdminCanManageTypeTemplate4ServiceNames` is declared outside the modelled files; its text is `OnlyAdminCanManageTypes`.
- The message texts carry the template placeholder `template_4_your_project_name`; in the todo package they say "todo".
- Row order among rows with the same `_created_at` is unspecified in PostgreSQL; the model fixes one (table order).
- Sql.SortByCreatedDesc: stated as sorted and a permutation, not as a particular tie order.
- Storage.PgxStore.Count: follows the code as written; the rest of the model uses Storage.PgxStore.CountCorrected (Finding 2).
- Storage.PgxStore.Update: follows the code as written; the business layer uses Storage.PgxStore.UpdateById (Finding 1).
- Business.BusinessService.Update: describes the corrected store write keyed by the id argument; the code as written is Business.BusinessService.UpdateAsWritten.
- Connect.ThingServer.Update: describes the corrected Update; the code as written is Connect.ThingServer.UpdateAsWritten.
- BusinessProperties.UpdatePasses: describes the corrected store; as written, the `(nil, nil)` answer is reachable (BusinessProperties.UpdateAsWrittenSilentNoOp).
- BusinessProperties.UpdateStampsModifier: describes the corrected store; as written, the row rewritten is the body's (BusinessProperties.UpdateAsWrittenBypass).
- Business.BusinessService.Count: describes the corrected store count; the code as written is Business.BusinessService.CountAsWritten.
- Connect.ThingServer.Count: describes the corrected count; the code as written is Connect.ThingServer.CountAsWritten.

## Findings

| source | as written | input that shows it | evidently intended | confidence | as-written member | corrected member |
|---|---|---|---|---|---|---|
| pkg/template4gopackage/storage_postgres.go:296-320 | `Update(id, t)` binds `t.Id` as `$1` of `WHERE id = $1` and re-reads `t.Id`, while the business layer checks existence and ownership on `id` | caller 1 owns record A and user 2 owns record B; Update(id = A, body with id B) passes both checks on A and rewrites B. Update(id = A, body with empty id) passes both checks, writes nothing and is answered OK with no record | the write and the re-read use `id`, the record whose ownership was checked | high (not executed) | StorageProperties.UpdateAsWrittenIgnoresId, BusinessProperties.UpdateAsWrittenBypass, BusinessProperties.UpdateAsWrittenSilentNoOp, ConnectProperties.UpdateAsWrittenOkWithoutRecord | Storage.PgxStore.UpdateById, BusinessProperties.UpdateTouchesOnlyCallerRow |
| pkg/template4gopackage/storage_postgres.go:234-238 | with keywords and `Validated` set, Count appends `validated = coalesce($4, validated)` and passes five arguments to a statement whose highest placeholder is `$4` | Count with keywords "x" and validated true: pgx refuses with "expected 4 arguments, got 5" | the placeholder is `$5`, the fifth argument | high (not executed) | StorageProperties.CountKeywordValidatedFails | Storage.PgxStore.CountCorrected |
