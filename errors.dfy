/** Go errors as the core builds them: the sentinels of errors.go, pgx's "no rows", database
    failures, and `fmt.Errorf` wrapping with `%w`, which `errors.Is` sees through. */
module Errors {
  import opened GoInt
  import opened Domain

  /** The sentinel values declared in errors.go. */
  datatype Kind = NotFound | AlreadyExists | TypeNotFound | Unauthorized | InvalidInput | NotOwner | AdminRequired

  /** The two errors of the name rule (`FieldCannotBeEmpty`, `FieldMinLengthIsN`). */
  datatype NameError = EmptyName | NameTooShort

  /** Failures reported by the database driver or server. */
  datatype DbError =
    | Unavailable                               // connection or server failure
    | ArgumentCount(expected: nat, got: nat)    // more or fewer arguments than placeholders
    | NegativeOffset                            // "OFFSET must not be negative"
    | NegativeLimit                             // "LIMIT must not be negative"
    | UniqueViolation                           // duplicate primary key on insert
    | NullScan                                  // a NULL column scanned into a non-pointer field

  /** The text `fmt.Errorf` puts in front of a wrapped error. */
  datatype Context =
    | IdContext(id: Uuid)
    | TypeIdContext(typeId: Int32)
    | NotOwnerContext(user: Int32, id: Uuid)
    | InvalidName(reason: NameError)
    | RetrievingGeoJson | Listing | ListingByExternalId | Searching | Creating | Counting
    | Deleting | Retrieving | Updating
    | ListingTypes | CreatingType | CountingTypes | DeletingType | RetrievingType | UpdatingType
    | CreatedNotRetrievable | UpdatedNotRetrievable | CouldNotBeDeleted
    | TypeCreatedNotRetrievable | TypeUpdatedNotRetrievable | TypeCouldNotBeDeleted

  datatype Error =
    | Sentinel(kind: Kind)
    | NoRows                                    // pgx.ErrNoRows
    | Db(db: DbError)
    | Wrapped(context: Context, cause: Error)   // fmt.Errorf("...%w...", cause)
    | NotMarkedForDeletion                      // the store's zero-rows Delete error
    | TypeNotMarkedForDeletion
    | BadUuid                                   // the error of uuid.Parse

  /** `errors.Is(e, target)`: `target` is `e` or one of the errors `e` wraps. */
  predicate Is(e: Error, target: Error) {
    e == target || (e.Wrapped? && Is(e.cause, target))
  }

  /** The innermost error of a wrap chain. */
  function Root(e: Error): (r: Error)
    ensures !r.Wrapped?
    ensures Is(e, r)
  {
    if e.Wrapped? then Root(e.cause) else e
  }

  /** For a target that wraps nothing (every sentinel), `errors.Is` is a test on the root. */
  lemma {:induction false} IsUnwrappedIffRoot(e: Error, target: Error)
    requires !target.Wrapped?
    ensures Is(e, target) <==> Root(e) == target
  {
    if e.Wrapped? {
      IsUnwrappedIffRoot(e.cause, target);
    }
  }
}
