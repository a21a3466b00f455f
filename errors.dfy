/** The failures of src/cache.ts: the lookup error `findPackageManager` throws and
    the backend errors `save` sorts by name. */
module Errors {

  /** Failures that leave the cache coordinator. */
  datatype Failure =
    | UnknownPackageManager(id: string)
    /** a backend error that `save` re-raises unchanged */
    | Rethrown(error: CacheError)

  /** The three kinds of error `saveCache` can reject with; the source tells them
      apart by the error's name, the model by its tag. */
  datatype CacheError =
    | ValidationError(message: string)
    | ReserveCacheError(message: string)
    | OtherError(message: string)

  const UnknownPrefix: string := "unknown package manager specified: "

  /** The text of the Error that crosses the coordinator's boundary: the lookup
      error names the rejected id after a fixed prefix, a re-raised backend error
      keeps its own message. */
  function Message(f: Failure): (m: string)
    ensures f.UnknownPackageManager? ==> UnknownPrefix <= m && m[|UnknownPrefix|..] == f.id
    ensures f.Rethrown? ==> m == f.error.message
  {
    match f
    case UnknownPackageManager(id) => UnknownPrefix + id
    case Rethrown(e) => e.message
  }
}
