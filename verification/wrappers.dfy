/** Optional values and results with an error, as the storage layer's Swift code
    uses `T?` and `throws`. */
module Wrappers {

  datatype Option<+T> = None | Some(value: T)

  datatype Result<+T, +E> = Success(value: T) | Failure(error: E)

  /** What a call whose failure is fatal in the source (an `owsFail`, a `try!`,
      a force-unwrapped nil) ends in. */
  datatype Fatalable<+T> = Completed(value: T) | Crashed(reason: CrashReason)

  datatype CrashReason =
    | EngineError        // the database engine threw and the caller treats it as fatal
    | MissingUISnapshot  // `uiDatabaseObserver!` was nil
    | UnexpectedKeySpecLength  // the keychain held key material of the wrong length
}
