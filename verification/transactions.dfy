/** The backend-agnostic transaction values and the foreign collaborators the
    storage layer drives: the cross-process notifier and a YapDatabase
    connection. The engines are abstract: a backend's persisted state is a map
    from key to serialized object. */
module Transactions {

  /** What one backend's database holds: key -> serialized object. */
  type Contents = map<string, string>

  /** Which of the two engines is behind a transaction or a queue. */
  datatype Backend = Yap | Grdb

  /** `SDSAnyReadTransaction`: a backend read transaction wrapped as the
      "any" transaction (`asAnyRead`). */
  datatype AnyReadTransaction =
    | YapRead(contents: Contents)
    | GrdbRead(contents: Contents)
  {
    function Backend(): Backend {
      if YapRead? then Yap else Grdb
    }
  }

  /** `SDSAnyWriteTransaction` (`asAnyWrite`). */
  datatype AnyWriteTransaction =
    | YapWrite(contents: Contents)
    | GrdbWrite(contents: Contents)
  {
    function Backend(): Backend {
      if YapWrite? then Yap else Grdb
    }
  }

  function WrapRead(backend: Backend, contents: Contents): (tx: AnyReadTransaction)
    ensures tx.Backend() == backend && tx.contents == contents
  {
    match backend
    case Yap => YapRead(contents)
    case Grdb => GrdbRead(contents)
  }

  function WrapWrite(backend: Backend, contents: Contents): (tx: AnyWriteTransaction)
    ensures tx.Backend() == backend && tx.contents == contents
  {
    match backend
    case Yap => YapWrite(contents)
    case Grdb => GrdbWrite(contents)
  }

  /** A completion a write block registered on its transaction: the dispatch
      queue it must run on and the block, both as opaque names. */
  datatype Completion = Completion(queue: string, block: string)

  /** What running a caller's write block leaves behind: the contents it
      wrote and the completions it registered, in registration order. */
  datatype WriteEffect = WriteEffect(contents: Contents, completions: seq<Completion>)

  /** `SDSCrossProcess`: each `notifyChangedAsync()` is counted. */
  class CrossProcessNotifier {
    var notifyCount: nat

    constructor ()
      ensures notifyCount == 0
    {
      notifyCount := 0;
    }

    method NotifyChangedAsync()
      modifies this
      ensures notifyCount == old(notifyCount) + 1
    {
      notifyCount := notifyCount + 1;
    }
  }

  /** A YapDatabase file. */
  class YapDatabase {
    var contents: Contents

    constructor (contents: Contents)
      ensures this.contents == contents
    {
      this.contents := contents;
    }
  }

  /** A `YapDatabaseConnection` onto a YapDatabase. */
  class YapConnection {
    const database: YapDatabase
    var objectCacheEnabled: bool

    constructor (database: YapDatabase)
      ensures this.database == database && objectCacheEnabled
    {
      this.database := database;
      objectCacheEnabled := true;
    }

    /** `read(_:)`: runs the block once on the committed contents. */
    method Read<R>(block: Contents -> R) returns (r: R)
      ensures r == block(database.contents)
    {
      r := block(database.contents);
    }

    /** `readWrite(_:)`: runs the block once and commits what it wrote. */
    method ReadWrite(block: Contents -> WriteEffect)
      modifies database
      ensures database.contents == block(old(database.contents)).contents
    {
      database.contents := block(database.contents).contents;
    }
  }
}
