/** `SDSDatabaseQueue.swift`: queues that run one transaction at a time on a
    fixed backend. The serial dispatch queue of `GRDBDatabaseQueue` is
    modelled by sequential execution: every call runs its block and finishes
    before it returns. */
module DatabaseQueue {
  import opened Wrappers
  import opened Transactions
  import opened GrdbAdapter

  /** `GRDBDatabaseQueue`: each read and write goes to the storage adapter;
      an error from the adapter is fatal. */
  class GrdbDatabaseQueue {
    const storageAdapter: GrdbStorageAdapter

    constructor (storageAdapter: GrdbStorageAdapter)
      ensures this.storageAdapter == storageAdapter
    {
      this.storageAdapter := storageAdapter;
    }

    method Read<R>(block: Contents -> R, poolFails: bool) returns (o: Fatalable<R>)
      ensures poolFails ==> o == Crashed(EngineError)
      ensures !poolFails ==> o == Completed(block(storageAdapter.database.contents))
    {
      var r := storageAdapter.Read(block, poolFails);
      if r.Failure? {
        return Crashed(EngineError);
      }
      o := Completed(r.value);
    }

    method Write(block: Contents -> WriteEffect, poolFails: bool) returns (o: Fatalable<()>)
      modifies storageAdapter`dispatchedCompletions, storageAdapter.database
      ensures poolFails ==> o == Crashed(EngineError)
      ensures poolFails ==> storageAdapter.database.contents == old(storageAdapter.database.contents)
                            && storageAdapter.dispatchedCompletions == old(storageAdapter.dispatchedCompletions)
      ensures !poolFails ==> o == Completed(())
      ensures !poolFails ==> var effect := block(old(storageAdapter.database.contents));
                             && storageAdapter.database.contents == effect.contents
                             && storageAdapter.dispatchedCompletions
                                == old(storageAdapter.dispatchedCompletions) + effect.completions
    {
      var r := storageAdapter.Write(block, poolFails);
      if r.Failure? {
        return Crashed(EngineError);
      }
      o := Completed(());
    }
  }

  /** `YAPDBDatabaseQueue`: a dedicated YapDatabase connection. */
  class YapDatabaseQueue {
    const connection: YapConnection

    /** Disables the connection's object cache, so that objects read through
        this queue are never instances shared with other connections. */
    constructor (connection: YapConnection)
      modifies connection
      ensures this.connection == connection
      ensures !connection.objectCacheEnabled
    {
      connection.objectCacheEnabled := false;
      this.connection := connection;
    }

    method Read<R>(block: Contents -> R) returns (r: R)
      ensures r == block(connection.database.contents)
    {
      r := connection.Read(block);
    }

    method Write(block: Contents -> WriteEffect)
      modifies connection.database
      ensures connection.database.contents == block(old(connection.database.contents)).contents
    {
      connection.ReadWrite(block);
    }
  }

  /** `SDSAnyDatabaseQueue.SomeDatabaseQueue`: the closed two-case variant. */
  datatype SomeDatabaseQueue =
    | YapQueue(yapQueue: YapDatabaseQueue)
    | GrdbQueue(grdbQueue: GrdbDatabaseQueue)
  {
    function Backend(): Backend {
      if YapQueue? then Yap else Grdb
    }

    /** The object holding the committed contents of this queue's backend. */
    function Store(): object {
      match this
      case YapQueue(q) => q.connection.database
      case GrdbQueue(q) => q.storageAdapter.database
    }

    /** The storage adapter behind this queue, if it is a GRDB queue; a write
        may append to its dispatched completions and to nothing else of it. */
    function Adapters(): set<GrdbStorageAdapter> {
      match this
      case YapQueue(_) => {}
      case GrdbQueue(q) => {q.storageAdapter}
    }
  }

  /** `SDSAnyDatabaseQueue`: the backend variant is fixed at construction and
      every read and write goes to it; writes, and never reads, notify other
      processes. */
  class AnyDatabaseQueue {
    const someDatabaseQueue: SomeDatabaseQueue
    const crossProcess: CrossProcessNotifier

    /** `init(yapDatabaseQueue:crossProcess:)` */
    constructor Yap(yapQueue: YapDatabaseQueue, crossProcess: CrossProcessNotifier)
      ensures someDatabaseQueue == YapQueue(yapQueue) && this.crossProcess == crossProcess
    {
      someDatabaseQueue := YapQueue(yapQueue);
      this.crossProcess := crossProcess;
    }

    /** `init(grdbDatabaseQueue:crossProcess:)` */
    constructor Grdb(grdbQueue: GrdbDatabaseQueue, crossProcess: CrossProcessNotifier)
      ensures someDatabaseQueue == GrdbQueue(grdbQueue) && this.crossProcess == crossProcess
    {
      someDatabaseQueue := GrdbQueue(grdbQueue);
      this.crossProcess := crossProcess;
    }

    /** The committed contents of the backend this queue is bound to. */
    function Contents(): Contents
      reads someDatabaseQueue.Store()
    {
      match someDatabaseQueue
      case YapQueue(q) => q.connection.database.contents
      case GrdbQueue(q) => q.storageAdapter.database.contents
    }

    /** `read(block:)`: the block runs exactly once, on the queue's own backend,
        with that backend's transaction wrapped as the "any" transaction. A
        read changes nothing, so in particular it never notifies. */
    method Read<R>(block: AnyReadTransaction -> R, poolFails: bool) returns (o: Fatalable<R>)
      ensures someDatabaseQueue.YapQueue? ==> o == Completed(block(YapRead(Contents())))
      ensures someDatabaseQueue.GrdbQueue? && !poolFails ==> o == Completed(block(GrdbRead(Contents())))
      ensures someDatabaseQueue.GrdbQueue? && poolFails ==> o == Crashed(EngineError)
    {
      match someDatabaseQueue
      case YapQueue(q) =>
        var r := q.Read(c => block(YapRead(c)));
        o := Completed(r);
      case GrdbQueue(q) =>
        o := q.Read(c => block(GrdbRead(c)), poolFails);
    }

    /** `write(block:)`: the block runs exactly once, on the queue's own
        backend; after the backend write returns, other processes are notified
        exactly once. A fatal engine error ends the process before that. */
    method Write(block: AnyWriteTransaction -> WriteEffect, poolFails: bool) returns (o: Fatalable<()>)
      modifies crossProcess, someDatabaseQueue.Store(), someDatabaseQueue.Adapters()`dispatchedCompletions
      ensures o.Completed? <==> someDatabaseQueue.YapQueue? || !poolFails
      ensures o.Completed? ==> crossProcess.notifyCount == old(crossProcess.notifyCount) + 1
      ensures o.Completed? ==>
                Contents() == block(WrapWrite(someDatabaseQueue.Backend(), old(Contents()))).contents
      ensures o.Crashed? ==> o.reason == EngineError
                             && crossProcess.notifyCount == old(crossProcess.notifyCount)
                             && Contents() == old(Contents())
      ensures someDatabaseQueue.GrdbQueue? ==>
                var adapter := someDatabaseQueue.grdbQueue.storageAdapter;
                adapter.dispatchedCompletions ==
                  old(adapter.dispatchedCompletions)
                  + (if o.Completed? then block(GrdbWrite(old(Contents()))).completions else [])
                && adapter.uiObserversInstalled == old(adapter.uiObserversInstalled)
    {
      match someDatabaseQueue {
        case YapQueue(q) =>
          q.Write(c => block(YapWrite(c)));
        case GrdbQueue(q) =>
          o := q.Write(c => block(GrdbWrite(c)), poolFails);
          if o.Crashed? {
            return;
          }
      }
      crossProcess.NotifyChangedAsync();
      o := Completed(());
    }
  }
}
