/** `GRDBDatabaseStorageAdapter`: the relational backend behind the storage
    facade. The pool, SQLCipher and the migrator are foreign; what this model
    keeps is the committed contents of the database file, whether the UI
    observers are installed, and the completions the adapter has dispatched. */
module GrdbAdapter {
  import opened Wrappers
  import opened Transactions

  /** The encrypted database file that a `DatabasePool` opens. */
  class GrdbDatabase {
    var contents: Contents

    constructor (contents: Contents)
      ensures this.contents == contents
    {
      this.contents := contents;
    }
  }

  /** An error thrown by the pool (`try pool.read`, `try pool.write`). */
  datatype PoolError = PoolError

  class GrdbStorageAdapter {
    const database: GrdbDatabase

    /** `uiDatabaseObserver` and the three snapshot delegates built on it
        are installed (`setupUIDatabase`) or nil. */
    var uiObserversInstalled: bool

    /** Completions handed to their dispatch queues (`queue.async`), oldest
        first. */
    var dispatchedCompletions: seq<Completion>

    /** The setup block `init(dbDir:)` handed to
        `AppReadiness.runNowOrWhenAppWillBecomeReady` has not run yet. */
    var setupDeferred: bool

    /** `init(dbDir:)`. Opening the pool and running the migrations are not
        part of this model. The setup block, which installs the UI
        observers, runs at once when the app is already ready and is
        deferred until it becomes ready otherwise. */
    constructor (database: GrdbDatabase, appReady: bool)
      ensures this.database == database
      ensures uiObserversInstalled == appReady && setupDeferred == !appReady
      ensures dispatchedCompletions == []
    {
      this.database := database;
      uiObserversInstalled := appReady;
      setupDeferred := !appReady;
      dispatchedCompletions := [];
    }

    /** The app became ready: a deferred setup block runs now. */
    method AppWillBecomeReady()
      modifies this`uiObserversInstalled, this`setupDeferred
      ensures !setupDeferred
      ensures uiObserversInstalled == (old(uiObserversInstalled) || old(setupDeferred))
    {
      if setupDeferred {
        setupDeferred := false;
        SetupUIDatabase();
      }
    }

    /** `setupUIDatabase()`: the observer fields become non-nil. */
    method SetupUIDatabase()
      modifies this`uiObserversInstalled
      ensures uiObserversInstalled
    {
      uiObserversInstalled := true;
    }

    /** `testing_tearDownUIDatabase()`: the observer fields become nil. */
    method TearDownUIDatabase()
      modifies this`uiObserversInstalled
      ensures !uiObserversInstalled
    {
      uiObserversInstalled := false;
    }

    /** `uiRead(block:)`: reads through `latestSnapshot`, which force-unwraps
        `uiDatabaseObserver`; the block runs once. */
    method UiRead<R>(block: Contents -> R) returns (o: Fatalable<R>)
      ensures uiObserversInstalled ==> o == Completed(block(database.contents))
      ensures !uiObserversInstalled ==> o == Crashed(MissingUISnapshot)
    {
      if !uiObserversInstalled {
        return Crashed(MissingUISnapshot);
      }
      o := Completed(block(database.contents));
    }

    /** `read(block:)`: the block runs once on a pool reader; `poolFails`
        stands for the pool throwing instead. */
    method Read<R>(block: Contents -> R, poolFails: bool) returns (r: Result<R, PoolError>)
      ensures poolFails ==> r == Failure(PoolError)
      ensures !poolFails ==> r == Success(block(database.contents))
    {
      if poolFails {
        return Failure(PoolError);
      }
      r := Success(block(database.contents));
    }

    /** `write(block:)`: the block runs once inside `pool.write`; only after
        that returns are the transaction's completions dispatched, in the order
        they were registered. When the pool throws, the write is rolled back
        and no completion is dispatched. */
    method Write(block: Contents -> WriteEffect, poolFails: bool) returns (r: Result<(), PoolError>)
      modifies this`dispatchedCompletions, database
      ensures poolFails ==> r == Failure(PoolError)
      ensures poolFails ==> database.contents == old(database.contents)
                            && dispatchedCompletions == old(dispatchedCompletions)
      ensures !poolFails ==> r == Success(())
      ensures !poolFails ==> database.contents == block(old(database.contents)).contents
      ensures !poolFails ==> dispatchedCompletions
                             == old(dispatchedCompletions) + block(old(database.contents)).completions
    {
      if poolFails {
        return Failure(PoolError);
      }
      var effect := block(database.contents);
      database.contents := effect.contents;
      var completions := effect.completions;
      for i := 0 to |completions|
        invariant dispatchedCompletions == old(dispatchedCompletions) + completions[..i]
        invariant database.contents == effect.contents
      {
        dispatchedCompletions := dispatchedCompletions + [completions[i]];
      }
      r := Success(());
    }
  }
}
