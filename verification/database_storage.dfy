/** `SDSDatabaseStorage`: the storage facade. It dispatches every transaction
    to exactly one backend, chosen by `useGRDB`, notifies other processes
    after every write, debounces the cross-process notifications it receives,
    and creates its GRDB adapter lazily. */
module DatabaseStorage {
  import opened Wrappers
  import opened Transactions
  import opened GrdbAdapter
  import opened DatabaseQueue

  // ---------------------------------------------------------------------
  // Cross-process notifications received from other processes
  // ---------------------------------------------------------------------

  /** The two facts about the running app the debounce rule consults
      (`CurrentAppContext()`). */
  datatype AppContext = AppContext(isMainApp: bool, isMainAppAndActive: bool)

  /** The debounce state: the pending flag and how many
      `didReceiveCrossProcessNotification` posts have been made. */
  datatype CrossProcessState = CrossProcessState(hasPendingCrossProcessWrite: bool, posted: nat)

  /** `handleCrossProcessWrite()` */
  function AfterCrossProcessWrite(s: CrossProcessState, app: AppContext): (r: CrossProcessState)
    ensures r.posted == if app.isMainApp && app.isMainAppAndActive then s.posted + 1 else s.posted
    ensures r.hasPendingCrossProcessWrite <==>
              s.hasPendingCrossProcessWrite || (app.isMainApp && !app.isMainAppAndActive)
  {
    if !app.isMainApp then s
    else if app.isMainAppAndActive then s.(posted := s.posted + 1)
    else s.(hasPendingCrossProcessWrite := true)
  }

  /** `didBecomeActive()` */
  function AfterBecameActive(s: CrossProcessState): (r: CrossProcessState)
    ensures !r.hasPendingCrossProcessWrite
    ensures r.posted == if s.hasPendingCrossProcessWrite then s.posted + 1 else s.posted
  {
    if !s.hasPendingCrossProcessWrite then s
    else CrossProcessState(false, s.posted + 1)
  }

  datatype LifecycleEvent = CrossProcessWrite(app: AppContext) | BecameActive

  function Step(s: CrossProcessState, e: LifecycleEvent): CrossProcessState
  {
    match e
    case CrossProcessWrite(app) => AfterCrossProcessWrite(s, app)
    case BecameActive => AfterBecameActive(s)
  }

  /** The state after a sequence of events, oldest first. */
  function Replay(s: CrossProcessState, events: seq<LifecycleEvent>): CrossProcessState
    decreases |events|
  {
    if events == [] then s else Replay(Step(s, events[0]), events[1..])
  }

  /** `n` cross-process writes observed in the same app context. */
  function Writes(app: AppContext, n: nat): (events: seq<LifecycleEvent>)
    ensures |events| == n && forall i :: 0 <= i < n ==> events[i] == CrossProcessWrite(app)
  {
    seq(n, _ => CrossProcessWrite(app))
  }

  lemma {:induction false} ReplayConcat(s: CrossProcessState, a: seq<LifecycleEvent>, b: seq<LifecycleEvent>)
    ensures Replay(s, a + b) == Replay(Replay(s, a), b)
    decreases |a|
  {
    if a != [] {
      assert (a + b)[1..] == a[1..] + b;
      ReplayConcat(Step(s, a[0]), a[1..], b);
    } else {
      assert a + b == b;
    }
  }

  /** In an app that is not the main app, cross-process writes change nothing. */
  lemma {:induction false} NonMainAppIgnoresWrites(s: CrossProcessState, app: AppContext, n: nat)
    requires !app.isMainApp
    ensures Replay(s, Writes(app, n)) == s
  {
    if n > 0 {
      assert Writes(app, n)[1..] == Writes(app, n - 1);
      NonMainAppIgnoresWrites(s, app, n - 1);
    }
  }

  /** In the active main app, each cross-process write is posted at once and
      the pending flag is left alone. */
  lemma {:induction false} ActiveMainAppPostsEachWrite(s: CrossProcessState, app: AppContext, n: nat)
    requires app.isMainApp && app.isMainAppAndActive
    ensures Replay(s, Writes(app, n)) == s.(posted := s.posted + n)
    decreases n
  {
    if n > 0 {
      assert Writes(app, n)[1..] == Writes(app, n - 1);
      ActiveMainAppPostsEachWrite(s.(posted := s.posted + 1), app, n - 1);
    }
  }

  /** In the inactive main app, cross-process writes post nothing and leave
      one pending write remembered, however many there were. */
  lemma {:induction false} InactiveMainAppDefersWrites(s: CrossProcessState, app: AppContext, n: nat)
    requires app.isMainApp && !app.isMainAppAndActive
    ensures Replay(s, Writes(app, n)) ==
              if n == 0 then s else s.(hasPendingCrossProcessWrite := true)
    decreases n
  {
    if n > 0 {
      assert Writes(app, n)[1..] == Writes(app, n - 1);
      InactiveMainAppDefersWrites(s.(hasPendingCrossProcessWrite := true), app, n - 1);
    }
  }

  /** Any number (at least one) of cross-process writes while the main app is
      inactive yields exactly one post when it becomes active, and a second
      activation posts nothing. */
  lemma DebouncedDeliveryOnActivation(s: CrossProcessState, app: AppContext, n: nat)
    requires app.isMainApp && !app.isMainAppAndActive && n >= 1
    ensures Replay(s, Writes(app, n) + [BecameActive]) == CrossProcessState(false, s.posted + 1)
    ensures Replay(s, Writes(app, n) + [BecameActive, BecameActive]) == CrossProcessState(false, s.posted + 1)
  {
    InactiveMainAppDefersWrites(s, app, n);
    ReplayConcat(s, Writes(app, n), [BecameActive]);
    ReplayConcat(s, Writes(app, n), [BecameActive, BecameActive]);
  }

  /** Activation without a pending write posts nothing. */
  lemma ActivationWithoutPendingWrite(s: CrossProcessState)
    requires !s.hasPendingCrossProcessWrite
    ensures Replay(s, [BecameActive]) == s
  {
  }

  // ---------------------------------------------------------------------
  // `touch`: marking a row as changed for the UI observers
  // ---------------------------------------------------------------------

  /** The three `touch` entry points. */
  datatype TouchTarget =
    | TouchInteraction(interactionId: string)  // touch(interaction:transaction:)
    | TouchThread(threadId: string)            // touch(thread:transaction:)
    | TouchThreadId(threadId: string)          // touch(threadId:transaction:)
  {
    function UniqueId(): string {
      if TouchInteraction? then interactionId else threadId
    }
  }

  /** `TSInteraction.collection()` and `TSThread.collection()`. */
  datatype Collection = InteractionCollection | ThreadCollection

  /** What a `touch` call does. */
  datatype TouchAction =
    | YapTouch(key: string, collection: Collection)   // `touchObject(forKey:inCollection:)`
    | ConversationViewTouch(interactionId: string)    // conversation view observer
    | HomeViewTouch(target: TouchTarget)              // home view observer
    | ObserverMissing(reported: bool)                 // nil observer; `owsFailDebug` iff the app is ready

  function TouchRule(target: TouchTarget, backend: Backend, observersInstalled: bool, appReady: bool): (a: TouchAction)
    ensures a.YapTouch? <==> backend == Yap
    ensures a.YapTouch? ==> a.key == target.UniqueId()
                            && (a.collection == InteractionCollection <==> target.TouchInteraction?)
    ensures backend == Grdb ==> (a.ObserverMissing? <==> !observersInstalled)
    ensures a.ObserverMissing? ==> a.reported == appReady
    ensures a.ConversationViewTouch? <==> backend == Grdb && observersInstalled && target.TouchInteraction?
    ensures a.ConversationViewTouch? ==> a.interactionId == target.UniqueId()
    ensures a.HomeViewTouch? ==> a.target == target && !target.TouchInteraction?
  {
    match backend
    case Yap =>
      YapTouch(target.UniqueId(), if target.TouchInteraction? then InteractionCollection else ThreadCollection)
    case Grdb =>
      if !observersInstalled then ObserverMissing(appReady)
      else if target.TouchInteraction? then ConversationViewTouch(target.interactionId)
      else HomeViewTouch(target)
  }

  // ---------------------------------------------------------------------
  // The facade
  // ---------------------------------------------------------------------

  class SDSDatabaseStorage {
    var useGRDB: bool
    var hasPendingCrossProcessWrite: bool
    /** Posts of `didReceiveCrossProcessNotification`. */
    var postedCrossProcessNotifications: nat
    /** `addObservers()` installed the cross-process callback and the
        did-become-active observer (it does so only when `useGRDB`). */
    const observesCrossProcess: bool
    const crossProcess: CrossProcessNotifier
    /** The legacy engine's database (`yapStorage`). */
    const yapDatabase: YapDatabase
    /** The database file the GRDB adapter opens. */
    const grdbDatabase: GrdbDatabase
    /** `_grdbStorage` */
    var grdbStorageCache: GrdbStorageAdapter?
    /** `AppReadiness.isAppReady()`: process-wide, and once true it stays true. */
    var appReady: bool

    ghost predicate Valid()
      reads this
    {
      grdbStorageCache != null ==> grdbStorageCache.database == grdbDatabase
    }

    function SignalState(): CrossProcessState
      reads this
    {
      CrossProcessState(hasPendingCrossProcessWrite, postedCrossProcessNotifications)
    }

    function CachedAdapter(): set<GrdbStorageAdapter>
      reads this
    {
      if grdbStorageCache == null then {} else {grdbStorageCache}
    }

    /** The current GRDB adapter exists and its UI observers are installed. */
    function ObserversInstalled(): bool
      reads this, CachedAdapter()
    {
      grdbStorageCache != null && grdbStorageCache.uiObserversInstalled
    }

    /** Completions the current GRDB adapter has dispatched. */
    function DispatchedCompletions(): seq<Completion>
      reads this, CachedAdapter()
    {
      if grdbStorageCache == null then [] else grdbStorageCache.dispatchedCompletions
    }

    /** `init()`, with `useGRDB` read from the feature flag. */
    constructor (useGRDB: bool, yapDatabase: YapDatabase, grdbDatabase: GrdbDatabase, appReady: bool)
      ensures Valid() && this.appReady == appReady
      ensures this.useGRDB == useGRDB && observesCrossProcess == useGRDB
      ensures this.yapDatabase == yapDatabase && this.grdbDatabase == grdbDatabase
      ensures fresh(crossProcess) && crossProcess.notifyCount == 0
      ensures SignalState() == CrossProcessState(false, 0)
      ensures grdbStorageCache == null
    {
      this.useGRDB := useGRDB;
      observesCrossProcess := useGRDB;
      this.yapDatabase := yapDatabase;
      this.grdbDatabase := grdbDatabase;
      crossProcess := new CrossProcessNotifier();
      hasPendingCrossProcessWrite := false;
      postedCrossProcessNotifications := 0;
      grdbStorageCache := null;
      this.appReady := appReady;
    }

    /** `AppReadiness` reports that the app will become ready: a setup block
        an adapter deferred at creation runs now and installs its observers. */
    method AppWillBecomeReady()
      modifies this`appReady, CachedAdapter()`uiObserversInstalled, CachedAdapter()`setupDeferred
      ensures appReady && grdbStorageCache == old(grdbStorageCache)
      ensures grdbStorageCache != null ==> !grdbStorageCache.setupDeferred
      ensures ObserversInstalled() == (old(ObserversInstalled())
                                       || (grdbStorageCache != null && old(grdbStorageCache.setupDeferred)))
    {
      appReady := true;
      if grdbStorageCache != null {
        grdbStorageCache.AppWillBecomeReady();
      }
    }

    /** `grdbStorage`: the adapter is created on first access only; later
        accesses return that same instance. A new adapter installs its UI
        observers at once when the app is ready, and defers that otherwise. */
    method GrdbStorage() returns (storage: GrdbStorageAdapter)
      requires Valid()
      modifies this`grdbStorageCache
      ensures Valid() && grdbStorageCache == storage
      ensures old(grdbStorageCache) != null ==> storage == old(grdbStorageCache)
      ensures old(grdbStorageCache) == null ==>
                fresh(storage) && storage.uiObserversInstalled == appReady
                && storage.setupDeferred == !appReady && storage.dispatchedCompletions == []
      ensures ObserversInstalled() == if old(grdbStorageCache) != null then old(ObserversInstalled()) else appReady
    {
      if grdbStorageCache != null {
        return grdbStorageCache;
      }
      storage := new GrdbStorageAdapter(grdbDatabase, appReady);
      grdbStorageCache := storage;
    }

    /** `clearGRDBStorageForTests()`: the next access creates a new adapter. */
    method ClearGRDBStorageForTests()
      modifies this`grdbStorageCache
      ensures Valid() && grdbStorageCache == null
    {
      grdbStorageCache := null;
    }

    /** `newDatabaseQueue()`: a queue on the active backend, sharing this
        storage's cross-process notifier. */
    method NewDatabaseQueue() returns (queue: AnyDatabaseQueue)
      requires Valid()
      modifies this`grdbStorageCache
      ensures Valid() && fresh(queue)
      ensures ObserversInstalled() == if old(grdbStorageCache) != null then old(ObserversInstalled())
                                      else grdbStorageCache != null && appReady
      ensures old(grdbStorageCache) == null && grdbStorageCache != null ==>
                fresh(grdbStorageCache) && grdbStorageCache.setupDeferred == !appReady
                && grdbStorageCache.dispatchedCompletions == []
      ensures queue.crossProcess == crossProcess
      ensures queue.someDatabaseQueue.Backend() == if useGRDB then Grdb else Yap
      ensures useGRDB ==> grdbStorageCache != null
                          && queue.someDatabaseQueue.grdbQueue.storageAdapter == grdbStorageCache
                          && (old(grdbStorageCache) != null ==> grdbStorageCache == old(grdbStorageCache))
      ensures !useGRDB ==> grdbStorageCache == old(grdbStorageCache)
                           && fresh(queue.someDatabaseQueue.yapQueue.connection)
                           && queue.someDatabaseQueue.yapQueue.connection.database == yapDatabase
                           && !queue.someDatabaseQueue.yapQueue.connection.objectCacheEnabled
    {
      if useGRDB {
        var storage := GrdbStorage();
        var grdbQueue := new GrdbDatabaseQueue(storage);
        queue := new AnyDatabaseQueue.Grdb(grdbQueue, crossProcess);
      } else {
        var connection := new YapConnection(yapDatabase);
        var yapQueue := new YapDatabaseQueue(connection);
        queue := new AnyDatabaseQueue.Yap(yapQueue, crossProcess);
      }
    }

    /** `uiRead(block:)`: on GRDB the block reads the UI snapshot, which needs
        the UI observers; on YapDatabase it reads through the UI connection. */
    method UiRead<R>(block: AnyReadTransaction -> R) returns (o: Fatalable<R>)
      requires Valid()
      modifies this`grdbStorageCache
      ensures Valid()
      ensures ObserversInstalled() == if old(grdbStorageCache) != null then old(ObserversInstalled())
                                      else grdbStorageCache != null && appReady
      ensures old(grdbStorageCache) == null && grdbStorageCache != null ==>
                fresh(grdbStorageCache) && grdbStorageCache.setupDeferred == !appReady
                && grdbStorageCache.dispatchedCompletions == []
      ensures !useGRDB ==> o == Completed(block(YapRead(yapDatabase.contents)))
                           && grdbStorageCache == old(grdbStorageCache)
      ensures useGRDB ==> grdbStorageCache != null
                          && (old(grdbStorageCache) != null ==> grdbStorageCache == old(grdbStorageCache))
                          && o == if grdbStorageCache.uiObserversInstalled
                                  then Completed(block(GrdbRead(grdbDatabase.contents)))
                                  else Crashed(MissingUISnapshot)
    {
      if useGRDB {
        var storage := GrdbStorage();
        o := storage.UiRead(c => block(GrdbRead(c)));
      } else {
        o := Completed(block(YapRead(yapDatabase.contents)));
      }
    }

    /** `read(block:)`: the block runs once on the
        active backend; an error from the GRDB pool is fatal. */
    method Read<R>(block: AnyReadTransaction -> R, poolFails: bool) returns (o: Fatalable<R>)
      requires Valid()
      modifies this`grdbStorageCache
      ensures Valid()
      ensures ObserversInstalled() == if old(grdbStorageCache) != null then old(ObserversInstalled())
                                      else grdbStorageCache != null && appReady
      ensures old(grdbStorageCache) == null && grdbStorageCache != null ==>
                fresh(grdbStorageCache) && grdbStorageCache.setupDeferred == !appReady
                && grdbStorageCache.dispatchedCompletions == []
      ensures !useGRDB ==> o == Completed(block(YapRead(yapDatabase.contents)))
                           && grdbStorageCache == old(grdbStorageCache)
      ensures useGRDB ==> grdbStorageCache != null
                          && (old(grdbStorageCache) != null ==> grdbStorageCache == old(grdbStorageCache))
                          && o == if poolFails then Crashed(EngineError)
                                  else Completed(block(GrdbRead(grdbDatabase.contents)))
    {
      if useGRDB {
        var storage := GrdbStorage();
        var r := storage.Read(c => block(GrdbRead(c)), poolFails);
        if r.Failure? {
          return Crashed(EngineError);
        }
        o := Completed(r.value);
      } else {
        o := Completed(block(YapRead(yapDatabase.contents)));
      }
    }

    /** `write(block:)`: the block runs once, on GRDB exactly when `useGRDB`
        and on YapDatabase otherwise; the other backend is untouched. Then the
        cross-process notifier is told exactly once, whichever backend ran. A
        GRDB error is fatal and nothing is notified. */
    method Write(block: AnyWriteTransaction -> WriteEffect, poolFails: bool) returns (o: Fatalable<()>)
      requires Valid()
      modifies this`grdbStorageCache, CachedAdapter()`dispatchedCompletions, crossProcess, yapDatabase, grdbDatabase
      ensures Valid()
      ensures ObserversInstalled() == if old(grdbStorageCache) != null then old(ObserversInstalled())
                                      else grdbStorageCache != null && appReady
      ensures old(grdbStorageCache) == null && grdbStorageCache != null ==>
                fresh(grdbStorageCache) && grdbStorageCache.setupDeferred == !appReady
      ensures o.Completed? <==> !useGRDB || !poolFails
      ensures o.Completed? ==> crossProcess.notifyCount == old(crossProcess.notifyCount) + 1
      ensures o.Crashed? ==> o.reason == EngineError && crossProcess.notifyCount == old(crossProcess.notifyCount)
      ensures !useGRDB ==> grdbStorageCache == old(grdbStorageCache)
                           && grdbDatabase.contents == old(grdbDatabase.contents)
                           && yapDatabase.contents == block(YapWrite(old(yapDatabase.contents))).contents
                           && DispatchedCompletions() == old(DispatchedCompletions())
      ensures useGRDB ==> grdbStorageCache != null
                          && (old(grdbStorageCache) != null ==> grdbStorageCache == old(grdbStorageCache))
                          && yapDatabase.contents == old(yapDatabase.contents)
      ensures useGRDB && poolFails ==> grdbDatabase.contents == old(grdbDatabase.contents)
                                       && DispatchedCompletions() == old(DispatchedCompletions())
      ensures useGRDB && !poolFails ==>
                var effect := block(GrdbWrite(old(grdbDatabase.contents)));
                && grdbDatabase.contents == effect.contents
                && DispatchedCompletions() == old(DispatchedCompletions()) + effect.completions
    {
      if useGRDB {
        var storage := GrdbStorage();
        var r := storage.Write(c => block(GrdbWrite(c)), poolFails);
        if r.Failure? {
          return Crashed(EngineError);
        }
      } else {
        yapDatabase.contents := block(YapWrite(yapDatabase.contents)).contents;
      }
      crossProcess.NotifyChangedAsync();
      o := Completed(());
    }

    /** The three `touch` overloads: dispatch on the transaction's variant; on
        GRDB the matching UI observer is asked to touch the row. */
    method Touch(target: TouchTarget, transaction: AnyWriteTransaction) returns (action: TouchAction)
      requires Valid()
      modifies this`grdbStorageCache
      ensures Valid()
      ensures ObserversInstalled() == if old(grdbStorageCache) != null then old(ObserversInstalled())
                                      else grdbStorageCache != null && appReady
      ensures old(grdbStorageCache) == null && grdbStorageCache != null ==>
                fresh(grdbStorageCache) && grdbStorageCache.setupDeferred == !appReady
                && grdbStorageCache.dispatchedCompletions == []
      ensures transaction.YapWrite? ==> grdbStorageCache == old(grdbStorageCache)
                                        && action == TouchRule(target, Yap, false, appReady)
      ensures transaction.GrdbWrite? ==>
                grdbStorageCache != null
                && (old(grdbStorageCache) != null ==> grdbStorageCache == old(grdbStorageCache))
                && action == TouchRule(target, Grdb, grdbStorageCache.uiObserversInstalled, appReady)
    {
      match transaction {
        case YapWrite(_) =>
          action := TouchRule(target, Yap, false, appReady);
        case GrdbWrite(_) =>
          var storage := GrdbStorage();
          action := TouchRule(target, Grdb, storage.uiObserversInstalled, appReady);
      }
    }

    /** `handleCrossProcessWrite()` */
    method HandleCrossProcessWrite(app: AppContext)
      modifies this`hasPendingCrossProcessWrite, this`postedCrossProcessNotifications
      ensures SignalState() == AfterCrossProcessWrite(old(SignalState()), app)
    {
      if !app.isMainApp {
        return;
      }
      if app.isMainAppAndActive {
        postedCrossProcessNotifications := postedCrossProcessNotifications + 1;
      } else {
        hasPendingCrossProcessWrite := true;
      }
    }

    /** `didBecomeActive()` */
    method DidBecomeActive()
      modifies this`hasPendingCrossProcessWrite, this`postedCrossProcessNotifications
      ensures SignalState() == AfterBecameActive(old(SignalState()))
    {
      if !hasPendingCrossProcessWrite {
        return;
      }
      hasPendingCrossProcessWrite := false;
      postedCrossProcessNotifications := postedCrossProcessNotifications + 1;
    }

    /** The callback `addObservers()` gives the notifier: another process
        wrote. Without the observers (not `useGRDB` at start-up) nothing
        happens. */
    method OnCrossProcessWrite(app: AppContext)
      modifies this`hasPendingCrossProcessWrite, this`postedCrossProcessNotifications
      ensures SignalState() == if observesCrossProcess then AfterCrossProcessWrite(old(SignalState()), app)
                               else old(SignalState())
    {
      if observesCrossProcess {
        HandleCrossProcessWrite(app);
      }
    }

    /** `UIApplication.didBecomeActiveNotification`, observed only when
        `addObservers()` registered for it. */
    method OnDidBecomeActiveNotification()
      modifies this`hasPendingCrossProcessWrite, this`postedCrossProcessNotifications
      ensures SignalState() == if observesCrossProcess then AfterBecameActive(old(SignalState()))
                               else old(SignalState())
    {
      if observesCrossProcess {
        DidBecomeActive();
      }
    }
  }

  /** The usual launch on GRDB: the first read creates the adapter before the
      app is ready, so its setup is deferred; once the app becomes ready the
      UI snapshot can be read. */
  method ReadBeforeReadinessThenUiRead<R>(yapDatabase: YapDatabase, grdbDatabase: GrdbDatabase,
                                          readBlock: AnyReadTransaction -> R, uiBlock: AnyReadTransaction -> R)
    returns (beforeReady: Fatalable<R>, afterReady: Fatalable<R>)
    ensures beforeReady == Completed(readBlock(GrdbRead(grdbDatabase.contents)))
    ensures afterReady == Completed(uiBlock(GrdbRead(grdbDatabase.contents)))
  {
    var storage := new SDSDatabaseStorage(true, yapDatabase, grdbDatabase, false);
    beforeReady := storage.Read(readBlock, false);
    storage.AppWillBecomeReady();
    afterReady := storage.UiRead(uiBlock);
  }

  /** Three cross-process writes while the main app is in the background,
      then activation: exactly one notification is posted. */
  method BackgroundWritesThenActivate(storage: SDSDatabaseStorage, app: AppContext)
    requires storage.observesCrossProcess && app.isMainApp && !app.isMainAppAndActive
    modifies storage
    ensures storage.postedCrossProcessNotifications == old(storage.postedCrossProcessNotifications) + 1
    ensures !storage.hasPendingCrossProcessWrite
  {
    storage.OnCrossProcessWrite(app);
    storage.OnCrossProcessWrite(app);
    storage.OnCrossProcessWrite(app);
    storage.OnDidBecomeActiveNotification();
  }
}
