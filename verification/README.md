# SDS storage layer of Signal for iOS, modelled in Dafny

This project models the core of the SDS ("Signal Data Store") storage layer
of Signal-iOS, written in Swift. The layer lets the app run every database
transaction against one of two backends: the legacy YapDatabase key-value
store, or the GRDB/SQLCipher relational store. The facade picks the backend
from `useGRDB`.

The model covers:

- **The facade `SDSDatabaseStorage`** (module `DatabaseStorage`). It
  dispatches `uiRead`, `read`, `write`, `newDatabaseQueue` and `touch` to
  exactly one backend. It creates the GRDB adapter lazily and tells other
  processes about every write. It also debounces the notifications other
  processes send, so an inactive main app posts one notification when it
  becomes active.
- **The GRDB adapter `GRDBDatabaseStorageAdapter`** (module `GrdbAdapter`).
  It covers the UI-snapshot read, pool reads and writes, and write
  completions dispatched in registration order after the commit.
- **The busy callback** (module `BusyRetry`): sleep 50 ms, warn every
  250 ms, always retry.
- **The SQLCipher passphrase block** (module `KeySpec`): 48 bytes of key
  material rendered as `x'<96 hex digits>'`.
- **The queues of `SDSDatabaseQueue.swift`** (module `DatabaseQueue`).
- **The generated table-access layer for `StickerPack`** (modules
  `StickerPackRecords` and `StickerPackStore`). It includes column names,
  table metadata, row decoding, `fromRecord` and `asRecord`, and the
  "update with" pattern with object identity. It also covers upsert,
  reload, the cursor, enumeration and removal of every row.
- **The typed fetch and update helpers and serializers of
  `TSAttachmentPointer` and `TSGroupThread`** (modules `AttachmentPointer`
  and `GroupThread`).

Modules `Wrappers`, `SdsTypes` and `Transactions` hold the shared vocabulary:

- `Option`, `Result` and `Fatalable`. `Fatalable` is the outcome of a call
  whose failure the source treats as fatal (`owsFail`, `try!`, a
  force-unwrap).
- Bytes, archives, record types and save modes.
- The backend-tagged "any" transactions.
- The cross-process notifier.
- The YapDatabase connection.

Each backend's committed state is an abstract map `Contents`. A caller's
block is a total function: a read block maps the transaction to its result,
and a write block maps it to the contents it commits and the completions it
registers. A GRDB pool that throws is the parameter `poolFails`.
`owsFailDebug` is modelled with release behaviour: it returns a flag or
does nothing.

## Model

| member | source | states |
|---|---|---|
| DatabaseStorage.SDSDatabaseStorage.constructor | SignalServiceKit/src/Storage/Database/SDSDatabaseStorage.swift:50-70 | `init()` calls `addObservers()`, which installs the cross-process callback and the did-become-active observer exactly when `useGRDB`. Nothing is pending or posted yet, and no GRDB adapter exists. |
| DatabaseStorage.SDSDatabaseStorage.GrdbStorage | SignalServiceKit/src/Storage/Database/SDSDatabaseStorage.swift:30-42 | The adapter is created on first access, with nothing dispatched. Its UI observers are installed at once iff the app is ready; otherwise their setup is deferred. Every later access returns that same instance, and its observers are left as they were. |
| DatabaseStorage.SDSDatabaseStorage.AppWillBecomeReady | SignalServiceKit/src/Storage/Database/SDSDatabaseStorage.swift:402-411 | The app becomes ready. An adapter whose setup block was deferred now installs its UI observers; observers already installed stay installed. |
| DatabaseStorage.SDSDatabaseStorage.ClearGRDBStorageForTests | SignalServiceKit/src/Storage/Database/SDSDatabaseStorage.swift:44-47 | Drops the cached adapter, so the next access creates a new one. |
| DatabaseStorage.SDSDatabaseStorage.NewDatabaseQueue | SignalServiceKit/src/Storage/Database/SDSDatabaseStorage.swift:103-110 | The new queue is bound to the active backend and shares this storage's notifier. On GRDB it wraps the (lazily created) adapter, whose observers are installed iff it existed with them or is new and the app is ready. On YapDatabase it opens a fresh connection whose object cache is disabled. An adapter it creates is new, has dispatched nothing, and has its setup deferred iff the app is not ready. |
| DatabaseStorage.SDSDatabaseStorage.UiRead | SignalServiceKit/src/Storage/Database/SDSDatabaseStorage.swift:127-142 | The block runs once on the active backend. On GRDB it reads the UI snapshot and crashes when the UI observers are missing, which for a newly created adapter is exactly when the app is not ready. An adapter it creates is new, has dispatched nothing, and has its setup deferred iff the app is not ready. |
| DatabaseStorage.SDSDatabaseStorage.Read | SignalServiceKit/src/Storage/Database/SDSDatabaseStorage.swift:144-159 | The block runs once on the active backend, wrapped as an any-read. An error from the GRDB pool is fatal (`owsFail`). An adapter it creates is new, has dispatched nothing, and has its setup deferred iff the app is not ready. |
| DatabaseStorage.SDSDatabaseStorage.Write | SignalServiceKit/src/Storage/Database/SDSDatabaseStorage.swift:161-178 | The block runs once: on GRDB iff `useGRDB`, on YapDatabase otherwise, and the other backend's contents are unchanged. After a completed write the notifier has been told exactly once, on either backend. A GRDB pool error is fatal and leaves the contents, the dispatched completions and the notifier as they were. On success the completions the block registered are appended to the dispatched ones. On YapDatabase no completion is dispatched, and on either backend the adapter's UI observers are left as they were (a new adapter has them iff the app is ready). An adapter it creates is new and has its setup deferred iff the app is not ready. |
| DatabaseStorage.TouchRule | SignalServiceKit/src/Storage/Database/SDSDatabaseStorage.swift:208-256 | On YapDatabase, `touch` touches the key in the interaction collection iff the target is an interaction, and in the thread collection otherwise. On GRDB, a missing observer produces the "missing" outcome, which is reported iff the app is ready. Otherwise interactions go to the conversation-view observer and threads and thread ids to the home-view observer. |
| DatabaseStorage.SDSDatabaseStorage.Touch | SignalServiceKit/src/Storage/Database/SDSDatabaseStorage.swift:208-256 | Dispatches on the write transaction's variant. On GRDB it consults the lazily created adapter's observers; a missing observer is reported iff `AppReadiness.isAppReady()`. An adapter it creates is new, has dispatched nothing, and has its setup deferred iff the app is not ready. |
| DatabaseStorage.AfterCrossProcessWrite | SignalServiceKit/src/Storage/Database/SDSDatabaseStorage.swift:260-277 | One more notification is posted iff the app is the main app and active. The pending flag ends up set iff it was set or the app is the main app and inactive. |
| DatabaseStorage.AfterBecameActive | SignalServiceKit/src/Storage/Database/SDSDatabaseStorage.swift:279-288 | Afterwards nothing is pending. One notification is posted iff a cross-process write was pending. |
| DatabaseStorage.SDSDatabaseStorage.HandleCrossProcessWrite | SignalServiceKit/src/Storage/Database/SDSDatabaseStorage.swift:260-277 | Outside the main app, nothing happens. The active main app posts at once. The inactive main app only sets the pending flag. |
| DatabaseStorage.SDSDatabaseStorage.DidBecomeActive | SignalServiceKit/src/Storage/Database/SDSDatabaseStorage.swift:279-288 | Posts once and clears the flag iff a cross-process write is pending. Otherwise nothing changes. |
| DatabaseStorage.SDSDatabaseStorage.OnCrossProcessWrite | SignalServiceKit/src/Storage/Database/SDSDatabaseStorage.swift:56-62 | The notifier callback reaches `handleCrossProcessWrite` only when `addObservers` installed it (`useGRDB` at start-up). |
| DatabaseStorage.SDSDatabaseStorage.OnDidBecomeActiveNotification | SignalServiceKit/src/Storage/Database/SDSDatabaseStorage.swift:64-67 | The did-become-active notification reaches `didBecomeActive` only when `addObservers` registered for it. |
| DatabaseStorage.ReplayConcat | SignalServiceKit/src/Storage/Database/SDSDatabaseStorage.swift:260-288 | Replaying two event sequences one after the other is replaying their concatenation. |
| DatabaseStorage.NonMainAppIgnoresWrites | SignalServiceKit/src/Storage/Database/SDSDatabaseStorage.swift:265-267 | Any number of cross-process writes seen outside the main app leave the debounce state unchanged. |
| DatabaseStorage.ActiveMainAppPostsEachWrite | SignalServiceKit/src/Storage/Database/SDSDatabaseStorage.swift:270-272 | In the active main app, n writes post n notifications and leave the flag alone. |
| DatabaseStorage.InactiveMainAppDefersWrites | SignalServiceKit/src/Storage/Database/SDSDatabaseStorage.swift:273-276 | In the inactive main app, n > 0 writes post nothing and leave exactly the pending flag set. |
| DatabaseStorage.DebouncedDeliveryOnActivation | SignalServiceKit/src/Storage/Database/SDSDatabaseStorage.swift:260-288 | Any number (at least one) of writes while inactive, then activation, posts exactly one notification and clears the flag. A second activation posts nothing more. |
| DatabaseStorage.ActivationWithoutPendingWrite | SignalServiceKit/src/Storage/Database/SDSDatabaseStorage.swift:282-284 | Activation with nothing pending changes nothing. |
| DatabaseStorage.BackgroundWritesThenActivate | SignalServiceKit/src/Storage/Database/SDSDatabaseStorage.swift:260-288 | Three background cross-process writes, then activation, on a GRDB storage: one post, nothing pending. |
| DatabaseStorage.ReadBeforeReadinessThenUiRead | SignalServiceKit/src/Storage/Database/SDSDatabaseStorage.swift:30-42 | On a GRDB storage whose app is not yet ready, a read creates the adapter and completes; after the app becomes ready, a UI read completes on the snapshot. |
| GrdbAdapter.GrdbStorageAdapter.constructor | SignalServiceKit/src/Storage/Database/SDSDatabaseStorage.swift:391-413 | The setup block runs now when the app is ready, so the UI observers are installed iff the app is ready; otherwise the block is deferred. The new adapter has dispatched nothing. |
| GrdbAdapter.GrdbStorageAdapter.AppWillBecomeReady | SignalServiceKit/src/Storage/Database/SDSDatabaseStorage.swift:402-411 | A deferred setup block runs when the app becomes ready and installs the UI observers; afterwards nothing is deferred. |
| GrdbAdapter.GrdbStorageAdapter.SetupUIDatabase | SignalServiceKit/src/Storage/Database/SDSDatabaseStorage.swift:607-640 | Afterwards the UI observers are installed. |
| GrdbAdapter.GrdbStorageAdapter.TearDownUIDatabase | SignalServiceKit/src/Storage/Database/SDSDatabaseStorage.swift:642-650 | Afterwards the UI observers are nil. |
| GrdbAdapter.GrdbStorageAdapter.UiRead | SignalServiceKit/src/Storage/Database/SDSDatabaseStorage.swift:681-688 | The block runs once on the snapshot. Without the UI observers, the force-unwrap of `uiDatabaseObserver` crashes. |
| GrdbAdapter.GrdbStorageAdapter.Read | SignalServiceKit/src/Storage/Database/SDSDatabaseStorage.swift:691-697 | The block runs once on the committed contents, or the pool's error is rethrown. |
| GrdbAdapter.GrdbStorageAdapter.Write | SignalServiceKit/src/Storage/Database/SDSDatabaseStorage.swift:700-711 | On success the block's contents are committed, then its completions are dispatched in registration order, appended to those dispatched before. When the pool throws, nothing is committed or dispatched. |
| BusyRetry.BusyCallback | SignalServiceKit/src/Storage/Database/SDSDatabaseStorage.swift:737-749 | Every call sleeps 50 ms and returns true (retry). The accumulated wait is 50·(retryCount+1). It warns iff that wait is a positive multiple of 250, that is iff retryCount+1 is a positive multiple of 5. |
| BusyRetry.WarnMultipleIsEveryFifthStep | SignalServiceKit/src/Storage/Database/SDSDatabaseStorage.swift:743-745 | 50·n is a multiple of 250 exactly when n is a multiple of 5. |
| BusyRetry.AccumulatedWaitIsTimeSlept | SignalServiceKit/src/Storage/Database/SDSDatabaseStorage.swift:738-744 | The accumulated wait the callback logs equals the sleep really taken by the calls so far. |
| BusyRetry.BusyRetryNeverGivesUp | SignalServiceKit/src/Storage/Database/SDSDatabaseStorage.swift:737-749 | Over n consecutive busy attempts the callback never gives up. It sleeps 50·n ms in total and logs ⌊n/5⌋ warnings. |
| KeySpec.HexShape | SignalServiceKit/src/Storage/Database/SDSDatabaseStorage.swift:769-785 | The hex rendering of n bytes is 2n hex digits. |
| KeySpec.HexRoundTrip | SignalServiceKit/src/Storage/Database/SDSDatabaseStorage.swift:769-785 | Decoding the hex rendering gives back the bytes. |
| KeySpec.FetchString | SignalServiceKit/src/Storage/Database/SDSDatabaseStorage.swift:769-785 | A keychain error is rethrown unchanged. Key material whose length is not 48 is fatal. 48 bytes give a 99-character passphrase: `x'`, 96 hex digits and a closing `'`, which parses back to exactly those bytes. |
| DatabaseQueue.GrdbDatabaseQueue.constructor | SignalServiceKit/src/Storage/Database/SDSDatabaseQueue.swift:24-26 | Keeps the storage adapter it is given. |
| DatabaseQueue.GrdbDatabaseQueue.Read | SignalServiceKit/src/Storage/Database/SDSDatabaseQueue.swift:29-37 | The block runs once through the adapter. An adapter error is fatal. |
| DatabaseQueue.GrdbDatabaseQueue.Write | SignalServiceKit/src/Storage/Database/SDSDatabaseQueue.swift:40-48 | Writes through the adapter, which commits and then dispatches the completions. An adapter error is fatal and changes nothing. |
| DatabaseQueue.YapDatabaseQueue.constructor | SignalServiceKit/src/Storage/Database/SDSDatabaseQueue.swift:60-66 | Disables the connection's object cache. |
| DatabaseQueue.YapDatabaseQueue.Read | SignalServiceKit/src/Storage/Database/SDSDatabaseQueue.swift:68-70 | The block runs once on the connection's committed contents. |
| DatabaseQueue.YapDatabaseQueue.Write | SignalServiceKit/src/Storage/Database/SDSDatabaseQueue.swift:72-74 | The block's contents are committed through the connection. |
| DatabaseQueue.AnyDatabaseQueue.Yap | SignalServiceKit/src/Storage/Database/SDSDatabaseQueue.swift:94-98 | Binds the queue to the YapDatabase variant and the given notifier. |
| DatabaseQueue.AnyDatabaseQueue.Grdb | SignalServiceKit/src/Storage/Database/SDSDatabaseQueue.swift:100-104 | Binds the queue to the GRDB variant and the given notifier. |
| DatabaseQueue.AnyDatabaseQueue.Read | SignalServiceKit/src/Storage/Database/SDSDatabaseQueue.swift:107-114 | The block runs once on the bound backend, wrapped as an any-read. A read changes nothing and never notifies. |
| DatabaseQueue.AnyDatabaseQueue.Write | SignalServiceKit/src/Storage/Database/SDSDatabaseQueue.swift:117-126 | The block runs once on the bound backend. A completed write commits the block's contents and notifies exactly once. On GRDB the block's completions are dispatched. A fatal engine error notifies nothing and changes nothing. The adapter's UI observers are never changed. |
| StickerPackRecords.ColumnName | SignalServiceKit/src/Messages/Stickers/StickerPack+SDS.swift:50-52 | A fully qualified name is `model_StickerPack.` followed by the column's raw value. A bare name is the raw value and contains no dot. |
| StickerPackRecords.RecordFromRow | SignalServiceKit/src/Messages/Stickers/StickerPack+SDS.swift:62-73 | A row shorter than the ten columns, or a value of the wrong kind, gives no record; GRDB's `row[i]` subscript crashes there instead. A decoded record's fields are the row's values in `CodingKeys` order; `isInstalled` is true iff its integer is non-zero. |
| StickerPackRecords.ColumnNameDeterminesColumn | SignalServiceKit/src/Messages/Stickers/StickerPack+SDS.swift:50-52 | `columnName` is injective: a name determines both the column and whether it was fully qualified (`model_StickerPack.` prefix). |
| StickerPackRecords.RowLayoutMatchesMetadata | SignalServiceKit/src/Messages/Stickers/StickerPack+SDS.swift:62-73 | The table metadata lists the coding keys in order, with column index i for the i-th key. `init(row:)` reading indices 0 to 9 restores any record from the row it is stored as. |
| StickerPackRecords.FromRecord | SignalServiceKit/src/Messages/Stickers/StickerPack+SDS.swift:94-128 | A nil id, or a record type other than sticker pack, is `invalidValue`. Otherwise it succeeds iff cover, info and items unarchive. On success `uniqueId`, `author`, `dateCreated`, `isInstalled` and `title` are the record's. |
| StickerPackRecords.AsRecord | SignalServiceKit/src/Messages/Stickers/StickerPack+SDS.swift:526-542 | The record has no id and the sticker-pack record type. The scalar fields are copied from the model. |
| StickerPackRecords.AsRecordThenFromRecord | SignalServiceKit/src/Messages/Stickers/StickerPack+SDS.swift:526-542 | A freshly serialized record (no id) cannot be read back. Once it has a row id, `fromRecord` returns the original model whenever its archives unarchive. |
| StickerPackRecords.StoredModelReadsBack | SignalServiceKit/src/Messages/Stickers/StickerPack+SDS.swift:94-128 | Storing a model's record as a row, then reading it with `init(row:)` and `fromRecord`, restores the model. |
| StickerPackStore.StickerPackTable.Fetch | SignalServiceKit/src/Messages/Stickers/StickerPack+SDS.swift:338-349 | The result is nil iff no row has the id or the row cannot be decoded (`fromRecord` throws in `grdbFetchOne`); only the latter is a debug failure. Otherwise it is the cached instance, or a new instance with the row's properties, which an enabled object cache keeps. |
| StickerPackStore.StickerPackTable.Save | SignalServiceKit/src/Messages/Stickers/StickerPack+SDS.swift:197-206 | `anyInsert` and the private `anyUpdate` save through `sdsSave` in insert and update mode. The row becomes the instance's properties and decodes; one save with the given mode is logged; an enabled object cache now holds this instance for the key. |
| StickerPackStore.StickerPackTable.Remove | SignalServiceKit/src/Messages/Stickers/StickerPack+SDS.swift:262-264 | The instance's row, and its cache entry, are gone; nothing else changes. |
| StickerPackStore.StickerPackTable.AllUniqueIds | SignalServiceKit/src/Messages/Stickers/StickerPack+SDS.swift:409-415 | Every unique id in the table, each exactly once. |
| StickerPackStore.StickerPack.AnyUpsert | SignalServiceKit/src/Messages/Stickers/StickerPack+SDS.swift:209-217 | The row becomes this instance's properties. The save is in insert mode iff the fetch by unique id was nil before (no row, or an undecodable one), in update mode otherwise. An enabled object cache then holds this instance for the key, and the latest version is exactly the upserted properties. |
| StickerPackStore.StickerPack.AnyUpdate | SignalServiceKit/src/Messages/Stickers/StickerPack+SDS.swift:243-260 | The block is applied to this instance exactly once. When the fetch is nil (no row, or an undecodable one), nothing is saved. Otherwise the row becomes the block applied exactly once to the latest version, even when the fetched copy is this very instance, and one update-mode save is logged. Afterwards the latest version a fetch sees is the updated properties. A nil fetch leaves the object cache as it was. For every other key, whether it decodes and its latest version are unchanged. |
| StickerPackStore.StickerPack.AnyReload | SignalServiceKit/src/Messages/Stickers/StickerPack+SDS.swift:270-279 | When the fetch yields an instance, every property becomes the latest version's. When it is nil (no row, or an undecodable one) the instance is unchanged, and a debug failure is reported iff `ignoreMissing` is false. The latest version for the key is unchanged, and a nil fetch leaves the object cache as it was. For every other key, whether it decodes and its latest version are unchanged. |
| StickerPackStore.AnyRemoveAllWithInstantation | SignalServiceKit/src/Messages/Stickers/StickerPack+SDS.swift:445-460 | Snapshots the ids, then fetches and removes each. Exactly the undecodable rows are left, unchanged; each of their ids is reported once as a missing instance, and no other id is. No cache entry is left and nothing is saved. |
| StickerPackStore.FetchAndRemove | SignalServiceKit/src/Messages/Stickers/StickerPack+SDS.swift:447-454 | The "missing instance" debug failure is reported iff the id's row cannot be decoded, and then nothing is removed; otherwise exactly that row goes. The cache entry for the id is gone in either case. |
| StickerPackStore.UpsertThenUpdate | SignalServiceKit/src/Messages/Stickers/StickerPack+SDS.swift:209-260 | An upsert followed by an update of the same instance leaves the row as the block applied once to the upserted properties, on either backend, with two saves logged. |
| StickerPackStore.CursorAll | SignalServiceKit/src/Messages/Stickers/StickerPack+SDS.swift:292-311 | A nil cursor yields the empty list. Otherwise the call succeeds iff every record decodes, with the i-th model from the i-th record. On failure it returns the error of the first record that does not decode. |
| StickerPackStore.AnyEnumerate | SignalServiceKit/src/Messages/Stickers/StickerPack+SDS.swift:364-376 | The visited models are the decoded prefix of the cursor, in order, and no visit before the last set `stop`. The traversal ends early only right after the visit that set `stop`, or at an undecodable record, which is reported. |
| AttachmentPointer.AnyFetchAttachmentPointer | SignalServiceKit/src/Messages/Attachments/TSAttachmentPointer+SDS.swift:17-30 | The result is nil when no attachment has the id, nil when the attachment is not a pointer, and otherwise that same pointer. |
| AttachmentPointer.GuardedBlock | SignalServiceKit/src/Messages/Attachments/TSAttachmentPointer+SDS.swift:34-40 | The caller's block is applied to pointers; any other attachment kind is left untouched. |
| AttachmentPointer.AnyUpdateAttachmentPointer | SignalServiceKit/src/Messages/Attachments/TSAttachmentPointer+SDS.swift:33-41 | The instance, a pointer, gets the block. The block reaches only pointers among stored copies. A stored copy exists iff something is saved. A stored stream is saved unchanged. |
| AttachmentPointer.FetchAfterUpdate | SignalServiceKit/src/Messages/Attachments/TSAttachmentPointer+SDS.swift:33-41 | After the saved copy is stored, fetching the pointer yields the block applied to the stored pointer. A stored stream stays as it was and is still not returned. |
| AttachmentPointer.AsRecord | SignalServiceKit/src/Messages/Attachments/TSAttachmentPointer+SDS.swift:57-88 | The record type is attachment pointer and the id is `grdbId`. Every stream-only column is nil. The unique id, album message id, byte count, content type, server id, digest, media size, pointer type and state are the model's. |
| AttachmentPointer.AsRecordRoundTrip | SignalServiceKit/src/Messages/Attachments/TSAttachmentPointer+SDS.swift:57-88 | Every field of the pointer can be read back from its record. |
| AttachmentPointer.AsRecordInjective | SignalServiceKit/src/Messages/Attachments/TSAttachmentPointer+SDS.swift:57-88 | Distinct pointers serialize to distinct records. |
| GroupThread.AnyFetchGroupThread | SignalServiceKit/src/Contacts/Threads/TSGroupThread+SDS.swift:17-30 | The result is nil when no thread has the id, nil when the thread is not a group thread, and otherwise that thread. |
| GroupThread.GuardedBlock | SignalServiceKit/src/Contacts/Threads/TSGroupThread+SDS.swift:34-40 | The caller's block is applied to group threads; contact threads are left untouched. |
| GroupThread.AnyUpdateGroupThread | SignalServiceKit/src/Contacts/Threads/TSGroupThread+SDS.swift:33-41 | The instance, a group thread, gets the block. The block reaches only group threads among stored copies. A stored copy exists iff something is saved. A stored contact thread is saved unchanged. |
| GroupThread.FetchAfterUpdate | SignalServiceKit/src/Contacts/Threads/TSGroupThread+SDS.swift:33-41 | After the saved copy is stored, fetching the group thread yields the block applied to the stored one. A stored contact thread stays as it was. |
| GroupThread.AsRecord | SignalServiceKit/src/Contacts/Threads/TSGroupThread+SDS.swift:57-82 | The record has no id and the group-thread record type. The contact-only columns are nil. The base-class fields are the model's, including `archivedAsOfMessageSortId` and `isArchivedByLegacyTimestampForSorting`, with the colour name stored as its raw string. The group model is stored archived. |
| GroupThread.AsRecordRoundTrip | SignalServiceKit/src/Contacts/Threads/TSGroupThread+SDS.swift:57-82 | Every field of the group thread can be read back from its record. |
| GroupThread.AsRecordInjective | SignalServiceKit/src/Contacts/Threads/TSGroupThread+SDS.swift:57-82 | Distinct group threads serialize to distinct records. |

## Left out

- The database engines themselves are not modelled: YapDatabase, GRDB's `DatabasePool`, SQLCipher, SQL text and the schema migrator. Each backend's committed state is an abstract map, and a pool failure is a parameter.
- Concurrency is not modelled: threads, the serial dispatch queue of `GRDBDatabaseQueue`, `DispatchQueue.main.async`, asynchronous completions and autorelease pools. Calls run sequentially, and completions are recorded as dispatched.
- `uiDatabaseObserver` snapshot maintenance and the observers' change diffing are not modelled. The UI snapshot, and the YapDatabase `uiRead` through the long-lived UI connection, are taken to be the committed contents, and the observers are one "installed" flag.
- `uiReadThrows`, `readReturningResultThrows` and the `…ReturningResult` flavours are not modelled. They follow the same dispatch as the modelled calls.
- `yapStorage` (a lazy variable) is taken to exist, and YapDatabase writes have no completions.
- GrdbAdapter.GrdbStorageAdapter.constructor: a `setup()` or `setupUIDatabase()` that throws in the readiness block is fatal (`owsFail`) in the source; the model takes both to succeed.
- `createGrdbStorage` is not modelled in detail. The directory choice, the `try!` that crashes when the database cannot be opened, and `setup()` are absent; the adapter is created over a given database.
- `logFileSizes` and `shouldLogDBQueries` logging are not modelled.
- The keychain read `fetchData()` is an input, not a call.
- KeySpec.Hex: the digit case of `hexadecimalString` is not part of this model. Lower-case digits are used, and SQLCipher's blob literal accepts either case.
- BusyRetry.BusyCallback: `millis * (retryCount + 1)` is computed on unbounded integers. Swift's `Int` overflow trap, which would need about 1.8·10^17 retries, is not modelled.
- SdsTypes.RecordTypeCode: the raw values of `SDSRecordType` are defined outside this model. The numbering used is an arbitrary injective one.
- StickerPackRecords.RecordFromRow: a missing column index or a value of the wrong kind is fatal in GRDB (the `row[i]` subscript traps); the model returns `None` instead of crashing.
- Keyed archiving (`requiredArchive`, `optionalArchive`, `SDSDeserialization.unarchive`) is not modelled. Archived properties are kept as bytes, and whether unarchiving succeeds is a predicate parameter.
- Full-text-search indexing is not modelled (`shouldBeIndexedForFTS`).
- The YapDatabase branches of the sticker-pack fetch and enumeration (`ydb_fetch`, `ydb_enumerateCollectionObjects`) are not modelled; the table model covers both backends through one key-to-row map.
- `anyRemoveAllWithoutInstantation`, `anyCount`, `anyExists`, `anyFetchAll` and `anyEnumerateUniqueIds` are not modelled. `grdbFetchCursor` and `grdbFetchOne` are modelled only for the queries the modelled operations issue (all rows, one row by unique id), not for arbitrary SQL.
- StickerPackStore.StickerPackTable: which stored rows fail to decode is kept as a set of ids rather than derived from stored records through `fromRecord`; a save always writes a row that decodes.
- `assert(uniqueId.count > 0)` debug assertions are not modelled: release builds ignore them, and so does the model.
- `sdsSave` and `sdsRemove` are defined outside these files. They are modelled as writing the row (which then decodes, and which an enabled object cache then holds) and as deleting the row and its cache entry. Their SQL, the insert-mode unique-id conflict and the row id a GRDB insert assigns are not modelled.
- AttachmentPointer.AnyUpdateAttachmentPointer: the generic `anyUpdate` it calls is taken at the value level. The stored copy is always a distinct value, so "the same instance" is modelled only for `StickerPack`.
- GroupThread.AnyUpdateGroupThread: value level, as for attachments.
- Most fields of `TSAttachmentStream` and `TSContactThread` are not modelled; only those that distinguish the kinds are kept. The raw values of `TSAttachmentType`, `TSAttachmentPointerType`, `TSAttachmentPointerState` and `ConversationColorName` are kept as numbers or strings.
