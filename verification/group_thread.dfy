/** The typed fetch and update helpers of `TSGroupThread` and its
    serializer. Group and contact threads share the threads table. */
module GroupThread {
  import opened Wrappers
  import opened SdsTypes

  /** `ConversationColorName`: a string-backed enumeration, known here by
      its raw value. */
  datatype ConversationColorName = ConversationColorName(rawValue: string)

  /** Properties `TSThread` declares for every thread kind. */
  datatype ThreadProperties = ThreadProperties(
    archivalDate: Option<Date>,
    archivedAsOfMessageSortId: Option<UInt64>,
    conversationColorName: ConversationColorName,
    creationDate: Option<Date>,
    isArchivedByLegacyTimestampForSorting: bool,
    lastMessageDate: Option<Date>,
    messageDraft: Option<string>,
    mutedUntilDate: Option<Date>,
    shouldThreadBeVisible: bool)

  /** A `TSGroupThread`; its group model is held in archived form. */
  datatype TSGroupThread = TSGroupThread(uniqueId: string, base: ThreadProperties, groupModel: Archive)

  /** A `TSContactThread`. */
  datatype TSContactThread = TSContactThread(
    uniqueId: string,
    base: ThreadProperties,
    contactPhoneNumber: Option<string>,
    contactUUID: Option<string>,
    contactThreadSchemaVersion: nat,
    hasDismissedOffers: bool)

  /** An object of the threads collection. */
  datatype TSThread =
    | GroupThread(group: TSGroupThread)
    | ContactThread(contact: TSContactThread)
  {
    function UniqueId(): string
    {
      match this
      case GroupThread(g) => g.uniqueId
      case ContactThread(c) => c.uniqueId
    }
  }

  /** `anyFetchGroupThread(uniqueId:transaction:)` over the threads the
      transaction sees: nil when no thread has the id, nil (a debug failure)
      when it is not a group thread, and otherwise that thread. */
  function AnyFetchGroupThread(threads: map<string, TSThread>, uniqueId: string): (r: Option<TSGroupThread>)
    ensures uniqueId !in threads ==> r.None?
    ensures uniqueId in threads && threads[uniqueId].ContactThread? ==> r.None?
    ensures r.Some? <==> uniqueId in threads && threads[uniqueId].GroupThread?
    ensures r.Some? ==> threads[uniqueId] == GroupThread(r.value)
  {
    if uniqueId !in threads then None
    else match threads[uniqueId]
      case GroupThread(g) => Some(g)
      case ContactThread(_) => None
  }

  /** The block `anyUpdateGroupThread` hands to the generic update: the
      caller's block on a group thread, nothing on any other kind. */
  function GuardedBlock(block: TSGroupThread -> TSGroupThread): (guarded: TSThread -> TSThread)
    ensures forall g :: guarded(GroupThread(g)) == GroupThread(block(g))
    ensures forall c :: guarded(ContactThread(c)) == ContactThread(c)
  {
    (thread: TSThread) => match thread
      case GroupThread(g) => GroupThread(block(g))
      case ContactThread(_) => thread
  }

  /** `anyUpdateGroupThread(transaction:block:)`: the generic update with
      the guarded block. The caller's block reaches only group threads; a
      stored thread of another kind is still saved, unchanged. */
  function AnyUpdateGroupThread(instance: TSGroupThread, threads: map<string, TSThread>,
                                block: TSGroupThread -> TSGroupThread): (r: UpdateOutcome<TSThread>)
    ensures r.instance == GroupThread(block(instance))
    ensures r.saved.Some? <==> instance.uniqueId in threads
    ensures r.saved.Some? ==>
              var stored := threads[instance.uniqueId];
              r.saved.value == if stored.GroupThread? then GroupThread(block(stored.group)) else stored
  {
    var dbCopy := if instance.uniqueId in threads then Some(threads[instance.uniqueId]) else None;
    UpdateWith(GroupThread(instance), dbCopy, GuardedBlock(block))
  }

  /** After the update is saved, fetching the group thread yields the
      caller's block applied to the stored group thread; a stored contact
      thread is left as it was. */
  lemma FetchAfterUpdate(instance: TSGroupThread, threads: map<string, TSThread>, block: TSGroupThread -> TSGroupThread)
    requires instance.uniqueId in threads
    ensures var id := instance.uniqueId;
            var r := AnyUpdateGroupThread(instance, threads, block);
            var after := threads[id := r.saved.value];
            && (threads[id].GroupThread? ==> AnyFetchGroupThread(after, id) == Some(block(threads[id].group)))
            && (threads[id].ContactThread? ==> AnyFetchGroupThread(after, id).None? && after == threads)
  {
  }

  /** `ThreadRecord`: a row of the threads table. */
  datatype ThreadRecord = ThreadRecord(
    id: Option<int>,
    recordType: SDSRecordType,
    uniqueId: string,
    archivalDate: Option<Date>,
    archivedAsOfMessageSortId: Option<UInt64>,
    conversationColorName: string,
    creationDate: Option<Date>,
    isArchivedByLegacyTimestampForSorting: bool,
    lastMessageDate: Option<Date>,
    messageDraft: Option<string>,
    mutedUntilDate: Option<Date>,
    shouldThreadBeVisible: bool,
    contactPhoneNumber: Option<string>,
    contactThreadSchemaVersion: Option<nat>,
    contactUUID: Option<string>,
    groupModel: Option<Archive>,
    hasDismissedOffers: Option<bool>)

  /** The columns only a contact thread fills. */
  predicate ContactColumnsEmpty(r: ThreadRecord)
  {
    r.contactPhoneNumber.None? && r.contactThreadSchemaVersion.None? && r.contactUUID.None? && r.hasDismissedOffers.None?
  }

  /** `TSGroupThreadSerializer.asRecord()` */
  function AsRecord(model: TSGroupThread): (r: ThreadRecord)
    ensures r.id.None? && r.recordType == GroupThreadType
    ensures ContactColumnsEmpty(r)
    ensures r.uniqueId == model.uniqueId && r.groupModel == Some(model.groupModel)
    ensures r.conversationColorName == model.base.conversationColorName.rawValue
    ensures r.archivalDate == model.base.archivalDate && r.creationDate == model.base.creationDate
    ensures r.lastMessageDate == model.base.lastMessageDate && r.mutedUntilDate == model.base.mutedUntilDate
    ensures r.messageDraft == model.base.messageDraft && r.shouldThreadBeVisible == model.base.shouldThreadBeVisible
    ensures r.archivedAsOfMessageSortId == model.base.archivedAsOfMessageSortId
    ensures r.isArchivedByLegacyTimestampForSorting == model.base.isArchivedByLegacyTimestampForSorting
  {
    var b := model.base;
    ThreadRecord(None, GroupThreadType, model.uniqueId,
      b.archivalDate, b.archivedAsOfMessageSortId, b.conversationColorName.rawValue, b.creationDate,
      b.isArchivedByLegacyTimestampForSorting, b.lastMessageDate, b.messageDraft, b.mutedUntilDate,
      b.shouldThreadBeVisible,
      None, None, None,
      Some(model.groupModel),
      None)
  }

  /** Reads a group thread back from a record: records of another type, or
      without a group model, are not group threads. */
  function GroupThreadFromRecord(r: ThreadRecord): Option<TSGroupThread>
  {
    if r.recordType != GroupThreadType || r.groupModel.None? then None
    else Some(TSGroupThread(r.uniqueId,
      ThreadProperties(r.archivalDate, r.archivedAsOfMessageSortId, ConversationColorName(r.conversationColorName),
                       r.creationDate, r.isArchivedByLegacyTimestampForSorting, r.lastMessageDate,
                       r.messageDraft, r.mutedUntilDate, r.shouldThreadBeVisible),
      r.groupModel.value))
  }

  /** The serializer loses nothing: a group thread can be read back from its
      record, so distinct group threads get distinct records. */
  lemma AsRecordRoundTrip(model: TSGroupThread)
    ensures GroupThreadFromRecord(AsRecord(model)) == Some(model)
  {
  }

  lemma AsRecordInjective(m1: TSGroupThread, m2: TSGroupThread)
    requires AsRecord(m1) == AsRecord(m2)
    ensures m1 == m2
  {
    AsRecordRoundTrip(m1);
    AsRecordRoundTrip(m2);
  }
}
