/** The typed fetch and update helpers of `TSAttachmentPointer` and its
    serializer. An attachment is either a pointer (not yet downloaded) or a
    stream; the two share one table. */
module AttachmentPointer {
  import opened Wrappers
  import opened SdsTypes

  /** Properties `TSAttachment` declares for every attachment kind. */
  datatype AttachmentProperties = AttachmentProperties(
    albumMessageId: Option<string>,
    attachmentType: nat,            // `TSAttachmentType` raw value
    blurHash: Option<string>,
    byteCount: UInt32,
    caption: Option<string>,
    contentType: string,
    encryptionKey: Option<Bytes>,
    serverId: UInt64,
    sourceFilename: Option<string>)

  /** A `TSAttachmentPointer`. `mediaSize` is held in archived form. */
  datatype TSAttachmentPointer = TSAttachmentPointer(
    grdbId: Option<int>,
    uniqueId: string,
    base: AttachmentProperties,
    digest: Option<Bytes>,
    lazyRestoreFragmentId: Option<string>,
    mediaSize: Archive,
    pointerType: nat,               // `TSAttachmentPointerType` raw value
    state: nat)                     // `TSAttachmentPointerState` raw value

  /** A `TSAttachmentStream`, reduced to what distinguishes it here. */
  datatype TSAttachmentStream = TSAttachmentStream(
    grdbId: Option<int>,
    uniqueId: string,
    base: AttachmentProperties,
    isUploaded: bool,
    localRelativeFilePath: Option<string>)

  /** An object of the attachments collection. */
  datatype TSAttachment =
    | Pointer(pointer: TSAttachmentPointer)
    | Stream(stream: TSAttachmentStream)
  {
    function UniqueId(): string
    {
      match this
      case Pointer(p) => p.uniqueId
      case Stream(s) => s.uniqueId
    }
  }

  /** `anyFetchAttachmentPointer(uniqueId:transaction:)` over the
      attachments the transaction sees: nil when no attachment has the id,
      nil (a debug failure) when it is not a pointer, and otherwise that
      very pointer. */
  function AnyFetchAttachmentPointer(objects: map<string, TSAttachment>, uniqueId: string): (r: Option<TSAttachmentPointer>)
    ensures uniqueId !in objects ==> r.None?
    ensures uniqueId in objects && objects[uniqueId].Stream? ==> r.None?
    ensures r.Some? <==> uniqueId in objects && objects[uniqueId].Pointer?
    ensures r.Some? ==> objects[uniqueId] == Pointer(r.value)
  {
    if uniqueId !in objects then None
    else match objects[uniqueId]
      case Pointer(p) => Some(p)
      case Stream(_) => None
  }

  /** The block `anyUpdateAttachmentPointer` hands to the generic update:
      the caller's block on a pointer, nothing on any other kind. */
  function GuardedBlock(block: TSAttachmentPointer -> TSAttachmentPointer): (guarded: TSAttachment -> TSAttachment)
    ensures forall p :: guarded(Pointer(p)) == Pointer(block(p))
    ensures forall s :: guarded(Stream(s)) == Stream(s)
  {
    (attachment: TSAttachment) => match attachment
      case Pointer(p) => Pointer(block(p))
      case Stream(_) => attachment
  }

  /** `anyUpdateAttachmentPointer(transaction:block:)`: the generic update
      with the guarded block. The caller's block reaches only pointers; a
      stored copy of another kind is still saved, unchanged. */
  function AnyUpdateAttachmentPointer(instance: TSAttachmentPointer, objects: map<string, TSAttachment>,
                                      block: TSAttachmentPointer -> TSAttachmentPointer): (r: UpdateOutcome<TSAttachment>)
    ensures r.instance == Pointer(block(instance))
    ensures r.saved.Some? <==> instance.uniqueId in objects
    ensures r.saved.Some? ==>
              var stored := objects[instance.uniqueId];
              r.saved.value == if stored.Pointer? then Pointer(block(stored.pointer)) else stored
  {
    var dbCopy := if instance.uniqueId in objects then Some(objects[instance.uniqueId]) else None;
    UpdateWith(Pointer(instance), dbCopy, GuardedBlock(block))
  }

  /** After the update is saved, fetching the pointer yields the caller's
      block applied to the stored pointer; a stored stream stays a stream and
      is still not returned. */
  lemma FetchAfterUpdate(instance: TSAttachmentPointer, objects: map<string, TSAttachment>,
                         block: TSAttachmentPointer -> TSAttachmentPointer)
    requires instance.uniqueId in objects
    ensures var id := instance.uniqueId;
            var r := AnyUpdateAttachmentPointer(instance, objects, block);
            var after := objects[id := r.saved.value];
            && (objects[id].Pointer? ==> AnyFetchAttachmentPointer(after, id) == Some(block(objects[id].pointer)))
            && (objects[id].Stream? ==> AnyFetchAttachmentPointer(after, id).None? && after == objects)
  {
  }

  /** `AttachmentRecord`: a row of the attachments table. */
  datatype AttachmentRecord = AttachmentRecord(
    id: Option<int>,
    recordType: SDSRecordType,
    uniqueId: string,
    albumMessageId: Option<string>,
    attachmentType: nat,
    blurHash: Option<string>,
    byteCount: UInt32,
    caption: Option<string>,
    contentType: string,
    encryptionKey: Option<Bytes>,
    serverId: UInt64,
    sourceFilename: Option<string>,
    cachedAudioDurationSeconds: Option<real>,
    cachedImageHeight: Option<real>,
    cachedImageWidth: Option<real>,
    creationTimestamp: Option<real>,
    digest: Option<Bytes>,
    isUploaded: Option<bool>,
    isValidImageCached: Option<bool>,
    isValidVideoCached: Option<bool>,
    lazyRestoreFragmentId: Option<string>,
    localRelativeFilePath: Option<string>,
    mediaSize: Option<Archive>,
    pointerType: Option<nat>,
    state: Option<nat>)

  /** The columns only a stream fills. */
  predicate StreamColumnsEmpty(r: AttachmentRecord)
  {
    && r.cachedAudioDurationSeconds.None? && r.cachedImageHeight.None? && r.cachedImageWidth.None?
    && r.creationTimestamp.None? && r.isUploaded.None? && r.isValidImageCached.None?
    && r.isValidVideoCached.None? && r.localRelativeFilePath.None?
  }

  /** `TSAttachmentPointerSerializer.asRecord()` */
  function AsRecord(model: TSAttachmentPointer): (r: AttachmentRecord)
    ensures r.recordType == AttachmentPointerType && r.id == model.grdbId
    ensures StreamColumnsEmpty(r)
    ensures r.uniqueId == model.uniqueId && r.digest == model.digest
    ensures r.albumMessageId == model.base.albumMessageId && r.byteCount == model.base.byteCount
    ensures r.contentType == model.base.contentType && r.serverId == model.base.serverId
    ensures r.pointerType == Some(model.pointerType) && r.state == Some(model.state)
    ensures r.mediaSize == Some(model.mediaSize)
  {
    var b := model.base;
    AttachmentRecord(model.grdbId, AttachmentPointerType, model.uniqueId,
      b.albumMessageId, b.attachmentType, b.blurHash, b.byteCount, b.caption, b.contentType,
      b.encryptionKey, b.serverId, b.sourceFilename,
      None, None, None, None,
      model.digest,
      None, None, None,
      model.lazyRestoreFragmentId,
      None,
      Some(model.mediaSize), Some(model.pointerType), Some(model.state))
  }

  /** Reads a pointer back from a record: the inverse the serializer's
      output must admit. Records of another type, or lacking a pointer
      column, are not pointers. */
  function PointerFromRecord(r: AttachmentRecord): Option<TSAttachmentPointer>
  {
    if r.recordType != AttachmentPointerType || r.mediaSize.None? || r.pointerType.None? || r.state.None? then None
    else Some(TSAttachmentPointer(r.id, r.uniqueId,
      AttachmentProperties(r.albumMessageId, r.attachmentType, r.blurHash, r.byteCount, r.caption,
                           r.contentType, r.encryptionKey, r.serverId, r.sourceFilename),
      r.digest, r.lazyRestoreFragmentId, r.mediaSize.value, r.pointerType.value, r.state.value))
  }

  /** The serializer loses nothing: every field of a pointer can be read
      back from its record, so distinct pointers get distinct records. */
  lemma AsRecordRoundTrip(model: TSAttachmentPointer)
    ensures PointerFromRecord(AsRecord(model)) == Some(model)
  {
  }

  lemma AsRecordInjective(m1: TSAttachmentPointer, m2: TSAttachmentPointer)
    requires AsRecord(m1) == AsRecord(m2)
    ensures m1 == m2
  {
    AsRecordRoundTrip(m1);
    AsRecordRoundTrip(m2);
  }
}
