/** Value types shared by the generated table-access layer. */
module SdsTypes {
  import opened Wrappers

  newtype Byte = x: int | 0 <= x < 256

  /** `Data` */
  type Bytes = seq<Byte>

  /** The keyed-archive form of a property the generated code stores through
      `requiredArchive` / `optionalArchive`; the archiver itself is foreign. */
  type Archive = seq<Byte>

  newtype UInt32 = x: int | 0 <= x < 0x1_0000_0000
  newtype UInt64 = x: int | 0 <= x < 0x1_0000_0000_0000_0000

  /** `Date`, as a count of seconds. */
  type Date = int

  /** `SDSRecordType`: the discriminator stored in every record's
      `recordType` column. Only the cases this model uses are named. */
  datatype SDSRecordType =
    | StickerPackType
    | AttachmentPointerType
    | AttachmentStreamType
    | GroupThreadType
    | ContactThreadType

  /** The numbering of `SDSRecordType` in its database column. The source's raw
      values are not part of this model; any injective numbering serves. */
  function RecordTypeCode(t: SDSRecordType): (code: int)
    ensures 0 <= code < 5
  {
    match t
    case StickerPackType => 0
    case AttachmentPointerType => 1
    case AttachmentStreamType => 2
    case GroupThreadType => 3
    case ContactThreadType => 4
  }

  function RecordTypeFromCode(code: int): (t: Option<SDSRecordType>)
    ensures t.Some? <==> 0 <= code < 5
    ensures t.Some? ==> RecordTypeCode(t.value) == code
    ensures forall r :: RecordTypeCode(r) == code ==> t == Some(r)
  {
    if code == 0 then Some(StickerPackType)
    else if code == 1 then Some(AttachmentPointerType)
    else if code == 2 then Some(AttachmentStreamType)
    else if code == 3 then Some(GroupThreadType)
    else if code == 4 then Some(ContactThreadType)
    else None
  }

  /** `SDSSaveMode` */
  datatype SaveMode = Insert | Update

  /** `SDSError` */
  datatype SDSError =
    | InvalidValue
    | UnarchiveFailed(name: string)  // `SDSDeserialization.unarchive` threw

  /** What the "update with" pattern of the generic `anyUpdate(transaction:block:)`
      leaves behind: the caller's instance and the copy saved in update mode,
      if any. */
  datatype UpdateOutcome<T> = UpdateOutcome(instance: T, saved: Option<T>)

  /** The "update with" pattern on values, where the copy fetched from the
      database is always distinct from the caller's instance: the block
      changes the instance; the fetched copy, when there is one, gets the
      block and is saved. */
  function UpdateWith<T>(instance: T, dbCopy: Option<T>, block: T -> T): UpdateOutcome<T>
  {
    UpdateOutcome(block(instance), if dbCopy.Some? then Some(block(dbCopy.value)) else None)
  }
}
