/** The generated mapping between `StickerPack` and its table
    `model_StickerPack`: column names, the table metadata, row decoding,
    `fromRecord` and the serializer's `asRecord`. */
module StickerPackRecords {
  import opened Wrappers
  import opened SdsTypes

  const TableName: string := "model_StickerPack"

  /** `StickerPackRecord.CodingKeys`, in declaration order. */
  datatype Column = Id | RecordType | UniqueId | Author | Cover | DateCreated | Info | IsInstalled | Items | Title

  /** `CodingKeys.allCases`: the order of the columns in every selected row. */
  const AllColumns: seq<Column> := [Id, RecordType, UniqueId, Author, Cover, DateCreated, Info, IsInstalled, Items, Title]

  /** `column.rawValue`: the case name. */
  function RawValue(c: Column): string
  {
    match c
    case Id => "id"
    case RecordType => "recordType"
    case UniqueId => "uniqueId"
    case Author => "author"
    case Cover => "cover"
    case DateCreated => "dateCreated"
    case Info => "info"
    case IsInstalled => "isInstalled"
    case Items => "items"
    case Title => "title"
  }

  /** `StickerPackRecord.columnName(_:fullyQualified:)` */
  function ColumnName(c: Column, fullyQualified: bool): (name: string)
    ensures fullyQualified ==> && |name| > |TableName| + 1
                               && name[..|TableName| + 1] == TableName + "."
                               && name[|TableName| + 1..] == RawValue(c)
    ensures !fullyQualified ==> name == RawValue(c) && '.' !in name
  {
    if fullyQualified then TableName + "." + RawValue(c) else RawValue(c)
  }

  /** A qualified name is the table name, a dot and the bare name; a bare name
      has no dot. So a column name determines both the column and whether it
      was qualified. */
  lemma ColumnNameDeterminesColumn(c1: Column, q1: bool, c2: Column, q2: bool)
    requires ColumnName(c1, q1) == ColumnName(c2, q2)
    ensures c1 == c2 && q1 == q2
  {
    if q1 && q2 {
      assert ColumnName(c1, q1)[|TableName| + 1..] == RawValue(c1);
      assert ColumnName(c2, q2)[|TableName| + 1..] == RawValue(c2);
    }
  }

  /** `SDSColumnMetadata.ColumnType` */
  datatype ColumnType = PrimaryKey | Int64 | UnicodeString | Blob | Int

  /** `SDSColumnMetadata` */
  datatype ColumnMetadata = ColumnMetadata(columnName: string, columnType: ColumnType, isOptional: bool, columnIndex: nat)

  /** `StickerPackSerializer.table.columns` */
  const TableColumns: seq<ColumnMetadata> := [
    ColumnMetadata("id", PrimaryKey, false, 0),
    ColumnMetadata("recordType", Int64, false, 1),
    ColumnMetadata("uniqueId", UnicodeString, false, 2),
    ColumnMetadata("author", UnicodeString, true, 3),
    ColumnMetadata("cover", Blob, false, 4),
    ColumnMetadata("dateCreated", Int64, false, 5),
    ColumnMetadata("info", Blob, false, 6),
    ColumnMetadata("isInstalled", Int, false, 7),
    ColumnMetadata("items", Blob, false, 8),
    ColumnMetadata("title", UnicodeString, true, 9)
  ]

  /** `StickerPackRecord`: one row of the table. */
  datatype StickerPackRecord = StickerPackRecord(
    id: Option<int>,
    recordType: SDSRecordType,
    uniqueId: string,
    author: Option<string>,
    cover: Archive,
    dateCreated: Date,
    info: Archive,
    isInstalled: bool,
    items: Archive,
    title: Option<string>)

  /** A value in a column of a fetched row. */
  datatype DatabaseValue = Null | Integer(i: int) | Text(s: string) | BlobValue(bytes: Bytes)

  /** A row as selected by `databaseSelection` (`CodingKeys.allCases`). */
  type Row = seq<DatabaseValue>

  /** The column a record field is persisted in, as GRDB encodes the record
      through its `CodingKeys`. */
  function ValueOf(r: StickerPackRecord, c: Column): DatabaseValue
  {
    match c
    case Id => if r.id.Some? then Integer(r.id.value) else Null
    case RecordType => Integer(RecordTypeCode(r.recordType))
    case UniqueId => Text(r.uniqueId)
    case Author => if r.author.Some? then Text(r.author.value) else Null
    case Cover => BlobValue(r.cover)
    case DateCreated => Integer(r.dateCreated)
    case Info => BlobValue(r.info)
    case IsInstalled => Integer(if r.isInstalled then 1 else 0)
    case Items => BlobValue(r.items)
    case Title => if r.title.Some? then Text(r.title.value) else Null
  }

  /** The row the database holds for a record: column i holds `AllColumns[i]`. */
  function RowOf(r: StickerPackRecord): (row: Row)
    ensures |row| == |AllColumns|
    ensures forall i :: 0 <= i < |AllColumns| ==> row[i] == ValueOf(r, AllColumns[i])
  {
    seq(|AllColumns|, i requires 0 <= i < |AllColumns| => ValueOf(r, AllColumns[i]))
  }

  // Conversions `row[i]` performs; a value of the wrong kind is fatal in GRDB
  // and is `None` here.

  function OptionalInteger(v: DatabaseValue): Option<Option<int>> {
    match v
    case Null => Some(None)
    case Integer(i) => Some(Some(i))
    case _ => None
  }

  function RequiredInteger(v: DatabaseValue): Option<int> {
    if v.Integer? then Some(v.i) else None
  }

  function RequiredBool(v: DatabaseValue): Option<bool> {
    if v.Integer? then Some(v.i != 0) else None
  }

  function RequiredText(v: DatabaseValue): Option<string> {
    if v.Text? then Some(v.s) else None
  }

  function OptionalText(v: DatabaseValue): Option<Option<string>> {
    match v
    case Null => Some(None)
    case Text(s) => Some(Some(s))
    case _ => None
  }

  function RequiredBlob(v: DatabaseValue): Option<Bytes> {
    if v.BlobValue? then Some(v.bytes) else None
  }

  function RequiredRecordType(v: DatabaseValue): Option<SDSRecordType> {
    if v.Integer? then RecordTypeFromCode(v.i) else None
  }

  /** `StickerPackRecord.init(row:)`: reads row indices 0 to 9 in `CodingKeys`
      order. A row that is too short or holds a value of the wrong kind is
      `None` (fatal in GRDB). */
  function RecordFromRow(row: Row): (r: Option<StickerPackRecord>)
    ensures |row| < |AllColumns| ==> r.None?
    ensures r.Some? ==> forall i :: 0 <= i < |AllColumns| && AllColumns[i] != IsInstalled ==>
                          row[i] == ValueOf(r.value, AllColumns[i])
    ensures r.Some? ==> row[7].Integer? && (r.value.isInstalled <==> row[7].i != 0)
  {
    if |row| < 10 then None
    else
      match (OptionalInteger(row[0]), RequiredRecordType(row[1]), RequiredText(row[2]), OptionalText(row[3]),
             RequiredBlob(row[4]), RequiredInteger(row[5]), RequiredBlob(row[6]), RequiredBool(row[7]),
             RequiredBlob(row[8]), OptionalText(row[9]))
      case (Some(id), Some(recordType), Some(uniqueId), Some(author),
            Some(cover), Some(dateCreated), Some(info), Some(isInstalled),
            Some(items), Some(title)) =>
        Some(StickerPackRecord(id, recordType, uniqueId, author, cover, dateCreated, info, isInstalled, items, title))
      case _ => None
  }

  /** The row reader, the `CodingKeys` order and the table metadata agree:
      metadata column i is named after the i-th coding key and has index i,
      and decoding the row a record is stored as gives that record back. */
  lemma RowLayoutMatchesMetadata(r: StickerPackRecord)
    ensures |TableColumns| == |AllColumns|
    ensures forall i :: 0 <= i < |TableColumns| ==>
              TableColumns[i].columnIndex == i && TableColumns[i].columnName == RawValue(AllColumns[i])
    ensures RecordFromRow(RowOf(r)) == Some(r)
  {
    var row := RowOf(r);
    assert RequiredRecordType(row[1]) == Some(r.recordType);
  }

  // ---------------------------------------------------------------------
  // Model <-> record
  // ---------------------------------------------------------------------

  /** The persisted properties of a `StickerPack` besides its unique id. The
      cover, the info and the items are held in archived form. */
  datatype StickerPackProperties = StickerPackProperties(
    author: Option<string>,
    cover: Archive,
    dateCreated: Date,
    info: Archive,
    isInstalled: bool,
    items: Archive,
    title: Option<string>)

  datatype StickerPackModel = StickerPackModel(uniqueId: string, properties: StickerPackProperties)

  /** `StickerPack.fromRecord(_:)`. `unarchives` says whether
      `SDSDeserialization.unarchive` succeeds on an archived column. */
  function FromRecord(record: StickerPackRecord, unarchives: Archive -> bool): (r: Result<StickerPackModel, SDSError>)
    ensures record.id.None? ==> r == Failure(InvalidValue)
    ensures record.id.Some? && record.recordType != StickerPackType ==> r == Failure(InvalidValue)
    ensures r.Success? <==>
              record.id.Some? && record.recordType == StickerPackType
              && unarchives(record.cover) && unarchives(record.info) && unarchives(record.items)
    ensures r.Success? ==>
              && r.value.uniqueId == record.uniqueId
              && r.value.properties.author == record.author
              && r.value.properties.dateCreated == record.dateCreated
              && r.value.properties.isInstalled == record.isInstalled
              && r.value.properties.title == record.title
  {
    if record.id.None? then Failure(InvalidValue)
    else if record.recordType != StickerPackType then Failure(InvalidValue)
    else if !unarchives(record.cover) then Failure(UnarchiveFailed("cover"))
    else if !unarchives(record.info) then Failure(UnarchiveFailed("info"))
    else if !unarchives(record.items) then Failure(UnarchiveFailed("items"))
    else Success(StickerPackModel(record.uniqueId,
      StickerPackProperties(record.author, record.cover, record.dateCreated, record.info,
                            record.isInstalled, record.items, record.title)))
  }

  /** `StickerPackSerializer.asRecord()`: no row id yet, the sticker-pack
      record type, every field copied from the model. */
  function AsRecord(m: StickerPackModel): (r: StickerPackRecord)
    ensures r.id.None? && r.recordType == StickerPackType
    ensures r.uniqueId == m.uniqueId
    ensures r.author == m.properties.author && r.dateCreated == m.properties.dateCreated
    ensures r.isInstalled == m.properties.isInstalled && r.title == m.properties.title
  {
    var p := m.properties;
    StickerPackRecord(None, StickerPackType, m.uniqueId, p.author, p.cover, p.dateCreated, p.info,
                      p.isInstalled, p.items, p.title)
  }

  /** A record straight from `asRecord` cannot be read back (it has no row
      id); once the insert has given it an id, `fromRecord` returns the model
      it was made from, whenever its archives can be unarchived. */
  lemma AsRecordThenFromRecord(m: StickerPackModel, rowId: int, unarchives: Archive -> bool)
    ensures FromRecord(AsRecord(m), unarchives) == Failure(InvalidValue)
    ensures var p := m.properties;
            unarchives(p.cover) && unarchives(p.info) && unarchives(p.items) ==>
              FromRecord(AsRecord(m).(id := Some(rowId)), unarchives) == Success(m)
  {
  }

  /** Storing the record of a model as a row and reading it back through
      `init(row:)` and `fromRecord` restores the model. */
  lemma StoredModelReadsBack(m: StickerPackModel, rowId: int, unarchives: Archive -> bool)
    requires unarchives(m.properties.cover) && unarchives(m.properties.info) && unarchives(m.properties.items)
    ensures var record := AsRecord(m).(id := Some(rowId));
            RecordFromRow(RowOf(record)) == Some(record)
            && FromRecord(record, unarchives) == Success(m)
  {
    RowLayoutMatchesMetadata(AsRecord(m).(id := Some(rowId)));
  }
}
