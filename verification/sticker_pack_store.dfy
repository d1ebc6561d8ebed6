/** The `StickerPack` table as a write transaction sees it, and the generated
    operations that read and change it: fetch by unique id, the
    "update with" pattern, upsert, reload, the cursor, enumeration and
    removal of every row. */
module StickerPackStore {
  import opened Wrappers
  import opened SdsTypes
  import opened StickerPackRecords

  /** A save issued through `sdsSave(saveMode:transaction:)`. */
  datatype SaveEvent = SaveEvent(uniqueId: string, mode: SaveMode, properties: StickerPackProperties)

  /** A `StickerPack` instance. Its unique id never changes; the block of
      an update and a reload change its properties in place. */
  class StickerPack {
    const uniqueId: string
    var properties: StickerPackProperties

    constructor (uniqueId: string, properties: StickerPackProperties)
      ensures this.uniqueId == uniqueId && this.properties == properties
    {
      this.uniqueId := uniqueId;
      this.properties := properties;
    }

    /** `anyUpsert(transaction:)`: saves in insert mode when the fetch by
        unique id comes back nil (no row, or a row that cannot be decoded),
        in update mode otherwise. */
    method AnyUpsert(table: StickerPackTable)
      requires table.Valid()
      modifies table
      ensures table.Valid()
      ensures table.rows == old(table.rows)[uniqueId := properties]
      ensures table.undecodable == old(table.undecodable) - {uniqueId}
      ensures table.saves == old(table.saves)
                + [SaveEvent(uniqueId, if old(table.Decodable(uniqueId)) then Update else Insert, properties)]
      ensures table.objectCache ==
                if table.objectCacheEnabled then old(table.objectCache)[uniqueId := this] else old(table.objectCache)
      ensures table.Decodable(uniqueId) && table.Latest(uniqueId) == properties
    {
      var existing, _ := table.Fetch(uniqueId);
      var isInserting := existing == null;
      table.Save(this, if isInserting then Insert else Update);
    }

    /** `anyUpdate(transaction:block:)`. The block always changes this
        instance. When the fetch by unique id comes back nil (no row, or a
        row that cannot be decoded) nothing is saved. Otherwise the latest
        copy gets the block, unless it is this very instance, which already
        has it, and is saved in update mode: the row ends up as the block
        applied exactly once to the latest version. */
    method AnyUpdate(table: StickerPackTable, block: StickerPackProperties -> StickerPackProperties)
      requires table.Valid()
      modifies this, table, if uniqueId in table.objectCache then {table.objectCache[uniqueId]} else {}
      ensures table.Valid()
      ensures properties == block(old(properties))
      ensures !old(table.Decodable(uniqueId)) ==>
                && table.rows == old(table.rows) && table.undecodable == old(table.undecodable)
                && table.saves == old(table.saves)
      ensures old(table.Decodable(uniqueId)) ==>
                var updated := block(old(table.Latest(uniqueId)));
                && table.rows == old(table.rows)[uniqueId := updated]
                && table.undecodable == old(table.undecodable)
                && table.saves == old(table.saves) + [SaveEvent(uniqueId, Update, updated)]
                && table.Decodable(uniqueId) && table.Latest(uniqueId) == updated
      ensures !old(table.Decodable(uniqueId)) ==> table.objectCache == old(table.objectCache)
      ensures forall k :: k != uniqueId && old(table.Decodable(k)) ==>
                table.Decodable(k) && table.Latest(k) == old(table.Latest(k))
    {
      properties := block(properties);
      var dbCopy, _ := table.Fetch(uniqueId);
      if dbCopy == null {
        return;
      }
      if dbCopy != this {
        dbCopy.properties := block(dbCopy.properties);
      }
      table.Save(dbCopy, Update);
    }

    /** `anyReload(transaction:ignoreMissing:)`: takes every property from
        the latest version of the row. When the fetch comes back nil (no
        row, or a row that cannot be decoded) the instance is left as it is,
        and that is a debug failure unless `ignoreMissing`. */
    method AnyReload(table: StickerPackTable, ignoreMissing: bool) returns (failedDebug: bool)
      requires table.Valid()
      modifies this, table`objectCache
      ensures table.Valid() && table.rows == old(table.rows) && table.undecodable == old(table.undecodable)
      ensures failedDebug <==> !table.Decodable(uniqueId) && !ignoreMissing
      ensures table.Decodable(uniqueId) ==> properties == old(table.Latest(uniqueId))
      ensures !table.Decodable(uniqueId) ==> properties == old(properties)
      ensures table.Decodable(uniqueId) ==> table.Latest(uniqueId) == old(table.Latest(uniqueId))
      ensures !table.Decodable(uniqueId) ==> table.objectCache == old(table.objectCache)
      ensures forall k :: k != uniqueId && old(table.Decodable(k)) ==>
                table.Decodable(k) && table.Latest(k) == old(table.Latest(k))
    {
      failedDebug := false;
      var latestVersion, _ := table.Fetch(uniqueId);
      if latestVersion == null {
        if !ignoreMissing {
          failedDebug := true;
        }
        return;
      }
      properties := latestVersion.properties;
    }
  }

  /** The rows of `model_StickerPack`, keyed by unique id, and the object
      cache of a YapDatabase connection, which hands out the same instance
      for repeated fetches of one key. A GRDB read has no object cache.
      `undecodable` holds the ids whose stored record `fromRecord` rejects
      (an archive that does not unarchive, see `StickerPackRecords.FromRecord`):
      their rows exist, but no instance can be built from them. */
  class StickerPackTable {
    var rows: map<string, StickerPackProperties>
    var undecodable: set<string>
    var saves: seq<SaveEvent>
    const objectCacheEnabled: bool
    var objectCache: map<string, StickerPack>

    ghost predicate Valid()
      reads this
    {
      && undecodable <= rows.Keys
      && (forall k :: k in objectCache ==> k in rows && k !in undecodable && objectCache[k].uniqueId == k)
      && (!objectCacheEnabled ==> objectCache == map[])
    }

    constructor (rows: map<string, StickerPackProperties>, undecodable: set<string>, objectCacheEnabled: bool)
      requires undecodable <= rows.Keys
      ensures Valid()
      ensures this.rows == rows && this.undecodable == undecodable
      ensures this.objectCacheEnabled == objectCacheEnabled
      ensures saves == [] && objectCache == map[]
    {
      this.rows := rows;
      this.undecodable := undecodable;
      this.objectCacheEnabled := objectCacheEnabled;
      saves := [];
      objectCache := map[];
    }

    /** A fetch by this unique id yields an instance. */
    predicate Decodable(uniqueId: string)
      reads this
    {
      uniqueId in rows && uniqueId !in undecodable
    }

    /** The latest version of a row as a fetch sees it: the cached instance
        when there is one, the stored properties otherwise. */
    ghost function Latest(uniqueId: string): StickerPackProperties
      requires Valid() && Decodable(uniqueId)
      reads this, objectCache.Values
    {
      if uniqueId in objectCache then objectCache[uniqueId].properties else rows[uniqueId]
    }

    /** `anyFetch(uniqueId:transaction:)`: nil when no row has the unique id,
        and nil with a debug failure when the row cannot be decoded
        (`grdbFetchOne`); the cached instance when there is one; otherwise a
        new instance built from the row, which an enabled cache then keeps. */
    method Fetch(uniqueId: string) returns (p: StickerPack?, failedDebug: bool)
      requires Valid()
      modifies this`objectCache
      ensures Valid()
      ensures (p == null) <==> !Decodable(uniqueId)
      ensures failedDebug <==> uniqueId in rows && uniqueId in undecodable
      ensures p != null ==> p.uniqueId == uniqueId
      ensures p != null && uniqueId in old(objectCache) ==>
                p == old(objectCache)[uniqueId] && objectCache == old(objectCache)
      ensures p != null && uniqueId !in old(objectCache) ==>
                && fresh(p) && p.properties == rows[uniqueId]
                && objectCache == if objectCacheEnabled then old(objectCache)[uniqueId := p] else old(objectCache)
      ensures p == null ==> objectCache == old(objectCache)
    {
      failedDebug := false;
      if uniqueId !in rows {
        return null, false;
      }
      if uniqueId in undecodable {
        return null, true;
      }
      if uniqueId in objectCache {
        return objectCache[uniqueId], false;
      }
      p := new StickerPack(uniqueId, rows[uniqueId]);
      if objectCacheEnabled {
        objectCache := objectCache[uniqueId := p];
      }
    }

    /** `sdsSave(saveMode:transaction:)`: writes the instance's properties
        to its row, which then decodes; an enabled object cache now holds
        this instance for the key. */
    method Save(p: StickerPack, mode: SaveMode)
      requires Valid()
      modifies this`rows, this`undecodable, this`saves, this`objectCache
      ensures Valid()
      ensures rows == old(rows)[p.uniqueId := p.properties]
      ensures undecodable == old(undecodable) - {p.uniqueId}
      ensures saves == old(saves) + [SaveEvent(p.uniqueId, mode, p.properties)]
      ensures objectCache == if objectCacheEnabled then old(objectCache)[p.uniqueId := p] else old(objectCache)
    {
      rows := rows[p.uniqueId := p.properties];
      undecodable := undecodable - {p.uniqueId};
      saves := saves + [SaveEvent(p.uniqueId, mode, p.properties)];
      if objectCacheEnabled {
        objectCache := objectCache[p.uniqueId := p];
      }
    }

    /** `anyRemove(transaction:)`: deletes the instance's row; the cache
        forgets the key. */
    method Remove(p: StickerPack)
      requires Valid()
      modifies this`rows, this`undecodable, this`objectCache
      ensures Valid()
      ensures rows == old(rows) - {p.uniqueId}
      ensures undecodable == old(undecodable) - {p.uniqueId}
      ensures objectCache == old(objectCache) - {p.uniqueId}
    {
      rows := rows - {p.uniqueId};
      undecodable := undecodable - {p.uniqueId};
      objectCache := objectCache - {p.uniqueId};
    }

    /** `anyAllUniqueIds(transaction:)`: every unique id in the table, each
        once, in no particular order. */
    method AllUniqueIds() returns (ids: seq<string>)
      ensures NoDuplicates(ids)
      ensures forall k :: k in ids <==> k in rows
    {
      ids := [];
      var remaining := rows.Keys;
      while remaining != {}
        invariant NoDuplicates(ids)
        invariant forall k :: k in rows <==> k in remaining || k in ids
        invariant forall k :: k in remaining ==> k !in ids
        decreases remaining
      {
        var id :| id in remaining;
        ids := ids + [id];
        remaining := remaining - {id};
      }
    }
  }

  /** An upsert followed by an update of the same instance: on either
      backend the row ends up as the block applied once to the upserted
      properties, and the instance agrees with it. */
  method UpsertThenUpdate(pack: StickerPack, table: StickerPackTable,
                          block: StickerPackProperties -> StickerPackProperties)
    requires table.Valid()
    modifies pack, table
    ensures table.Valid()
    ensures table.rows == old(table.rows)[pack.uniqueId := block(old(pack.properties))]
    ensures pack.properties == block(old(pack.properties))
    ensures |table.saves| == |old(table.saves)| + 2
  {
    pack.AnyUpsert(table);
    pack.AnyUpdate(table, block);
  }

  predicate NoDuplicates(s: seq<string>)
  {
    forall i, j :: 0 <= i < j < |s| ==> s[i] != s[j]
  }

  /** `anyRemoveAllWithInstantation(transaction:)`: takes a snapshot of the
      unique ids, then fetches and removes each one. An id whose row cannot
      be decoded fetches nil: it is reported once as a "missing instance"
      debug failure and its row stays. Every other row is removed. */
  method AnyRemoveAllWithInstantation(table: StickerPackTable) returns (missing: seq<string>)
    requires table.Valid()
    modifies table
    ensures table.Valid()
    ensures table.rows.Keys == old(table.undecodable)
    ensures forall k :: k in table.rows ==> table.rows[k] == old(table.rows)[k]
    ensures table.undecodable == old(table.undecodable)
    ensures table.objectCache == map[]
    ensures table.saves == old(table.saves)
    ensures NoDuplicates(missing)
    ensures forall k :: k in missing <==> k in old(table.undecodable)
  {
    var uniqueIds := table.AllUniqueIds();
    assert table.rows.Keys == Elements(uniqueIds);
    missing := [];
    var i := 0;
    while i < |uniqueIds|
      invariant 0 <= i <= |uniqueIds|
      invariant table.Valid()
      invariant NoDuplicates(uniqueIds)
      invariant table.undecodable == old(table.undecodable)
      invariant table.rows.Keys == Elements(uniqueIds[i..]) + table.undecodable
      invariant forall k :: k in table.rows ==> table.rows[k] == old(table.rows)[k]
      invariant table.saves == old(table.saves)
      invariant NoDuplicates(missing)
      invariant forall k :: k in missing <==> k in table.undecodable && k !in Elements(uniqueIds[i..])
    {
      RemovingFirstLeavesRest(uniqueIds[i..]);
      assert uniqueIds[i..][1..] == uniqueIds[i + 1..];
      var reported := FetchAndRemove(table, uniqueIds[i]);
      if reported {
        AppendingAbsentKeepsNoDuplicates(missing, uniqueIds[i]);
        missing := missing + [uniqueIds[i]];
      }
      i := i + 1;
    }
    assert uniqueIds[i..] == [];
  }

  /** One turn of the removal loop: fetch the instance for an id of the
      snapshot and remove it; a nil fetch is the "missing instance" debug
      failure and removes nothing. */
  method FetchAndRemove(table: StickerPackTable, uniqueId: string) returns (missingInstance: bool)
    requires table.Valid() && uniqueId in table.rows
    modifies table
    ensures table.Valid()
    ensures missingInstance <==> uniqueId in old(table.undecodable)
    ensures table.rows == if missingInstance then old(table.rows) else old(table.rows) - {uniqueId}
    ensures table.objectCache == old(table.objectCache) - {uniqueId}
    ensures table.undecodable == old(table.undecodable)
    ensures table.saves == old(table.saves)
  {
    var instance, _ := table.Fetch(uniqueId);
    if instance == null {
      missingInstance := true;
    } else {
      table.Remove(instance);
      missingInstance := false;
    }
  }

  lemma AppendingAbsentKeepsNoDuplicates(s: seq<string>, k: string)
    requires NoDuplicates(s) && k !in s
    ensures NoDuplicates(s + [k])
  {
  }

  function Elements(s: seq<string>): set<string>
  {
    set k | k in s
  }

  /** Without duplicates, taking the first id off a snapshot leaves
      exactly the ids of the rest. */
  lemma RemovingFirstLeavesRest(s: seq<string>)
    requires NoDuplicates(s) && |s| > 0
    ensures s[0] in Elements(s)
    ensures Elements(s) - {s[0]} == Elements(s[1..])
    ensures NoDuplicates(s[1..])
  {
    forall k | k in s[1..]
      ensures k != s[0]
    {
      var j :| 0 <= j < |s[1..]| && s[1..][j] == k;
      assert s[j + 1] == k;
    }
  }

  /** The records a cursor yields: none for the nil cursor that a failed
      `fetchCursor` leaves behind. */
  function CursorRecords(cursor: Option<seq<StickerPackRecord>>): seq<StickerPackRecord>
  {
    if cursor.Some? then cursor.value else []
  }

  /** `StickerPackCursor.all()`: every model from the cursor in order until
      it is exhausted, or the error of the first record `fromRecord`
      rejects. */
  method CursorAll(cursor: Option<seq<StickerPackRecord>>, unarchives: Archive -> bool)
    returns (r: Result<seq<StickerPackModel>, SDSError>)
    ensures cursor.None? ==> r == Success([])
    ensures var records := CursorRecords(cursor);
            r.Success? <==> forall i :: 0 <= i < |records| ==> FromRecord(records[i], unarchives).Success?
    ensures var records := CursorRecords(cursor);
            r.Success? ==>
              |r.value| == |records|
              && forall i :: 0 <= i < |records| ==> FromRecord(records[i], unarchives) == Success(r.value[i])
    ensures var records := CursorRecords(cursor);
            r.Failure? ==>
              exists k :: 0 <= k < |records| && FromRecord(records[k], unarchives) == Failure(r.error)
                          && forall i :: 0 <= i < k ==> FromRecord(records[i], unarchives).Success?
  {
    var records := CursorRecords(cursor);
    var result: seq<StickerPackModel> := [];
    var position := 0;
    while position < |records|
      invariant 0 <= position <= |records| && |result| == position
      invariant forall i :: 0 <= i < position ==> FromRecord(records[i], unarchives) == Success(result[i])
    {
      var next := FromRecord(records[position], unarchives);
      if next.Failure? {
        return Failure(next.error);
      }
      result := result + [next.value];
      position := position + 1;
    }
    r := Success(result);
  }

  /** The GRDB branch of `anyEnumerate(transaction:block:)`. `stop` is the
      value the visitor leaves in its stop flag, given the models it has
      seen so far. Models are visited in cursor order; the traversal ends
      right after the visit that sets the flag, at the end of the cursor,
      or at a record that cannot be decoded, which is a debug failure. */
  method AnyEnumerate(cursor: Option<seq<StickerPackRecord>>, unarchives: Archive -> bool,
                      stop: seq<StickerPackModel> -> bool)
    returns (visited: seq<StickerPackModel>, failedDebug: bool)
    ensures var records := CursorRecords(cursor);
            && |visited| <= |records|
            && (forall i :: 0 <= i < |visited| ==> FromRecord(records[i], unarchives) == Success(visited[i]))
    ensures forall j :: 0 < j < |visited| ==> !stop(visited[..j])
    ensures var records := CursorRecords(cursor);
            failedDebug <==>
              |visited| < |records| && FromRecord(records[|visited|], unarchives).Failure?
              && (|visited| == 0 || !stop(visited))
    ensures |visited| < |CursorRecords(cursor)| ==> failedDebug || (|visited| > 0 && stop(visited))
  {
    var records := CursorRecords(cursor);
    visited := [];
    failedDebug := false;
    var position := 0;
    while position < |records|
      invariant 0 <= position <= |records| && |visited| == position
      invariant forall i :: 0 <= i < position ==> FromRecord(records[i], unarchives) == Success(visited[i])
      invariant forall j :: 0 < j <= position ==> !stop(visited[..j])
    {
      var next := FromRecord(records[position], unarchives);
      if next.Failure? {
        assert position > 0 ==> visited[..position] == visited;
        failedDebug := true;
        return;
      }
      var before := visited;
      visited := visited + [next.value];
      position := position + 1;
      assert forall j :: 0 < j < position ==> visited[..j] == before[..j];
      assert visited[..position] == visited;
      if stop(visited) {
        return;
      }
    }
  }
}
