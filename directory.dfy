/** The directory projection of a room: the row written to the external room
    directory after a change (updateDynamoTable), and the key under which
    cleanup deletes it. The directory is keyed by (RoomId, Private). */
module Directory {
  import opened RoomData

  /** A directory row. Optional attributes are absent from some row shapes. */
  datatype DirectoryRow = DirectoryRow(
    roomId: string,
    roomName: string,
    currentCount: nat,
    maxPlayers: int,
    hostId: Uuid,
    privateFlag: nat,
    joinKey: Option<string>,
    statusCode: nat,
    players: Option<seq<Uuid>>)

  /** The composite key of a row. */
  datatype DeleteKey = DeleteKey(roomId: string, privateFlag: nat)

  /** A request sent to the directory. */
  datatype DirectoryOp = Put(row: DirectoryRow) | Delete(key: DeleteKey)

  /** `ids` lists the keys of a roster: each exactly once, and nothing else. */
  ghost predicate ListsKeys(ids: seq<Uuid>, keys: set<Uuid>) {
    && |ids| == |keys|
    && (forall i | 0 <= i < |ids| :: ids[i] in keys)
    && (forall i, j | 0 <= i < j < |ids| :: ids[i] != ids[j])
    && (forall k | k in keys :: k in ids)
  }

  /** What a row must say about the room stored under `key`: its attributes
      copy the room's, the row is marked private and carries the join key
      exactly when the room is private and has a key, and the player set is
      present exactly when the roster is not empty. */
  ghost predicate Projects(row: DirectoryRow, key: string, g: Gamedata) {
    var listed := g.isPrivate && g.joinKey.Some?;
    && row.roomId == key
    && row.roomName == g.name
    && row.currentCount == |g.players|
    && row.maxPlayers == g.maxPlayers
    && row.hostId == g.ownerUuid
    && row.statusCode == g.status.Code()
    && row.privateFlag == (if listed then 1 else 0)
    && row.joinKey == (if listed then g.joinKey else None)
    && (row.players.Some? <==> |g.players| > 0)
    && (row.players.Some? ==> ListsKeys(row.players.value, g.players.Keys))
  }

  /** The players array built by updateDynamoTable: every roster key once. The
      source lists keys in insertion order; here the order is left open. */
  method PlayersArray(players: map<Uuid, ReadyStatus>) returns (ids: seq<Uuid>)
    ensures ListsKeys(ids, players.Keys)
  {
    ids := [];
    var rest := players.Keys;
    while rest != {}
      invariant rest <= players.Keys
      invariant |ids| + |rest| == |players.Keys|
      invariant forall i | 0 <= i < |ids| :: ids[i] in players && ids[i] !in rest
      invariant forall i, j | 0 <= i < j < |ids| :: ids[i] != ids[j]
      invariant forall k | k in players && k !in rest :: k in ids
      decreases rest
    {
      var k :| k in rest;
      ids := ids + [k];
      rest := rest - {k};
    }
  }

  /** The row-shape selection of updateDynamoTable: four shapes, by whether the
      room is private with a key and whether the roster is empty. */
  function ShapeRow(key: string, g: Gamedata, ids: seq<Uuid>): (row: DirectoryRow)
    requires ListsKeys(ids, g.players.Keys)
    ensures Projects(row, key, g)
  {
    if g.isPrivate && g.joinKey.Some? then
      if |ids| > 0 then
        DirectoryRow(key, g.name, |g.players|, g.maxPlayers, g.ownerUuid, 1, g.joinKey, g.status.Code(), Some(ids))
      else
        DirectoryRow(key, g.name, |g.players|, g.maxPlayers, g.ownerUuid, 1, g.joinKey, g.status.Code(), None)
    else
      if |ids| > 0 then
        DirectoryRow(key, g.name, |g.players|, g.maxPlayers, g.ownerUuid, 0, None, g.status.Code(), Some(ids))
      else
        DirectoryRow(key, g.name, |g.players|, g.maxPlayers, g.ownerUuid, 0, None, g.status.Code(), None)
  }

  /** The key cleanup deletes: Private is 1 exactly when the room is private. */
  function DeleteKeyOf(key: string, g: Gamedata): DeleteKey {
    DeleteKey(key, if g.isPrivate then 1 else 0)
  }

  /** For a room that keeps its invariant, the row written for it and the key
      cleanup deletes name the same (RoomId, Private) pair. */
  lemma RowAndDeleteKeyAgree(row: DirectoryRow, key: string, g: Gamedata)
    requires Projects(row, key, g) && WellKeyed(g)
    ensures DeleteKey(row.roomId, row.privateFlag) == DeleteKeyOf(key, g)
  {
  }

  /** The row's member count equals the size of its player set. */
  lemma CountMatchesPlayerSet(row: DirectoryRow, key: string, g: Gamedata)
    requires Projects(row, key, g) && row.players.Some?
    ensures |row.players.value| == row.currentCount
  {
  }
}
