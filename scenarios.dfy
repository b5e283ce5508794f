/** Event sequences on one room, each stated as what the handlers guarantee
    when run one after the other. */
module Scenarios {
  import opened RoomData
  import opened Directory
  import opened Lobby

  /** The owner's connection closes while a member is still connected: the
      room is closing and forgotten, the member's own close that follows
      changes nothing, and an upgrade to the room's path is refused whatever
      the token. */
  method OwnerLeaves(s: Server, owner: Connection, member: Connection, token: Option<string>, verify: string -> Option<Claims>)
    returns (conn: Option<Connection>)
    requires s.Valid() && owner.room.Valid()
    requires member.room == owner.room && member.path == owner.path
    requires owner.uuid == owner.room.ownerUuid && member.uuid != owner.room.ownerUuid
    requires owner.room.status != Closing
    requires owner.path in s.pathServer && s.pathServer[owner.path] == owner.room
    modifies s, owner, member, owner.room, s.pathServer.Values
    ensures owner.room.status == Closing
    ensures owner.path !in s.pathServer
    ensures s.outbox == old(s.outbox) + ClosingWave(owner.path)
    ensures s.directory == old(s.directory) + [Delete(DeleteKeyOf(owner.path, old(owner.room.Snapshot())))]
    ensures owner.room.players == old(owner.room.players)
    ensures conn.None?
  {
    var _, _ := s.OnClose(owner);
    ghost var afterOwner := s.outbox;
    var _, _ := s.OnClose(member);
    assert s.outbox == afterOwner;
    var roster: seq<Player>, synced: Option<DirectoryRow>;
    conn, roster, synced := s.Upgrade(token, "/" + owner.path, verify);
    assert !s.HasWaitingRoom("/" + owner.path) by {
      forall k | k in s.pathServer ensures "/" + owner.path != "/" + k {
        SlashPrefixInjective(owner.path, k);
      }
    }
  }

  /** Distinct keys give distinct upgrade paths. */
  lemma SlashPrefixInjective(a: string, b: string)
    ensures "/" + a == "/" + b ==> a == b
  {
    if "/" + a == "/" + b {
      assert a == ("/" + a)[1..];
      assert b == ("/" + b)[1..];
    }
  }

  /** A member's connection closes: the room keeps its status and the other
      members, and loses only that member. */
  method MemberLeaves(s: Server, member: Connection)
    requires s.Valid() && member.room.Valid()
    requires member.uuid != member.room.ownerUuid && member.room.status != Closing
    modifies s, member, member.room
    ensures member.room.status == old(member.room.status)
    ensures member.room.players == old(member.room.players) - {member.uuid}
    ensures s.pathServer == old(s.pathServer)
  {
    var _, _ := s.OnClose(member);
  }

  /** As written, one heartbeat tick leaves the room closing for good as far
      as close events go: neither the owner's nor a member's close does
      anything afterwards, directory sync produces no row, and the room stays
      registered until the owner disbands it, or sends `start` or `finish`
      (neither checks the status, so both take the room out of closing) and
      then closes. */
  method TickStopsTheRoom(s: Server, owner: Connection, member: Connection) returns (row: Option<DirectoryRow>)
    requires s.Valid() && owner.room.Valid() && owner.timerActive
    requires member.room == owner.room && member.path == owner.path
    requires owner.uuid == owner.room.ownerUuid
    requires owner.path in s.pathServer && s.pathServer[owner.path] == owner.room
    modifies s, owner, member, owner.room
    ensures owner.room.status == Closing
    ensures owner.room.players == old(owner.room.players)
    ensures s.pathServer == old(s.pathServer) && s.outbox == old(s.outbox) && s.directory == old(s.directory)
    ensures row.None?
  {
    s.OnTick(owner);
    var _, _ := s.OnClose(owner);
    var _, _ := s.OnClose(member);
    row := s.UpdateDynamoTable(owner.path);
  }

  /** The status guard of close events does not cover `disband`: after a
      tick, the owner's disband still sends the closing wave, deletes the
      room's directory row and forgets the room. */
  method TickThenDisband(s: Server, owner: Connection)
    requires s.Valid() && owner.room.Valid() && owner.timerActive
    requires owner.uuid == owner.room.ownerUuid
    requires owner.path in s.pathServer && s.pathServer[owner.path] == owner.room
    modifies s, owner.room
    ensures owner.room.status == Closing
    ensures owner.path !in s.pathServer
    ensures s.outbox == old(s.outbox) + ClosingWave(owner.path)
    ensures s.directory == old(s.directory) + [Delete(DeleteKeyOf(owner.path, old(owner.room.Snapshot())))]
  {
    s.OnTick(owner);
    var _ := s.OnDisband(owner);
  }

  /** `start` does not check the status either: after a tick, the owner's
      start takes the room out of closing, and the owner's close that follows
      runs cleanup and forgets the room. */
  method TickStartClose(s: Server, owner: Connection)
    requires s.Valid() && owner.room.Valid() && owner.timerActive
    requires owner.uuid == owner.room.ownerUuid
    requires owner.path in s.pathServer && s.pathServer[owner.path] == owner.room
    modifies s, owner, owner.room
    ensures owner.room.status == Closing
    ensures owner.path !in s.pathServer
    ensures s.outbox == old(s.outbox) + ClosingWave(owner.path)
    ensures s.directory == old(s.directory) + [Delete(DeleteKeyOf(owner.path, old(owner.room.Snapshot())))]
  {
    s.OnTick(owner);
    s.OnStart(owner);
    var _, _ := s.OnClose(owner);
  }

  /** A second `disband` is not guarded: it sends a second closing wave,
      and neither disband stops the owner's heartbeat timer. */
  method DisbandTwice(s: Server, owner: Connection)
    requires s.Valid() && owner.room.Valid()
    requires owner.uuid == owner.room.ownerUuid
    modifies s, owner.room
    ensures owner.room.status == Closing
    ensures s.outbox == old(s.outbox) + ClosingWave(owner.path) + ClosingWave(owner.path)
    ensures owner.timerActive == old(owner.timerActive)
  {
    var _ := s.OnDisband(owner);
    var _ := s.OnDisband(owner);
  }

  /** A member sending `ready` twice is back where it started. */
  method ReadyTwice(s: Server, c: Connection)
    requires s.Valid() && c.room.Valid() && c.uuid in c.room.players
    modifies s, c.room
    ensures c.room.Snapshot() == old(c.room.Snapshot())
  {
    ghost var before := c.room.players;
    var _ := s.OnReady(c);
    var _ := s.OnReady(c);
    ToggleReadyTwice(before, c.uuid);
  }

  /** Cleanup is idempotent: the second call finds nothing and changes nothing. */
  method CleanupTwice(s: Server, key: string)
    requires s.Valid()
    modifies s
    ensures key !in s.pathServer
    ensures s.directory == old(s.directory) + DeleteOps(old(s.RegisteredDeleteKey(key)))
    ensures s.outbox == old(s.outbox)
  {
    var _ := s.Cleanup(key);
    ghost var once := s.directory;
    var second := s.Cleanup(key);
    assert second.None? && s.directory == once;
  }
}
