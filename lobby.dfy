/** The lobby server: the registry of rooms (pathServer), admission of
    connection upgrades, the per-connection handlers for messages, close,
    heartbeat ticks and pongs, directory sync and cleanup. Node runs one handler
    at a time, so every event is one method call on the Server. What the server
    sends over sockets and to the directory is recorded in two logs. */
module Lobby {
  import opened JoinKeys
  import opened RoomData
  import opened Rooms
  import opened Directory

  /** The claims of a token that passed signature verification. `verified` is
      absent when the token carries no such claim. */
  datatype Claims = Claims(uuid: Uuid, verified: Option<int>)

  datatype ErrorKind = NotOwner

  /** A response sent to clients. */
  datatype Response =
    | SettingsUpdate(settings: Settings)
    | PlayersUpdate(players: seq<Player>)
    | ChatMessage(sender: Uuid, message: string)
    | Error(kind: ErrorKind)
    | CloseSession
    | MalformedData

  /** A parsed client message. `Unparsable` is a message JSON.parse rejects;
      `UnknownCmd` one whose command tag matches no case. */
  datatype Command =
    | ChatCmd(message: string)
    | ApplySettingsCmd(patch: SettingsPatch)
    | StartCmd
    | DisbandCmd
    | ReadyCmd
    | FinishCmd
    | UnknownCmd
    | Unparsable

  /** The commands only the room owner may issue. */
  predicate OwnerOnly(cmd: Command) {
    cmd.ApplySettingsCmd? || cmd.StartCmd? || cmd.DisbandCmd? || cmd.FinishCmd?
  }

  /** One connection: the identity it authenticated as, the room and path its
      handlers captured, its liveness flag and whether its heartbeat timer is set. */
  class Connection {
    const uuid: Uuid
    const room: Room
    const path: string
    var isAlive: bool
    var timerActive: bool

    constructor (uuid: Uuid, room: Room, path: string)
      ensures this.uuid == uuid && this.room == room && this.path == path
      ensures isAlive && timerActive
    {
      this.uuid := uuid;
      this.room := room;
      this.path := path;
      isAlive := true;
      timerActive := true;
    }
  }

  /** Something the server sent over its sockets. */
  datatype Outbound =
    | Send(to: Connection, response: Response)      // to one connection
    | Broadcast(group: string, response: Response)  // to every connection of the room at `group`
    | CloseGroup(group: string)                     // close every connection of that room, code 1000

  /** The notice sent when a room shuts down, then the closing of its connections. */
  function ClosingWave(group: string): seq<Outbound> {
    [Broadcast(group, CloseSession), CloseGroup(group)]
  }

  function PutOps(row: Option<DirectoryRow>): seq<DirectoryOp> {
    if row.Some? then [Put(row.value)] else []
  }

  function DeleteOps(key: Option<DeleteKey>): seq<DirectoryOp> {
    if key.Some? then [Delete(key.value)] else []
  }

  /** The token checks of the upgrade handler: a token must be present and
      non-empty, pass verification, and carry a non-zero `verified` claim. */
  function Authenticate(token: Option<string>, verify: string -> Option<Claims>): (uuid: Option<Uuid>)
    ensures uuid.None? <==>
      || token.None?
      || |token.value| == 0
      || verify(token.value).None?
      || verify(token.value).value.verified.None?
      || verify(token.value).value.verified.value == 0
    ensures uuid.Some? ==> token.Some? && verify(token.value).Some? && uuid.value == verify(token.value).value.uuid
  {
    if token.None? || |token.value| == 0 then None
    else
      var decoded := verify(token.value);
      if decoded.None? then None
      else if decoded.value.verified.None? || decoded.value.verified.value == 0 then None
      else Some(decoded.value.uuid)
  }

  class Server {
    /** The registry: upgrade path -> room. */
    var pathServer: map<string, Room>
    /** Everything sent over sockets, in order. */
    var outbox: seq<Outbound>
    /** Everything sent to the directory, in order. */
    var directory: seq<DirectoryOp>

    /** Every registered room keeps its invariant. */
    ghost predicate Valid()
      reads this`pathServer, pathServer.Values
    {
      forall k | k in pathServer :: pathServer[k].Valid()
    }

    constructor ()
      ensures Valid() && pathServer == map[] && outbox == [] && directory == []
    {
      pathServer := map[];
      outbox := [];
      directory := [];
    }

    /** `row` is what directory sync produces for `key`: nothing when the key
        is not registered or its room is closing, else the room's projection. */
    ghost predicate Synced(key: string, row: Option<DirectoryRow>)
      reads this`pathServer, pathServer.Values
    {
      && (row.None? <==> key !in pathServer || pathServer[key].status == Closing)
      && (row.Some? ==> Projects(row.value, key, pathServer[key].Snapshot()))
    }

    /** Some registered room at `pathname` accepts joins. */
    ghost predicate HasWaitingRoom(pathname: string)
      reads this`pathServer, pathServer.Values
    {
      exists k | k in pathServer :: pathname == "/" + k && pathServer[k].status == Waiting
    }

    /** updateDynamoTable, up to the network put: the row for `key`, if any. */
    method UpdateDynamoTable(key: string) returns (row: Option<DirectoryRow>)
      ensures Synced(key, row)
    {
      if key !in pathServer {
        return None;
      }
      var settings := pathServer[key];
      if settings.status == Closing {
        return None;
      }
      var ids := PlayersArray(settings.players);
      row := Some(ShapeRow(key, settings.Snapshot(), ids));
    }

    /** The registry scan of the upgrade handler: the key whose path is
        `pathname` and whose room is waiting. */
    method FindWaitingRoom(pathname: string) returns (key: Option<string>)
      ensures key.Some? ==> key.value in pathServer && pathname == "/" + key.value && pathServer[key.value].status == Waiting
      ensures key.None? <==> !HasWaitingRoom(pathname)
    {
      var rest := pathServer.Keys;
      while rest != {}
        invariant rest <= pathServer.Keys
        invariant forall k | k in pathServer && k !in rest :: !(pathname == "/" + k && pathServer[k].status == Waiting)
        decreases rest
      {
        var k :| k in rest;
        if pathname == "/" + k && pathServer[k].status == Waiting {
          return Some(k);
        }
        rest := rest - {k};
      }
      return None;
    }

    /** The key cleanup deletes for `key`: none when `key` is not registered. */
    function RegisteredDeleteKey(key: string): Option<DeleteKey>
      reads this`pathServer, pathServer.Values
    {
      if key in pathServer then Some(DeleteKeyOf(key, pathServer[key].Snapshot())) else None
    }

    /** cleanup: delete the room's directory row and forget the room. An
        unregistered key is left alone. */
    method Cleanup(key: string) returns (deleted: Option<DeleteKey>)
      requires Valid()
      modifies this`pathServer, this`directory
      ensures Valid()
      ensures deleted == old(RegisteredDeleteKey(key))
      ensures pathServer == old(pathServer) - {key}
      ensures directory == old(directory) + DeleteOps(deleted)
    {
      if key !in pathServer {
        return None;
      }
      deleted := Some(DeleteKeyOf(key, pathServer[key].Snapshot()));
      directory := directory + [Delete(deleted.value)];
      pathServer := pathServer - {key};
    }

    /** Room creation: createGamedata, registration under a new path, and the
        first directory sync. The path is the fresh uuid the source draws. */
    method CreateRoom(req: CreateRequest, ownerUuid: Uuid, path: string, picks: seq<CharIndex>)
      returns (room: Room, synced: Option<DirectoryRow>)
      requires Valid() && |picks| == JoinKeyLength
      modifies this`pathServer, this`directory
      ensures Valid() && fresh(room)
      ensures room.Snapshot() == Gamedata(req.name, ownerUuid, req.maxPlayers, req.isPrivate,
                                          if req.isPrivate then Some(KeyFromPicks(picks)) else None,
                                          req.gamemode, Waiting, map[])
      ensures pathServer == old(pathServer)[path := room]
      ensures synced.Some? && Synced(path, synced)
      ensures directory == old(directory) + PutOps(synced)
    {
      room := new Room(req, ownerUuid, picks);
      pathServer := pathServer[path := room];
      synced := UpdateDynamoTable(path);
      directory := directory + PutOps(synced);
    }

    /** A connection upgrade to `pathname` carrying `token`. It is rejected,
        changing nothing, unless the token authenticates and a waiting room
        sits at that path. Otherwise the member is (re)set to pending, the
        directory is synced, and the new connection gets the settings while the
        whole room gets the roster. */
    method Upgrade(token: Option<string>, pathname: string, verify: string -> Option<Claims>)
      returns (conn: Option<Connection>, roster: seq<Player>, synced: Option<DirectoryRow>)
      requires Valid()
      modifies this`outbox, this`directory, pathServer.Values
      ensures Valid() && pathServer == old(pathServer)
      ensures conn.None? <==> Authenticate(token, verify).None? || !old(HasWaitingRoom(pathname))
      ensures conn.None? ==>
        && outbox == old(outbox) && directory == old(directory) && synced.None?
        && forall k | k in pathServer :: pathServer[k].Snapshot() == old(pathServer[k].Snapshot())
      ensures conn.Some? ==>
        var c := conn.value;
        var key := c.path;
        && fresh(c) && key in pathServer && c.room == pathServer[key]
        && pathname == "/" + key
        && c.uuid == Authenticate(token, verify).value
        && c.isAlive && c.timerActive
        && old(pathServer[key].status) == Waiting
        && c.room.Snapshot() == old(pathServer[key].Snapshot()).(players := old(pathServer[key].players)[c.uuid := Pending])
        && (forall k | k in pathServer && pathServer[k] != c.room :: pathServer[k].Snapshot() == old(pathServer[k].Snapshot()))
        && synced.Some? && Synced(key, synced) && directory == old(directory) + PutOps(synced)
        && ListsRoster(roster, c.room.players)
        && outbox == old(outbox) + [Send(c, SettingsUpdate(SettingsInformation(c.room.Snapshot()))),
                                    Broadcast(key, PlayersUpdate(roster))]
    {
      conn, roster, synced := None, [], None;
      var uuid := Authenticate(token, verify);
      if uuid.None? {
        return;
      }
      var found := FindWaitingRoom(pathname);
      if found.None? {
        return;
      }
      var key := found.value;
      var room := pathServer[key];
      synced := AddPlayer(room, key, uuid.value);
      var c;
      c, roster := Connect(room, key, uuid.value);
      conn := Some(c);
    }

    /** The state change of an accepted upgrade: the member is (re)set to
        pending, whatever readiness it had, and the directory is synced. */
    method AddPlayer(room: Room, key: string, uuid: Uuid) returns (synced: Option<DirectoryRow>)
      requires Valid() && key in pathServer && pathServer[key] == room && room.status == Waiting
      modifies room`players, this`directory
      ensures Valid()
      ensures room.Snapshot() == old(room.Snapshot()).(players := old(room.players)[uuid := Pending])
      ensures synced.Some? && Synced(key, synced) && directory == old(directory) + PutOps(synced)
    {
      room.players := room.players[uuid := Pending];
      assert room.Valid();
      synced := UpdateDynamoTable(key);
      directory := directory + PutOps(synced);
    }

    /** The connection handler: a live connection for `uuid` on the room at
        `key`, with its heartbeat set; the new connection receives the settings
        and the whole room the roster. */
    method Connect(room: Room, key: string, uuid: Uuid) returns (c: Connection, roster: seq<Player>)
      modifies this`outbox
      ensures fresh(c) && c.uuid == uuid && c.room == room && c.path == key && c.isAlive && c.timerActive
      ensures ListsRoster(roster, room.players)
      ensures outbox == old(outbox) + [Send(c, SettingsUpdate(SettingsInformation(room.Snapshot()))),
                                       Broadcast(key, PlayersUpdate(roster))]
    {
      c := new Connection(uuid, room, key);
      outbox := outbox + [Send(c, SettingsUpdate(SettingsInformation(room.Snapshot())))];
      roster := PlayerInformation(room.players);
      outbox := outbox + [Broadcast(key, PlayersUpdate(roster))];
    }

    /** The close handler. On a closing room it does nothing. Otherwise it
        stops the heartbeat; the owner's close shuts the room down and cleans
        it up, a member's close removes that member and syncs the directory. */
    method OnClose(c: Connection) returns (deleted: Option<DeleteKey>, synced: Option<DirectoryRow>)
      requires Valid() && c.room.Valid()
      modifies this`outbox, this`directory, this`pathServer, c`timerActive, c.room`status, c.room`players
      ensures Valid() && c.room.Valid()
      ensures old(c.room.status) == Closing ==>
        && c.room.Snapshot() == old(c.room.Snapshot()) && c.timerActive == old(c.timerActive)
        && outbox == old(outbox) && directory == old(directory) && pathServer == old(pathServer)
        && deleted.None? && synced.None?
      ensures old(c.room.status) != Closing && c.uuid == c.room.ownerUuid ==>
        && !c.timerActive
        && c.room.Snapshot() == old(c.room.Snapshot()).(status := Closing)
        && outbox == old(outbox) + ClosingWave(c.path)
        && deleted == old(RegisteredDeleteKey(c.path))
        && pathServer == old(pathServer) - {c.path}
        && directory == old(directory) + DeleteOps(deleted)
        && synced.None?
      ensures old(c.room.status) != Closing && c.uuid != c.room.ownerUuid ==>
        && !c.timerActive
        && c.room.Snapshot() == old(c.room.Snapshot()).(players := old(c.room.players) - {c.uuid})
        && outbox == old(outbox) && pathServer == old(pathServer)
        && Synced(c.path, synced) && directory == old(directory) + PutOps(synced)
        && deleted.None?
    {
      deleted, synced := None, None;
      if c.room.status == Closing {
        return;
      }
      c.timerActive := false;
      if c.uuid == c.room.ownerUuid {
        outbox := outbox + ClosingWave(c.path);
        c.room.status := Closing;
        deleted := Cleanup(c.path);
      } else {
        c.room.players := c.room.players - {c.uuid};
        synced := UpdateDynamoTable(c.path);
        directory := directory + PutOps(synced);
      }
    }

    /** The pong handler. */
    method OnPong(c: Connection)
      modifies c`isAlive
      ensures c.isAlive
    {
      c.isAlive := true;
    }

    /** The heartbeat tick as written: its guard assigns `closing` to the
        status instead of comparing, and the assigned code (2) is truthy, so
        every tick marks the room closing and returns. */
    method OnTick(c: Connection)
      requires Valid() && c.room.Valid() && c.timerActive
      modifies c.room`status
      ensures Valid() && c.room.Valid()
      ensures c.room.Snapshot() == old(c.room.Snapshot()).(status := Closing)
    {
      c.room.status := Closing;
    }

    /** chat: relay the text, with the sender, to the whole room. */
    method OnChat(c: Connection, message: string)
      modifies this`outbox
      ensures outbox == old(outbox) + [Broadcast(c.path, ChatMessage(c.uuid, message))]
    {
      outbox := outbox + [Broadcast(c.path, ChatMessage(c.uuid, message))];
    }

    /** The refusal of an owner-only command: an error to the sender only. */
    method RefuseNonOwner(c: Connection)
      modifies this`outbox
      ensures outbox == old(outbox) + [Send(c, Error(NotOwner))]
    {
      outbox := outbox + [Send(c, Error(NotOwner))];
    }

    /** applySettings: owner only. Merge the patch, sync the directory, send
        the new settings to the whole room. */
    method OnApplySettings(c: Connection, patch: SettingsPatch, picks: seq<CharIndex>) returns (synced: Option<DirectoryRow>)
      requires Valid() && c.room.Valid() && |picks| == JoinKeyLength
      modifies this`outbox, this`directory, c.room
      ensures Valid() && c.room.Valid() && pathServer == old(pathServer)
      ensures c.uuid != c.room.ownerUuid ==>
        && c.room.Snapshot() == old(c.room.Snapshot())
        && outbox == old(outbox) + [Send(c, Error(NotOwner))]
        && directory == old(directory) && synced.None?
      ensures c.uuid == c.room.ownerUuid ==>
        && c.room.Snapshot() == Merge(old(c.room.Snapshot()), patch, KeyFromPicks(picks))
        && Synced(c.path, synced) && directory == old(directory) + PutOps(synced)
        && outbox == old(outbox) + [Broadcast(c.path, SettingsUpdate(SettingsInformation(c.room.Snapshot())))]
    {
      synced := None;
      if c.uuid != c.room.ownerUuid {
        RefuseNonOwner(c);
        return;
      }
      c.room.UpdateGamedata(patch, picks);
      synced := UpdateDynamoTable(c.path);
      directory := directory + PutOps(synced);
      outbox := outbox + [Broadcast(c.path, SettingsUpdate(SettingsInformation(c.room.Snapshot())))];
    }

    /** start: owner only. Sets the room ongoing; no readiness check and no
        game server is provisioned. */
    method OnStart(c: Connection)
      requires Valid() && c.room.Valid()
      modifies this`outbox, c.room`status
      ensures Valid() && c.room.Valid()
      ensures c.uuid != c.room.ownerUuid ==>
        c.room.Snapshot() == old(c.room.Snapshot()) && outbox == old(outbox) + [Send(c, Error(NotOwner))]
      ensures c.uuid == c.room.ownerUuid ==>
        c.room.Snapshot() == old(c.room.Snapshot()).(status := Ongoing) && outbox == old(outbox)
    {
      if c.uuid != c.room.ownerUuid {
        RefuseNonOwner(c);
        return;
      }
      c.room.status := Ongoing;
    }

    /** disband: owner only. Marks the room closing, tells and closes every
        connection, and cleans up. There is no guard against a room already
        closing. */
    method OnDisband(c: Connection) returns (deleted: Option<DeleteKey>)
      requires Valid() && c.room.Valid()
      modifies this`outbox, this`directory, this`pathServer, c.room`status
      ensures Valid() && c.room.Valid()
      ensures c.uuid != c.room.ownerUuid ==>
        && c.room.Snapshot() == old(c.room.Snapshot()) && outbox == old(outbox) + [Send(c, Error(NotOwner))]
        && directory == old(directory) && pathServer == old(pathServer) && deleted.None?
      ensures c.uuid == c.room.ownerUuid ==>
        && c.room.Snapshot() == old(c.room.Snapshot()).(status := Closing)
        && outbox == old(outbox) + ClosingWave(c.path)
        && deleted == old(RegisteredDeleteKey(c.path))
        && pathServer == old(pathServer) - {c.path}
        && directory == old(directory) + DeleteOps(deleted)
    {
      deleted := None;
      if c.uuid != c.room.ownerUuid {
        RefuseNonOwner(c);
        return;
      }
      c.room.status := Closing;
      outbox := outbox + ClosingWave(c.path);
      deleted := Cleanup(c.path);
    }

    /** ready: any connection. Toggles the sender's own readiness and sends the
        roster to the whole room. */
    method OnReady(c: Connection) returns (roster: seq<Player>)
      requires Valid() && c.room.Valid()
      modifies this`outbox, c.room`players
      ensures Valid() && c.room.Valid()
      ensures c.room.Snapshot() == old(c.room.Snapshot()).(players := ToggleReady(old(c.room.players), c.uuid))
      ensures ListsRoster(roster, c.room.players)
      ensures outbox == old(outbox) + [Broadcast(c.path, PlayersUpdate(roster))]
    {
      c.room.players := ToggleReady(c.room.players, c.uuid);
      roster := PlayerInformation(c.room.players);
      outbox := outbox + [Broadcast(c.path, PlayersUpdate(roster))];
    }

    /** finish: owner only. Sets the room waiting again, leaving every
        member's readiness as it is, and sends the settings to the whole room. */
    method OnFinish(c: Connection)
      requires Valid() && c.room.Valid()
      modifies this`outbox, c.room`status
      ensures Valid() && c.room.Valid()
      ensures c.uuid != c.room.ownerUuid ==>
        c.room.Snapshot() == old(c.room.Snapshot()) && outbox == old(outbox) + [Send(c, Error(NotOwner))]
      ensures c.uuid == c.room.ownerUuid ==>
        && c.room.Snapshot() == old(c.room.Snapshot()).(status := Waiting)
        && outbox == old(outbox) + [Broadcast(c.path, SettingsUpdate(SettingsInformation(c.room.Snapshot())))]
    {
      if c.uuid != c.room.ownerUuid {
        RefuseNonOwner(c);
        return;
      }
      c.room.status := Waiting;
      outbox := outbox + [Broadcast(c.path, SettingsUpdate(SettingsInformation(c.room.Snapshot())))];
    }

    /** The message handler: dispatch on the command. A message that does not
        parse gets an error back; an unknown command is ignored. */
    method OnMessage(c: Connection, cmd: Command, picks: seq<CharIndex>)
      requires Valid() && c.room.Valid() && |picks| == JoinKeyLength
      modifies this`outbox, this`directory, this`pathServer, c.room
      ensures Valid() && c.room.Valid()
      ensures OwnerOnly(cmd) && c.uuid != c.room.ownerUuid ==>
        && c.room.Snapshot() == old(c.room.Snapshot())
        && outbox == old(outbox) + [Send(c, Error(NotOwner))]
        && directory == old(directory) && pathServer == old(pathServer)
      ensures cmd.ChatCmd? ==>
        && c.room.Snapshot() == old(c.room.Snapshot())
        && outbox == old(outbox) + [Broadcast(c.path, ChatMessage(c.uuid, cmd.message))]
        && directory == old(directory) && pathServer == old(pathServer)
      ensures cmd.ReadyCmd? ==>
        && c.room.Snapshot() == old(c.room.Snapshot()).(players := ToggleReady(old(c.room.players), c.uuid))
        && (exists roster :: ListsRoster(roster, c.room.players) && outbox == old(outbox) + [Broadcast(c.path, PlayersUpdate(roster))])
        && directory == old(directory) && pathServer == old(pathServer)
      ensures cmd.ApplySettingsCmd? && c.uuid == c.room.ownerUuid ==>
        && c.room.Snapshot() == Merge(old(c.room.Snapshot()), cmd.patch, KeyFromPicks(picks))
        && (exists row :: Synced(c.path, row) && directory == old(directory) + PutOps(row))
        && outbox == old(outbox) + [Broadcast(c.path, SettingsUpdate(SettingsInformation(c.room.Snapshot())))]
        && pathServer == old(pathServer)
      ensures cmd.StartCmd? && c.uuid == c.room.ownerUuid ==>
        && c.room.Snapshot() == old(c.room.Snapshot()).(status := Ongoing)
        && outbox == old(outbox) && directory == old(directory) && pathServer == old(pathServer)
      ensures cmd.DisbandCmd? && c.uuid == c.room.ownerUuid ==>
        && c.room.Snapshot() == old(c.room.Snapshot()).(status := Closing)
        && outbox == old(outbox) + ClosingWave(c.path)
        && pathServer == old(pathServer) - {c.path}
        && directory == old(directory) + DeleteOps(old(RegisteredDeleteKey(c.path)))
      ensures cmd.FinishCmd? && c.uuid == c.room.ownerUuid ==>
        && c.room.Snapshot() == old(c.room.Snapshot()).(status := Waiting)
        && outbox == old(outbox) + [Broadcast(c.path, SettingsUpdate(SettingsInformation(c.room.Snapshot())))]
        && directory == old(directory) && pathServer == old(pathServer)
      ensures cmd.UnknownCmd? ==>
        && c.room.Snapshot() == old(c.room.Snapshot())
        && outbox == old(outbox) && directory == old(directory) && pathServer == old(pathServer)
      ensures cmd.Unparsable? ==>
        && c.room.Snapshot() == old(c.room.Snapshot())
        && outbox == old(outbox) + [Send(c, MalformedData)]
        && directory == old(directory) && pathServer == old(pathServer)
    {
      match cmd {
        case ChatCmd(message) =>
          OnChat(c, message);
        case ApplySettingsCmd(patch) =>
          var _ := OnApplySettings(c, patch, picks);
        case StartCmd =>
          OnStart(c);
        case DisbandCmd =>
          var _ := OnDisband(c);
        case ReadyCmd =>
          var _ := OnReady(c);
        case FinishCmd =>
          OnFinish(c);
        case UnknownCmd =>
        case Unparsable =>
          outbox := outbox + [Send(c, MalformedData)];
      }
    }
  }
}
