/** The Gamedata object of one room. The registry and every connection of the
    room hold a reference to the same object, and the event handlers update its
    fields in place. */
module Rooms {
  import opened JoinKeys
  import opened RoomData

  class Room {
    var name: string
    /** Set once, when the room is created; no handler reassigns it. */
    const ownerUuid: Uuid
    var maxPlayers: int
    var isPrivate: bool
    var joinKey: Option<string>
    var gamemode: int
    var status: Status
    var players: map<Uuid, ReadyStatus>

    /** The room's current value. */
    function Snapshot(): Gamedata
      reads this
    {
      Gamedata(name, ownerUuid, maxPlayers, isPrivate, joinKey, gamemode, status, players)
    }

    /** A private room always holds a well-formed join key. */
    ghost predicate Valid()
      reads this
    {
      WellKeyed(Snapshot())
    }

    /** createGamedata: a waiting room with an empty roster, owned by `uuid`;
        a private room gets a key drawn from `picks`. */
    constructor (req: CreateRequest, uuid: Uuid, picks: seq<CharIndex>)
      requires |picks| == JoinKeyLength
      ensures Valid()
      ensures Snapshot() == Gamedata(req.name, uuid, req.maxPlayers, req.isPrivate,
                                     if req.isPrivate then Some(KeyFromPicks(picks)) else None,
                                     req.gamemode, Waiting, map[])
    {
      var key: Option<string> := None;
      if req.isPrivate {
        var s := RandomStringCreator(JoinKeyLength, picks);
        key := Some(s);
      }
      name := req.name;
      ownerUuid := uuid;
      maxPlayers := req.maxPlayers;
      isPrivate := req.isPrivate;
      joinKey := key;
      gamemode := req.gamemode;
      status := Waiting;
      players := map[];
    }

    /** updateGamedata: overwrite the fields the patch carries, one at a time,
        then draw a new key if the room is now private. */
    method UpdateGamedata(patch: SettingsPatch, picks: seq<CharIndex>)
      requires Valid() && |picks| == JoinKeyLength
      modifies this
      ensures Valid()
      ensures Snapshot() == Merge(old(Snapshot()), patch, KeyFromPicks(picks))
    {
      if patch.name.Some? {
        name := patch.name.value;
      }
      if patch.maxPlayers.Some? {
        maxPlayers := patch.maxPlayers.value;
      }
      if patch.isPrivate.Some? {
        isPrivate := patch.isPrivate.value;
      }
      if isPrivate {
        var s := RandomStringCreator(JoinKeyLength, picks);
        joinKey := Some(s);
      }
    }
  }
}
