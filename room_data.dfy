/** The values a lobby works with: readiness, room status, the room's settings
    (the Gamedata record), a settings patch, and the snapshots the server sends
    to clients. The pure rules over them live here too: the partial settings
    merge of `updateGamedata` and the `ready` toggle. */
module RoomData {
  import opened JoinKeys

  datatype Option<+T> = None | Some(value: T)

  /** A player identity, as carried in a verified token. */
  type Uuid = string

  /** Readiness of a member, with the enum's numeric codes
      (src/models/internal/json_objects/player.ts:11-14). */
  datatype ReadyStatus = Pending | Ready {
    function Code(): nat {
      match this
      case Pending => 0
      case Ready => 1
    }
  }

  /** Room status, with enum codes in declaration order; the directory row
      carries the code. */
  datatype Status = Waiting | Ongoing | Closing {
    function Code(): nat {
      match this
      case Waiting => 0
      case Ongoing => 1
      case Closing => 2
    }
  }

  /** The state of one room: the fields of the Gamedata record. The game mode
      is an enum code taken from the creation request as is. */
  datatype Gamedata = Gamedata(
    name: string,
    ownerUuid: Uuid,
    maxPlayers: int,
    isPrivate: bool,
    joinKey: Option<string>,
    gamemode: int,
    status: Status,
    players: map<Uuid, ReadyStatus>)

  /** The room-creation request body. */
  datatype CreateRequest = CreateRequest(name: string, maxPlayers: int, isPrivate: bool, gamemode: int)

  /** An `applySettings` payload: each field may be absent (undefined or null). */
  datatype SettingsPatch = SettingsPatch(name: Option<string>, maxPlayers: Option<int>, isPrivate: Option<bool>)

  /** The settings snapshot sent to clients. */
  datatype Settings = Settings(
    name: string,
    maxPlayers: int,
    isPrivate: bool,
    joinKey: Option<string>,
    gamemode: int,
    status: Status)

  /** One roster entry sent to clients. */
  datatype Player = Player(uuid: Uuid, readyStatus: ReadyStatus)

  /** The room-level invariant: a private room always holds a well-formed join key. */
  ghost predicate WellKeyed(g: Gamedata) {
    g.isPrivate ==> g.joinKey.Some? && IsJoinKey(g.joinKey.value)
  }

  /** `players.get(uuid)`: undefined when the uuid is not a member. */
  function Lookup(players: map<Uuid, ReadyStatus>, uuid: Uuid): Option<ReadyStatus> {
    if uuid in players then Some(players[uuid]) else None
  }

  /** JavaScript truthiness of a looked-up readiness: undefined and code 0 are falsy. */
  predicate Truthy(r: Option<ReadyStatus>) {
    r.Some? && r.value.Code() != 0
  }

  /** The readiness `ready` stores: pending when the current value is truthy, else ready. */
  function Toggled(current: Option<ReadyStatus>): (next: ReadyStatus)
    ensures next == Pending <==> current == Some(Ready)
  {
    if Truthy(current) then Pending else Ready
  }

  /** The roster after `uuid` sends `ready`. */
  function ToggleReady(players: map<Uuid, ReadyStatus>, uuid: Uuid): (r: map<Uuid, ReadyStatus>)
    ensures r.Keys == players.Keys + {uuid}
    ensures forall u | u in players && u != uuid :: r[u] == players[u]
    ensures uuid in players && players[uuid] == Ready ==> r[uuid] == Pending
    ensures (uuid !in players || players[uuid] == Pending) ==> r[uuid] == Ready
  {
    players[uuid := Toggled(Lookup(players, uuid))]
  }

  /** Sending `ready` twice gives a member back the readiness they had; a
      uuid that was not on the roster ends up pending. */
  lemma ToggleReadyTwice(players: map<Uuid, ReadyStatus>, uuid: Uuid)
    ensures uuid in players ==> ToggleReady(ToggleReady(players, uuid), uuid) == players
    ensures uuid !in players ==> ToggleReady(ToggleReady(players, uuid), uuid) == players[uuid := Pending]
  {
  }

  /** `updateGamedata`: overwrite the fields the patch carries, then, if the room
      is now private, give it the freshly drawn key. */
  function Merge(g: Gamedata, patch: SettingsPatch, freshKey: string): (r: Gamedata)
    ensures r.ownerUuid == g.ownerUuid && r.gamemode == g.gamemode
    ensures r.status == g.status && r.players == g.players
    ensures r.name == (if patch.name.Some? then patch.name.value else g.name)
    ensures r.maxPlayers == (if patch.maxPlayers.Some? then patch.maxPlayers.value else g.maxPlayers)
    ensures r.isPrivate == (if patch.isPrivate.Some? then patch.isPrivate.value else g.isPrivate)
    ensures r.isPrivate ==> r.joinKey == Some(freshKey)
    ensures !r.isPrivate ==> r.joinKey == g.joinKey
  {
    var named := if patch.name.Some? then g.(name := patch.name.value) else g;
    var sized := if patch.maxPlayers.Some? then named.(maxPlayers := patch.maxPlayers.value) else named;
    var privacy := if patch.isPrivate.Some? then sized.(isPrivate := patch.isPrivate.value) else sized;
    if privacy.isPrivate then privacy.(joinKey := Some(freshKey)) else privacy
  }

  /** Merging keeps the room invariant when the drawn key is well formed. */
  lemma MergeKeepsWellKeyed(g: Gamedata, patch: SettingsPatch, freshKey: string)
    requires WellKeyed(g) && IsJoinKey(freshKey)
    ensures WellKeyed(Merge(g, patch, freshKey))
  {
  }

  /** Applying the same patch twice is the same as applying it once with the
      second draw: only the key of a private room is regenerated. */
  lemma MergeTwice(g: Gamedata, patch: SettingsPatch, key1: string, key2: string)
    ensures Merge(Merge(g, patch, key1), patch, key2) == Merge(g, patch, key2)
  {
  }

  /** After a patch that makes the room private, the settings snapshot carries
      the newly drawn key, and that key is well formed. */
  lemma PrivatePatchShowsFreshKey(g: Gamedata, patch: SettingsPatch, picks: seq<CharIndex>)
    requires patch.isPrivate == Some(true) && |picks| == JoinKeyLength
    ensures var shown := SettingsInformation(Merge(g, patch, KeyFromPicks(picks)));
      shown.joinKey == Some(KeyFromPicks(picks)) && IsJoinKey(shown.joinKey.value)
  {
    GeneratedKeyIsJoinKey(picks);
  }

  /** A patch that makes the room public does not clear the old key: the
      settings snapshot still carries it. */
  lemma PublicPatchKeepsOldKey(g: Gamedata, patch: SettingsPatch, freshKey: string)
    requires patch.isPrivate == Some(false)
    ensures SettingsInformation(Merge(g, patch, freshKey)).joinKey == g.joinKey
  {
  }

  /** The settings snapshot of a room (settingsInformation): the six settings
      fields of the response object, copied from the room. */
  function SettingsInformation(g: Gamedata): (s: Settings)
    ensures s.name == g.name && s.maxPlayers == g.maxPlayers && s.isPrivate == g.isPrivate
    ensures s.joinKey == g.joinKey && s.gamemode == g.gamemode && s.status == g.status
  {
    Settings(g.name, g.maxPlayers, g.isPrivate, g.joinKey, g.gamemode, g.status)
  }

  /** Two rooms show the same settings exactly when their six settings fields
      agree: the snapshot reveals neither the owner nor the roster, so a change
      to either is invisible in a settings update. */
  lemma SettingsShowExactlyTheSettings(g: Gamedata, h: Gamedata)
    ensures SettingsInformation(g) == SettingsInformation(h) <==>
      && g.name == h.name && g.maxPlayers == h.maxPlayers && g.isPrivate == h.isPrivate
      && g.joinKey == h.joinKey && g.gamemode == h.gamemode && g.status == h.status
  {
  }

  /** A roster listing: one entry per member, with that member's readiness. */
  ghost predicate ListsRoster(roster: seq<Player>, players: map<Uuid, ReadyStatus>) {
    && |roster| == |players|
    && (forall i | 0 <= i < |roster| :: roster[i].uuid in players && players[roster[i].uuid] == roster[i].readyStatus)
    && (forall i, j | 0 <= i < j < |roster| :: roster[i].uuid != roster[j].uuid)
    && (forall u | u in players :: exists i | 0 <= i < |roster| :: roster[i].uuid == u)
  }

  /** playerInformation: the roster as a list of entries. The source lists
      members in insertion order; here the order is left open. */
  method PlayerInformation(players: map<Uuid, ReadyStatus>) returns (roster: seq<Player>)
    ensures ListsRoster(roster, players)
  {
    roster := [];
    var rest := players.Keys;
    while rest != {}
      invariant rest <= players.Keys
      invariant |roster| + |rest| == |players|
      invariant forall i | 0 <= i < |roster| ::
        roster[i].uuid in players && roster[i].uuid !in rest && players[roster[i].uuid] == roster[i].readyStatus
      invariant forall i, j | 0 <= i < j < |roster| :: roster[i].uuid != roster[j].uuid
      invariant forall u | u in players && u !in rest :: exists i | 0 <= i < |roster| :: roster[i].uuid == u
      decreases rest
    {
      var u :| u in rest;
      ghost var before := roster;
      roster := roster + [Player(u, players[u])];
      rest := rest - {u};
      forall v | v in players && v !in rest
        ensures exists i | 0 <= i < |roster| :: roster[i].uuid == v
      {
        if v == u {
          assert roster[|before|].uuid == v;
        } else {
          var i :| 0 <= i < |before| && before[i].uuid == v;
          assert roster[i].uuid == v;
        }
      }
    }
  }
}
