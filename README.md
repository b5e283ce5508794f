# Lobby server: room state machine

This project models the room server of a multiplayer-game lobby. An HTTP
request creates a room. Clients then join it over a websocket connection,
and the server keeps each room's roster, readiness, settings and status. It
also mirrors every room into an external directory table. The model covers the
logic of `app/src/index.ts`:

- the registry `pathServer`, which maps an upgrade path to a room;
- the upgrade (join) admission rule;
- the connection handler, and the per-connection handlers for messages
  (`chat`, `applySettings`, `start`, `disband`, `ready`, `finish`), close,
  heartbeat tick and pong;
- `cleanup`;
- the settings merge `updateGamedata` and `createGamedata`;
- the directory row built by `updateDynamoTable`;
- `randomStringCreator`.

Node runs one handler at a time, so each event is one method call on a
`Server` object.

Layout:

- `join_keys.dfy` (module `JoinKeys`): the 64-character alphabet,
  `randomStringCreator` as a loop over the random draws, and the spec function
  it is proved against, with its inverse.
- `room_data.dfy` (module `RoomData`): readiness and status with their enum
  codes, the `Gamedata` record as a value, the settings patch, the `ready`
  toggle, the merge, and the settings and roster snapshots.
- `room.dfy` (module `Rooms`): class `Room`, the Gamedata object that the
  registry and every connection share and update in place. Its constructor is
  `createGamedata`, and `UpdateGamedata` overwrites fields one at a time.
- `directory.dfy` (module `Directory`): the directory row, its four shapes, the
  players-array loop, and the delete key.
- `lobby.dfy` (module `Lobby`): class `Connection`, which holds what each
  connection's handlers capture (uuid, room, path, `isAlive`, the heartbeat
  timer). Class `Server` holds the registry plus two logs: what was sent over
  sockets (`outbox`) and what was sent to the directory (`directory`).
- `scenarios.dfy` (module `Scenarios`): event sequences that run several
  handlers in a row.

A private room always holds a well-formed 10-character key over the alphabet
(`Room.Valid`). Every registered room keeps that invariant (`Server.Valid`),
and every handler preserves it.

## Model

| member | source | states |
|---|---|---|
| JoinKeys.RandomStringCreator | app/src/index.ts:531-539 | the result has one character per draw, each the alphabet character the draw selects; it has the requested length and uses only alphabet characters |
| JoinKeys.KeyFromPicks | app/src/index.ts:534-536 | the key spelled by the draws has one character per draw, and character i is the alphabet entry at draw i |
| JoinKeys.EveryCharsetStringIsGenerated | app/src/index.ts:531-539 | every string over the alphabet is spelled by some draws, so any such key can be generated |
| JoinKeys.GeneratedKeyIsJoinKey | app/src/index.ts:480-482 | ten draws always give a well-formed join key: 10 characters, all from the alphabet |
| RoomData.Toggled | app/src/index.ts:323 | under the enum encoding (pending = 0, ready = 1) and truthiness of `players.get`, the new readiness is pending exactly when the old one was ready; pending and absent both become ready |
| RoomData.ToggleReady | app/src/index.ts:323 | `ready` adds the sender to the roster if absent and changes only the sender's entry: ready becomes pending, and pending or absent becomes ready |
| RoomData.ToggleReadyTwice | app/src/index.ts:323 | sending `ready` twice restores a member's readiness; a uuid that was not on the roster ends up pending |
| RoomData.Merge | app/src/index.ts:487-506 | name, maxPlayers and isPrivate are overwritten only when present in the patch; owner, game mode, status and roster are unchanged; a room private after the merge gets the fresh key, and a public one keeps its old key |
| RoomData.MergeKeepsWellKeyed | app/src/index.ts:503-505 | the merge preserves the invariant that a private room holds a well-formed key |
| RoomData.MergeTwice | app/src/index.ts:487-506 | applying the same patch twice equals applying it once with the second draw |
| RoomData.PrivatePatchShowsFreshKey | app/src/index.ts:498-505 | after a patch that makes the room private, the settings snapshot carries the newly drawn, well-formed key |
| RoomData.PublicPatchKeepsOldKey | app/src/index.ts:498-505 | a patch that makes the room public leaves the old key in the settings snapshot |
| RoomData.SettingsInformation | app/src/index.ts:508-510 | the settings snapshot carries the room's name, maxPlayers, isPrivate, joinKey, game mode and status, the six fields of the settings response object |
| RoomData.SettingsShowExactlyTheSettings | app/src/models/internal/json_objects/settingsResponse.ts:13-28 | two rooms show the same settings exactly when those six fields agree, so the snapshot reveals neither the owner nor the roster |
| RoomData.PlayerInformation | app/src/index.ts:512-523 | the roster lists every member exactly once, with that member's readiness, and lists nothing else |
| Rooms.Room.constructor | app/src/index.ts:471-484 | a new room is waiting, has an empty roster and the requester as owner, copies the request's settings, and holds a generated key exactly when it is private |
| Rooms.Room.UpdateGamedata | app/src/index.ts:487-506 | the in-place update leaves the room equal to the merge of its old value with the patch and the drawn key, and keeps the room invariant |
| Directory.PlayersArray | app/src/index.ts:369-371 | the players array lists every roster key exactly once and nothing else |
| Directory.ShapeRow | app/src/index.ts:374-440 | each of the four row shapes projects the room: the attributes copy the room's, CurrentCount is the roster size, Private is 1 and JoinKey present exactly when the room is private with a key, and the Players set is present exactly when the roster is non-empty and then equals the roster's keys |
| Directory.RowAndDeleteKeyAgree | app/src/index.ts:444-459 | for a room keeping its invariant, the (RoomId, Private) pair of the row written for it equals the key that cleanup deletes |
| Directory.CountMatchesPlayerSet | app/src/index.ts:384-390 | a row's CurrentCount equals the size of its Players set |
| Lobby.Authenticate | app/src/index.ts:115-131 | the token is rejected exactly when it is missing or empty, fails verification, or has a missing or zero `verified` claim; otherwise the result is the token's uuid |
| Lobby.Server.constructor | app/src/index.ts:18 | the server starts with an empty registry, and nothing has been sent to sockets or to the directory |
| Lobby.Server.UpdateDynamoTable | app/src/index.ts:357-441 | no row is produced for an unregistered or closing room; otherwise the row projects the registered room |
| Lobby.Server.FindWaitingRoom | app/src/index.ts:133-156 | finds a registered key whose path `'/' + key` equals the pathname and whose room is waiting, and finds none exactly when there is no such key |
| Lobby.Server.Cleanup | app/src/index.ts:443-468 | an unregistered key is left alone and nothing is sent; otherwise the delete key has Private = 1 exactly when the room is private, and the key leaves the registry |
| Lobby.Server.CreateRoom | app/src/index.ts:89-97 | the created room is registered under the new path, and its first directory row is written |
| Lobby.Server.Upgrade | app/src/index.ts:109-161 | the upgrade is rejected, changing nothing, when the token does not authenticate or no waiting room sits at the path; otherwise the member is set to pending (so a rejoin resets readiness), other rooms are untouched, the directory is synced, the new connection gets the settings, and the room gets the roster |
| Lobby.Server.AddPlayer | app/src/index.ts:142-146 | an admitted member is set to pending in that room, and the room's row is written |
| Lobby.Server.Connect | app/src/index.ts:175-205 | the new connection is alive with its heartbeat set; it receives the settings and the whole room receives the roster |
| Lobby.Connection.constructor | app/src/index.ts:177-181 | a connection starts alive, bound to its uuid, room and path |
| Lobby.Server.OnClose | app/src/index.ts:242-260 | a close on a closing room does nothing; the owner's close stops the heartbeat, sends the close notice and closes everyone, marks the room closing and cleans it up; any other member's close stops the heartbeat and removes only that member, with status unchanged and the directory synced |
| Lobby.Server.OnPong | app/src/index.ts:262-264 | a pong marks the connection alive |
| Lobby.Server.OnTick | app/src/index.ts:208-211 | as written, every tick sets the room's status to closing and changes nothing else |
| Lobby.Server.OnChat | app/src/index.ts:270-276 | the text and the sender's uuid go to the whole room |
| Lobby.Server.RefuseNonOwner | app/src/index.ts:278-281 | a refused command sends an error to the sender only |
| Lobby.Server.OnApplySettings | app/src/index.ts:277-299 | a non-owner gets an error and the room is unchanged; the owner's patch is merged, the directory synced and the new settings sent to the whole room |
| Lobby.Server.OnStart | app/src/index.ts:300-308 | a non-owner gets an error and the room is unchanged; the owner's start sets the room ongoing with no readiness check and sends nothing |
| Lobby.Server.OnDisband | app/src/index.ts:309-321 | a non-owner gets an error and the room is unchanged; the owner's disband marks the room closing, sends the notice, closes every connection and cleans up |
| Lobby.Server.OnReady | app/src/index.ts:322-329 | any sender toggles only its own readiness, and the roster goes to the whole room |
| Lobby.Server.OnFinish | app/src/index.ts:330-342 | a non-owner gets an error and the room is unchanged; the owner's finish sets the room waiting without touching readiness and sends the settings to the whole room |
| Lobby.Server.OnMessage | app/src/index.ts:266-350 | each command has its handler's effect: chat relays the text with the sender; ready toggles only the sender and sends the roster; the owner's applySettings merges, syncs and sends the settings, start sets ongoing and sends nothing, disband closes and cleans up the room, and finish sets waiting and sends the settings; an owner-only command from anyone else changes nothing except an error sent to that sender; an unknown command changes nothing; an unparsable message gets an error back |
| Scenarios.OwnerLeaves | app/src/index.ts:242-260 | after the owner's close, the room is closing and unregistered, its directory row is deleted, a member's later close does nothing, and an upgrade to its path is refused |
| Scenarios.MemberLeaves | app/src/index.ts:256-259 | a member's close leaves status unchanged and removes only that member |
| Scenarios.TickStopsTheRoom | app/src/index.ts:208-211 | after one tick, neither the owner's nor a member's close does anything, no directory row is produced, and the room stays registered |
| Scenarios.TickThenDisband | app/src/index.ts:309-320 | after a tick, the owner's disband still sends the closing notice and closes everyone, deletes the room's directory row and removes the room from the registry |
| Scenarios.TickStartClose | app/src/index.ts:300-308 | after a tick, the owner's start takes the room out of closing, so the owner's close then sends the closing notice, deletes the directory row and removes the room from the registry |
| Scenarios.DisbandTwice | app/src/index.ts:309-320 | two disbands send the closing notice and close the room's connections twice, and leave the owner's heartbeat timer as it was |
| Scenarios.ReadyTwice | app/src/index.ts:323 | a member sending `ready` twice leaves the room as it was |
| Scenarios.CleanupTwice | app/src/index.ts:443-468 | two cleanups of a key send exactly the one delete the first would send (none for an unregistered key), send nothing over sockets, and leave the key unregistered |

## Where the code differs from the design

The model follows the code in every case below.

- `start` only sets the status to ongoing (line 307). It checks no readiness
  and provisions no game server (the TODO at line 306). Nothing is sent.
- `finish` sets the status back to waiting and leaves every readiness as it
  was.
- The heartbeat's guard at line 209 is an assignment, not a comparison. The
  closing code is non-zero, so every tick marks the room closing and returns.
  The owner-timeout and terminate branches are never reached, and
  `isAlive` is never cleared. After a tick, close events do nothing and
  directory sync writes no row (`Scenarios.TickStopsTheRoom`). The room stays
  registered until the owner disbands it (`Scenarios.TickThenDisband`), or
  sends `start` or `finish` and then closes (`Scenarios.TickStartClose`).
  Neither `start` nor `finish` checks the status, so both take the room out
  of closing.
- Making a room public does not clear its join key. The key leaves the
  directory row (which has no JoinKey when public) but stays in the settings
  sent to clients (`RoomData.PublicPatchKeepsOldKey`).
- The directory row is keyed by (RoomId, Private). When `applySettings`
  changes a room's privacy, the next put writes a row under the new key. The
  row under the old key is never deleted, because `cleanup` deletes only the
  current key.
- A member's close removes the member and syncs the directory, but sends no
  updated roster to the rest of the room (lines 256-259).
- `finish` sends the settings only, not the roster (lines 337-341).
- Heartbeat timers are not cancelled when a room starts closing. `disband`
  (lines 309-320) clears no interval. A member's close on a closing room
  returns before `clearInterval` (lines 244-248), so the member's interval is
  never cleared (`Scenarios.DisbandTwice` keeps the owner's timer set).
- The closing transition is not idempotent. A repeated `disband` sends a
  second closing notice and closes the room's connections again
  (`Scenarios.DisbandTwice`).
- Message handlers do not check the room's status. A `ready`, `start` or
  `finish` arriving after a room is closing still changes it. In particular,
  the owner's `finish` sets a closing room back to waiting.

## Left out

- The HTTP request handler (CORS headers, body streaming, `JSON.parse`, the
  Authorization header) is I/O glue. Only its result is modelled: the
  `createGamedata` room, registered under a fresh path (`Server.CreateRoom`).
  That fresh path is a uuid, so it is taken as a parameter.
- Token verification (`verifyJWT`) is a call into a JWT library, so it is a
  pure function parameter `verify`. The connection handler verifies the token
  a second time (lines 185-195). With a pure `verify` that second check gives
  the same claims, so its close-on-failure branch is not modelled. A token
  that expires between the two checks is not captured.
- Pathname parsing with `URL` is left out; the pathname is an input.
- Sends to the directory are network calls. Each one is recorded as an entry
  in `Server.directory`. The failure logging of line 464 is not modelled.
- Websocket transport is left out: `send`, `close`, `terminate`, `ping`,
  `handleUpgrade` and the `readyState` filter. A send to one connection or
  to a whole room is recorded as an entry in `Server.outbox`. A rejected
  upgrade is a `None` connection, with no record of `socket.destroy`.
- Timers are left out. A tick is an explicit event that arrives only while
  the connection's interval is set (`OnTick` requires `timerActive`).
- `Math.random` is floating point. Each draw is an input: the index
  `floor(random() * 64)` it produces.
- The JSON text of responses is hand-built string formatting, so it is left
  out. Responses are values.
- Request fields are taken as well typed. The source does not validate them:
  a missing field becomes `undefined`, and a non-boolean `isPrivate` is
  judged by truthiness. Neither case is modelled. `maxPlayers` and the game
  mode are integers.
- The app's own `gamedata.ts` is not part of this model. The status codes
  waiting = 0, ongoing = 1, closing = 2 are inferred from the enum order of
  the older `src/models/internal/gamedata.ts` plus the added `closing`. The
  heartbeat reading above relies on closing being non-zero.
- Lobby.Server.Cleanup: the source awaits the directory delete before it
  removes the registry entry. The model does both in one step. In the source,
  a closing room stays registered until that delete settles, and a second
  `disband` in that window would send a second delete.
- RoomData.PlayerInformation: does not state the order of the roster. The
  source lists members in Map insertion order; the model leaves the order
  open.
- Directory.PlayersArray: does not state the order of the array, which is
  insertion order in the source.
- `src/index.ts` is a superseded prototype with no room logic.
- Port allocation and game-server provisioning have no code in the source.
