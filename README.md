# Buzzer bridge: session bookkeeping, debounce and roster

This project models the bookkeeping core of a Raspberry Pi buzzer client for a
real-time quiz game. Physical buttons on GPIO pins belong to players. A button
press is debounced per player. It is then forwarded to the game server over
that player's own socket connection, but only while the round flags pushed by
the server allow a press.

The model has three parts, one Dafny module per source file:

- `Session` (`session.dfy`, from `game_api.py`). It holds:
  - the three round flags (`isActive`, `buzzersLocked`, `countdownActive`), the press-eligibility predicate and the four-way status label;
  - the `game_update` push handler, the per-player connection table filled by a bounded 3-attempt retry, and the local-to-remote id table;
  - the set-once game id, and the press path: eligibility first, then the connection lookup, then the connection's own `connected` check.

  `PlayerConnection` and `GameApi` are classes whose methods update their fields in place. Socket events are methods (`OnConnect`, `OnDisconnect`, `OnGameUpdate`). The outcome of each socket connect attempt, of each emit and of the HTTP join request is a parameter. Outbound socket traffic is recorded in each connection's `outbox`.
- `Monitor` (`monitor.dfy`, from `buzzer_monitor.py`). It holds:
  - the two-state monitoring machine;
  - the pin-to-player table built from the enabled roster;
  - the per-player debounce over a player-to-last-accepted-time map, with a window of 500 ms (time is integer milliseconds);
  - forwarding of accepted presses to the coordinator while some player is connected.
- `Roster` (`roster.dfy`, from `player_manager.py`). It holds the keyed player store with add, remove and update, which refuse a pin held by another player. It also holds the derived views: the enabled players, and the free pins among 2..27 in ascending order.

`wrappers.dfy` defines `Option`. `scenarios.dfy` holds client methods that drive the classes through four worked scenarios: debounce of two players, flag updates opening and closing the gate, a join in which one player's transport always fails, and refused presses. These methods check that the contracts are strong enough for callers; they model no source code of their own.

`src/game_api.py`, `src/buzzer_monitor.py` and `src/player_manager.py` are byte-identical copies of the files under `raspberry_buzzer/src/`. The rows below cite the `raspberry_buzzer/src/` copy; every statement holds for both.

## Model

| member | source | states |
|---|---|---|
| `Roster.PinInUse` | raspberry_buzzer/src/player_manager.py:104-111 | true only if some player holds the pin; with no exclusion, or excluding an id not in the roster, true exactly when some player holds it |
| `Roster.Updated` | raspberry_buzzer/src/player_manager.py:74-84 | each field of the written record is the given argument when present and the current value otherwise; with no arguments the record is unchanged |
| `Roster.UpdateAllowed` | raspberry_buzzer/src/player_manager.py:71-78 | an allowed update names a present id; on a roster with unique pins it is allowed iff no other player holds the new pin, so the keep-own-pin shortcut only matters for a loaded table that repeats a pin |
| `Roster.UsedPins` | raspberry_buzzer/src/player_manager.py:143 | a pin is in the used set exactly when some player holds it |
| `Roster.PinInUseExcluding` | raspberry_buzzer/src/player_manager.py:104-111 | "pin used, excluding `id`" holds exactly when the pin is used by the roster with `id` removed |
| `Roster.EnabledPlayers` | raspberry_buzzer/src/player_manager.py:96-102 | the view holds exactly the players whose `enabled` is true, each with its own record |
| `Roster.EnabledKeepsPinsUnique` | raspberry_buzzer/src/player_manager.py:96-102 | the enabled view of a roster with unique pins has unique pins |
| `Roster.GetPlayer` | raspberry_buzzer/src/player_manager.py:88-90 | a record is returned iff the id is present, and it is that id's record |
| `Roster.Without` | raspberry_buzzer/src/player_manager.py:144 | the filter keeps exactly the elements not in the used set, and keeps an ascending list ascending |
| `Roster.CommonPinsAre` | raspberry_buzzer/src/player_manager.py:115-142 | the common pin list is strictly ascending and holds exactly the pins 2..27 |
| `Roster.AvailablePins` | raspberry_buzzer/src/player_manager.py:113-144 | the available pins are strictly ascending, and a pin is listed iff it lies in 2..27 and no player holds it |
| `Roster.AddKeepsPinsUnique` | raspberry_buzzer/src/player_manager.py:46-53 | storing a record whose pin no other player holds keeps all pins distinct |
| `Roster.UpdateKeepsPinsUnique` | raspberry_buzzer/src/player_manager.py:71-86 | an accepted update keeps all pins distinct; keeping one's own pin needs no check |
| `Roster.PlayerManager.constructor` | raspberry_buzzer/src/player_manager.py:13-16 | the roster starts as the loaded table, which may repeat a pin |
| `Roster.PlayerManager.AddPlayer` | raspberry_buzzer/src/player_manager.py:46-53 | returns false and changes nothing iff another id holds the pin; re-adding an id on its own pin is allowed; on success only `id` changes, to (name, pin, enabled = true); unique pins are preserved |
| `Roster.PlayerManager.RemovePlayer` | raspberry_buzzer/src/player_manager.py:55-61 | returns true iff the id was present; afterwards it is absent and every other entry is unchanged |
| `Roster.PlayerManager.UpdatePlayer` | raspberry_buzzer/src/player_manager.py:63-86 | false with no change for an unknown id, or for a new pin held by another id; otherwise only `id` changes, each absent argument keeping the current field; unique pins are preserved |
| `Session.BuzzersAvailable` | raspberry_buzzer/src/game_api.py:141-144 | a press is eligible exactly in the one flag combination active, unlocked and no countdown; never outside an active round |
| `Session.BuzzerStatus` | raspberry_buzzer/src/game_api.py:146-155 | exactly one of the four labels, in priority not-active > countdown > locked > ready; "Buzzers ready" iff `buzzers_available` (active, unlocked, no countdown) |
| `Session.DenialOf` | raspberry_buzzer/src/game_api.py:204-211 | a denial reason exists iff the buzzers are not available; the logged reason checks countdown first, then activity, then the lock |
| `Session.GameOf` | raspberry_buzzer/src/game_api.py:45 | a game section is found iff the payload has a `data` key whose value has a `game` key, and it is that value |
| `Session.FlagsOf` | raspberry_buzzer/src/game_api.py:46-56 | each flag written is true iff its key is present and true; a missing key writes false |
| `Session.ApplyPayload` | raspberry_buzzer/src/game_api.py:45-56 | without a game section the flags are unchanged; with one all three are overwritten, each true iff the payload's key is present and true, whatever the flags were before |
| `Session.ChangeNotices` | raspberry_buzzer/src/game_api.py:58-74 | a notice for a flag, carrying its new value, appears iff that flag's old and new values differ; no notice at all iff nothing changed |
| `Session.LatestUpdateWins` | raspberry_buzzer/src/game_api.py:45-56 | after any sequence of updates the flags are those of the latest payload with a game section, a missing key meaning false, or the initial flags if there was none |
| `Session.EligibleIffLatestUpdate` | raspberry_buzzer/src/game_api.py:141-144 | after a sequence of updates, a press is eligible iff the latest game section said active, not locked and no countdown |
| `Session.GameIdAfterJoin` | raspberry_buzzer/src/game_api.py:183-184 | a set game id is never changed; an unset one changes only to the id of the game in a 200 response |
| `Session.GameIdSetOnce` | raspberry_buzzer/src/game_api.py:183-184 | once the game id is set, no sequence of later joins changes it |
| `Session.JoinResult` | raspberry_buzzer/src/game_api.py:180-200 | player info is returned iff the response is a 200 whose body has both the game and the player id, and it carries those with the given name |
| `Session.FirstSuccess` | raspberry_buzzer/src/game_api.py:238-245 | the result is the first of the at most 3 attempts that succeeds, or none when all 3 fail |
| `Session.Sleeps` | raspberry_buzzer/src/game_api.py:238-245 | the number of one-second sleeps is below 3: one per failed attempt except after the last |
| `Session.PlayerConnection.constructor` | raspberry_buzzer/src/game_api.py:10-19 | a new connection is not connected and has sent nothing |
| `Session.PlayerConnection.OnConnect` | raspberry_buzzer/src/game_api.py:22-31 | `connected` becomes true, and the join-room message with the game id and remote player id is sent unless its emit fails |
| `Session.PlayerConnection.OnDisconnect` | raspberry_buzzer/src/game_api.py:33-35 | `connected` becomes false and nothing else changes |
| `Session.PlayerConnection.OnGameUpdate` | raspberry_buzzer/src/game_api.py:41-79 | with a game section all three flags are overwritten (missing key = false), a notice is logged per changed flag, and the callback fires if one is set; without one nothing changes and nothing fires |
| `Session.PlayerConnection.PressBuzzer` | raspberry_buzzer/src/game_api.py:91-103 | true iff connected and the emit succeeds; a press signal is sent exactly then, and nothing is sent when not connected |
| `Session.PlayerConnection.DisconnectFromServer` | raspberry_buzzer/src/game_api.py:105-112 | the socket is closed iff the connection is connected |
| `Session.GameApi.constructor` | raspberry_buzzer/src/game_api.py:125-134 | no game id, no connections, no mappings, no callback, all three flags false |
| `Session.GameApi.Connected` | raspberry_buzzer/src/game_api.py:136-139 | true iff some stored connection is connected; false with no connection stored |
| `Session.GameApi.SetGameUpdateCallback` | raspberry_buzzer/src/game_api.py:256-260 | a callback is set afterwards |
| `Session.GameApi.JoinGame` | raspberry_buzzer/src/game_api.py:167-200 | the game id is taken from a 200 response only while unset, and the result is that of `JoinResult` |
| `Session.GameApi.PressBuzzer` | raspberry_buzzer/src/game_api.py:202-218 | true iff eligible, a connection exists, it is connected and its emit succeeds; an ineligible press is refused with its reason before any lookup, an eligible press with no connection is refused; only the pressing connection sends, and only on success |
| `Session.GameApi.RegisterPlayerMapping` | raspberry_buzzer/src/game_api.py:220-250 | the mapping is always recorded; a fresh connection to the remote id is stored only when the game id is set and one of at most 3 attempts succeeds; otherwise connections are unchanged; the sleep count matches `Sleeps` |
| `Session.GameApi.GetRegisteredPlayers` | raspberry_buzzer/src/game_api.py:252-254 | a copy of the local-to-remote id table |
| `Session.GameApi.DisconnectFromServer` | raspberry_buzzer/src/game_api.py:161-165 | every stored connection that was connected is closed; the table is then empty, so `connected` (some stored connection connected, lines 136-139) is false; mappings, game id and flags are untouched; a second call changes nothing |
| `Monitor.Accepts` | raspberry_buzzer/src/buzzer_monitor.py:62-63 | a player with no record is always accepted; otherwise a trigger is accepted iff it comes at least 500 ms after the recorded time |
| `Monitor.RecordAfter` | raspberry_buzzer/src/buzzer_monitor.py:58-65 | a trigger less than 500 ms after the player's record leaves the record unchanged, otherwise the player's record becomes `now`; other players' records never change |
| `Monitor.RecordNotBelow` | raspberry_buzzer/src/buzzer_monitor.py:62-65 | after an accepted trigger, that player's record never drops below its time |
| `Monitor.AcceptedTriggersSpaced` | raspberry_buzzer/src/buzzer_monitor.py:62-65 | any two accepted triggers of one player are at least 500 ms apart |
| `Monitor.RecordStays` | raspberry_buzzer/src/buzzer_monitor.py:62-65 | until the player triggers again, its record stays at its last accepted time, whatever other players do |
| `Monitor.NextTriggerAcceptedIffSpaced` | raspberry_buzzer/src/buzzer_monitor.py:62-65 | the next trigger of a player after an accepted one is accepted iff it comes at least 500 ms later |
| `Monitor.IsPinMapOf` | raspberry_buzzer/src/buzzer_monitor.py:30-33 | a table built from the enabled players (each enabled pin a key, each key an enabled player on that pin) has exactly the enabled players' pins as keys, even when pins repeat |
| `Monitor.Mapped` | raspberry_buzzer/src/buzzer_monitor.py:37-38 | a pin is mapped only if it is a key, and a key is mapped iff its player id is a non-empty string |
| `Monitor.PinMapExact` | raspberry_buzzer/src/buzzer_monitor.py:30-33 | with unique pins, the table built from the enabled players has exactly their pins as keys, each mapped to its own player |
| `Monitor.BuzzerMonitor.constructor` | raspberry_buzzer/src/buzzer_monitor.py:15-20 | the monitor starts stopped, with empty debounce record and pin table |
| `Monitor.BuzzerMonitor.StartMonitoring` | raspberry_buzzer/src/buzzer_monitor.py:22-49 | a no-op while monitoring; from stopped, monitoring becomes true and the pin table maps every enabled player's pin to an enabled player on that pin, exactly to its own player when pins are unique |
| `Monitor.BuzzerMonitor.StopMonitoring` | raspberry_buzzer/src/buzzer_monitor.py:51-56 | monitoring is false and the pin table empty, whatever the state before (so repeating it changes nothing); the debounce record is untouched |
| `Monitor.BuzzerMonitor.HandleBuzzer` | raspberry_buzzer/src/buzzer_monitor.py:58-78 | the debounce record follows `RecordAfter`; a debounced trigger is dropped; an accepted one is forwarded to the coordinator's press only when some player is connected, yet updates the record either way |
| `Monitor.BuzzerMonitor.PinCallback` | raspberry_buzzer/src/buzzer_monitor.py:36-41 | a pin absent from the table, or mapped to an empty id, changes no record and sends nothing; a mapped pin is handled as a trigger of its player |
| `Monitor.BuzzerMonitor.MockBuzzerPress` | raspberry_buzzer/src/buzzer_monitor.py:80-91 | an id not in the roster fires nothing; otherwise it acts as a trigger on that player's pin |

## Left out

- Socket transport and HTTP (`sio.connect`, `emit`, `disconnect`, the POST of `join_game`). Each is replaced by a parameter giving its outcome. The 5-second connect timeout is part of that outcome.
- The socket's `connect` and `disconnect` events are not raised by the model when a connect attempt succeeds or a socket is closed. The environment delivers them as separate `OnConnect` / `OnDisconnect` steps. A connection stored by `RegisterPlayerMapping` is therefore not yet connected.
- The socket `error` event handler does nothing and is not modelled.
- `GameAPI.connect_to_server` only returns true; it is not modelled.
- `get_game_info` is an HTTP GET with no state change; it is not modelled.
- `PlayerManager.load_config` and `save_config` read and write a JSON file. The constructor takes the loaded table as a parameter, and saving is not modelled. Because a loaded table may repeat a pin, uniqueness is stated as preserved by add, update and remove, not as an invariant of every roster.
- `get_all_players` returns a copy of the table; the model reads the `players` field directly.
- JSON values of the wrong type (for example `null` for a flag, or a game without an `id`) are not modelled. A flag is a present boolean or absent. Exceptions that the handlers catch, other than the missing keys modelled in `JoinGame`, are not modelled.
- Concurrency: socket handlers run on transport threads and write the shared flags without a lock. Each event is modelled as one atomic step, and interleavings are not modelled.
- `time.time()` and `time.sleep(1)`: time is integer milliseconds passed by the caller, and sleeps are counted, not performed.
- The GPIO layer (`gpio_handler.py`) is not part of this model. A button trigger is a call of `PinCallback`. In mock mode a callback exists for every pin the table has ever held, and any pin missing from the table is unmapped. So calling `PinCallback` directly on the roster pin gives the same outcome as the GPIO mock press. `MockBuzzerPress` models mock mode only: when the GPIO library is present, the handler's mock press only logs a message and fires no callback, which the model does not capture.
- `Monitor.BuzzerMonitor.StartMonitoring`: the source iterates the enabled players in dictionary order, so with a repeated pin the last such player wins. The model iterates in any order and only promises an enabled player on that pin.
- `print` output and the body of the external update callback are not modelled. Only the state-change notices and whether the callback fires are modelled.
- The front ends (`raspberry_buzzer/gui/app.py`, `raspberry_buzzer/cli/main.py`, `cli/cli.py`) are not part of this model. Their "connect all players" loop is repeated `JoinGame` and `RegisterPlayerMapping` calls.
