/**
 * Client scenarios: what a caller can conclude from the contracts of the
 * roster, the coordinator and the monitor alone.
 */
module Scenarios {
  import opened Wrappers
  import opened Roster
  import opened Session
  import opened Monitor

  /** Roster {A: pin 2, B: pin 3}: starting the monitor maps pin 2 to A and pin 3 to B. */
  method StartTwoPlayers() returns (monitor: BuzzerMonitor)
    ensures fresh(monitor) && fresh(monitor.api)
    ensures monitor.pinToPlayer == map[2 := "A", 3 := "B"]
    ensures monitor.lastBuzzerTimes == map[] && monitor.api.connections == map[]
  {
    var api := new GameApi("http://localhost:3001");
    var roster := new PlayerManager(map[]);
    var okA := roster.AddPlayer("A", "Alice", 2);
    assert okA;
    var okB := roster.AddPlayer("B", "Bob", 3);
    assert !PinInUse(map["A" := PlayerConfig("Alice", 2, true)], 3, Some("B"));
    assert okB;
    assert PinsUnique(roster.players);
    monitor := new BuzzerMonitor(api, roster);
    monitor.StartMonitoring();
    assert roster.players["A"].gpioPin == 2 && roster.players["B"].gpioPin == 3;
    assert monitor.pinToPlayer.Keys == {2, 3} by {
      assert UsedPins(EnabledPlayers(roster.players)) == {2, 3} by {
        assert NotExcluded("A", None) && NotExcluded("B", None);
      }
    }
  }

  /** Two triggers on pin 2 within 100 ms give one accepted press; two on pin 3 600 ms apart give two. */
  method DebounceTwoPlayers() {
    var monitor := StartTwoPlayers();
    var first := monitor.PinCallback(2, 0, true);
    assert first == Offline;
    var bounce := monitor.PinCallback(2, 100, true);
    assert bounce == Debounced;
    var b1 := monitor.PinCallback(3, 0, true);
    assert b1 == Offline;
    var b2 := monitor.PinCallback(3, 600, true);
    assert b2 == Offline;
    var stray := monitor.PinCallback(4, 700, true);
    assert stray == Unmapped;
  }

  /** The flags start inactive; an update to active/unlocked/no countdown opens the gate, a later lock closes it. */
  method UpdatesGateEligibility() {
    var api := new GameApi("http://localhost:3001");
    assert BuzzerStatus(api.Flags()) == WaitingLabel;
    var connection := new PlayerConnection(api.serverUrl, "remote-1", "game-1", api);
    var open := UpdatePayload(Some(PayloadData(Some(GameState(Some(false), Some(true), Some(false))))));
    var notices, fired := connection.OnGameUpdate(open);
    assert BuzzersAvailable(api.Flags());
    assert notices == [ActiveNotice(true)] && !fired;
    var locked := UpdatePayload(Some(PayloadData(Some(GameState(Some(true), Some(true), None)))));
    notices, fired := connection.OnGameUpdate(locked);
    assert !BuzzersAvailable(api.Flags()) && BuzzerStatus(api.Flags()) == LockedLabel;
    var empty := UpdatePayload(Some(PayloadData(None)));
    notices, fired := connection.OnGameUpdate(empty);
    assert api.buzzersLocked && notices == [] && !fired;
  }

  /** The first successful join fixes the game id; later joins leave it. */
  method JoinFixesGameId() {
    var api := new GameApi("http://localhost:3001");
    var info := api.JoinGame(Accepted(JoinBody(Some(GameRecord("g-42")), Some("r1"))), "Alice");
    assert api.gameId == Some("g-42") && info.Some?;
    var again := api.JoinGame(Accepted(JoinBody(Some(GameRecord("g-other")), Some("r2"))), "Bob");
    assert api.gameId == Some("g-42") && again == Some(JoinInfo("r2", "Bob", GameRecord("g-other")));
    var refused := api.JoinGame(Rejected("Game not found"), "Carol");
    assert refused.None?;
  }

  /** Three players register; player 2's transport always fails: it stays mapped but gets no connection, and nothing is raised. */
  method RegisterWithOneFailure(api: GameApi)
    requires api.gameId == Some("g-42") && api.connections == map[] && api.mappings == map[]
    modifies api
  {
    var s1 := api.RegisterPlayerMapping("1", "r1", [true]);
    assert s1 == 0 && api.connections.Keys == {"1"};
    var s2 := api.RegisterPlayerMapping("2", "r2", [false, false, false]);
    assert s2 == 2 && api.connections.Keys == {"1"};
    var s3 := api.RegisterPlayerMapping("3", "r3", [false, true]);
    assert s3 == 1 && api.connections.Keys == {"1", "3"};
    assert api.mappings == map["1" := "r1", "2" := "r2", "3" := "r3"];

    api.DisconnectFromServer();
    assert api.connections == map[] && api.gameId == Some("g-42");
    assert api.mappings == map["1" := "r1", "2" := "r2", "3" := "r3"];
  }

  /** Presses are refused while the round is inactive, and for a player without a connection. */
  method PressRefusals(api: GameApi)
    requires api.Flags() == RoundFlags(false, false, false)
    modifies api.connections.Values
  {
    var ok, refusal := api.PressBuzzer("2", true);
    assert !ok && refusal == Some(Ineligible(RoundNotActive));
    assert forall c :: c in api.connections.Values ==> c.outbox == old(c.outbox);
  }

  method PressWithoutConnection(api: GameApi)
    requires BuzzersAvailable(api.Flags()) && "9" !in api.connections
    modifies api.connections.Values
  {
    var ok, refusal := api.PressBuzzer("9", true);
    assert !ok && refusal == Some(NoConnection);
    assert forall c :: c in api.connections.Values ==> c.outbox == old(c.outbox);
  }
}
