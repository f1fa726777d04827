/**
 * The game session coordinator (`game_api.py`): the three round flags pushed by
 * the server, the press-eligibility gate, the local-to-remote player id table,
 * the set-once game id, and one socket connection per registered player.
 *
 * The socket and HTTP layers are oracles: a connect attempt, an emit and the
 * join request's response are parameters, and each socket event (`connect`,
 * `disconnect`, `game_update`) is a method run as one atomic step. Outbound
 * socket traffic is recorded in each connection's `outbox`.
 */
module Session {
  import opened Wrappers

  // ---------------------------------------------------------------------------
  // Round flags, eligibility and the status label

  datatype RoundFlags = RoundFlags(isActive: bool, buzzersLocked: bool, countdownActive: bool)

  /** A press may be sent (`buzzers_available`): only in the one configuration active, unlocked, no countdown. */
  predicate BuzzersAvailable(f: RoundFlags): (available: bool)
    ensures available ==> f.isActive
    ensures available <==> f == RoundFlags(true, false, false)
  {
    f.isActive && !f.buzzersLocked && !f.countdownActive
  }

  const WaitingLabel := "Waiting for round to start"
  const CountdownLabel := "Countdown in progress"
  const LockedLabel := "Buzzers locked"
  const ReadyLabel := "Buzzers ready"

  /** The human-readable status (`get_buzzer_status`). */
  function BuzzerStatus(f: RoundFlags): (status: string)
    ensures status in {WaitingLabel, CountdownLabel, LockedLabel, ReadyLabel}
    ensures status == ReadyLabel <==> BuzzersAvailable(f)
    ensures status == WaitingLabel <==> !f.isActive
    ensures status == CountdownLabel <==> f.isActive && f.countdownActive
    ensures status == LockedLabel <==> f.isActive && !f.countdownActive && f.buzzersLocked
  {
    if !f.isActive then WaitingLabel
    else if f.countdownActive then CountdownLabel
    else if f.buzzersLocked then LockedLabel
    else ReadyLabel
  }

  /** Why `press_buzzer` ignores a press; its log checks the countdown first, then activity, then the lock. */
  datatype Denial = CountdownInProgress | RoundNotActive | BuzzersAreLocked

  function DenialOf(f: RoundFlags): (d: Option<Denial>)
    ensures d.None? <==> BuzzersAvailable(f)
    ensures d == Some(CountdownInProgress) <==> f.countdownActive
    ensures d == Some(RoundNotActive) <==> !f.countdownActive && !f.isActive
    ensures d == Some(BuzzersAreLocked) <==> !f.countdownActive && f.isActive && f.buzzersLocked
  {
    if !f.isActive || f.buzzersLocked || f.countdownActive then
      if f.countdownActive then Some(CountdownInProgress)
      else if !f.isActive then Some(RoundNotActive)
      else Some(BuzzersAreLocked)
    else None
  }

  // ---------------------------------------------------------------------------
  // The `game_update` push payload: `{data: {game: {buzzersLocked, isActive, countdownActive}}}`

  datatype GameState = GameState(buzzersLocked: Option<bool>, isActive: Option<bool>, countdownActive: Option<bool>)
  datatype PayloadData = PayloadData(game: Option<GameState>)
  datatype UpdatePayload = UpdatePayload(data: Option<PayloadData>)

  /** `data["data"]["game"]`, when both keys are present. */
  function GameOf(p: UpdatePayload): (g: Option<GameState>)
    ensures g.Some? <==> p.data.Some? && p.data.value.game.Some?
    ensures g.Some? ==> g == p.data.value.game
  {
    if p.data.Some? then p.data.value.game else None
  }

  /** The flags a game section writes; a missing key reads as false. */
  function FlagsOf(g: GameState): (f: RoundFlags)
    ensures f.isActive <==> g.isActive == Some(true)
    ensures f.buzzersLocked <==> g.buzzersLocked == Some(true)
    ensures f.countdownActive <==> g.countdownActive == Some(true)
  {
    RoundFlags(g.isActive.GetOr(false), g.buzzersLocked.GetOr(false), g.countdownActive.GetOr(false))
  }

  /** The flags after one `game_update` event. */
  function ApplyPayload(f: RoundFlags, p: UpdatePayload): (r: RoundFlags)
    ensures GameOf(p).None? ==> r == f
    ensures GameOf(p).Some? ==> (r.isActive <==> GameOf(p).value.isActive == Some(true))
    ensures GameOf(p).Some? ==> (r.buzzersLocked <==> GameOf(p).value.buzzersLocked == Some(true))
    ensures GameOf(p).Some? ==> (r.countdownActive <==> GameOf(p).value.countdownActive == Some(true))
  {
    match GameOf(p)
    case Some(g) => FlagsOf(g)
    case None => f
  }

  /** A state-change log line of the `game_update` handler, carrying the new value. */
  datatype Notice = LockNotice(locked: bool) | ActiveNotice(active: bool) | CountdownNotice(countdown: bool)

  /** The change notices for an update from `before` to `after`, in the handler's order. */
  function ChangeNotices(before: RoundFlags, after: RoundFlags): (notices: seq<Notice>)
    ensures |notices| <= 3
    ensures forall n :: n in notices ==> n in [LockNotice(after.buzzersLocked), ActiveNotice(after.isActive), CountdownNotice(after.countdownActive)]
    ensures LockNotice(after.buzzersLocked) in notices <==> before.buzzersLocked != after.buzzersLocked
    ensures ActiveNotice(after.isActive) in notices <==> before.isActive != after.isActive
    ensures CountdownNotice(after.countdownActive) in notices <==> before.countdownActive != after.countdownActive
    ensures notices == [] <==> before == after
  {
    (if before.buzzersLocked != after.buzzersLocked then [LockNotice(after.buzzersLocked)] else [])
    + (if before.isActive != after.isActive then [ActiveNotice(after.isActive)] else [])
    + (if before.countdownActive != after.countdownActive then [CountdownNotice(after.countdownActive)] else [])
  }

  /** The flags after a sequence of `game_update` events, applied in order. */
  function ApplyAll(f: RoundFlags, ps: seq<UpdatePayload>): RoundFlags
    decreases |ps|
  {
    if ps == [] then f else ApplyPayload(ApplyAll(f, ps[..|ps| - 1]), ps[|ps| - 1])
  }

  /** The game section of the last payload that has one. */
  function LatestGame(ps: seq<UpdatePayload>): Option<GameState>
    decreases |ps|
  {
    if ps == [] then None
    else if GameOf(ps[|ps| - 1]).Some? then GameOf(ps[|ps| - 1])
    else LatestGame(ps[..|ps| - 1])
  }

  /** Last write wins: the flags are those of the latest payload with a game section, or the initial ones. */
  lemma {:induction false} LatestUpdateWins(f: RoundFlags, ps: seq<UpdatePayload>)
    ensures ApplyAll(f, ps) == match LatestGame(ps) case Some(g) => FlagsOf(g) case None => f
  {
    if ps != [] {
      LatestUpdateWins(f, ps[..|ps| - 1]);
    }
  }

  /** A press is eligible iff the latest game section said active, not locked and no countdown. */
  lemma EligibleIffLatestUpdate(f: RoundFlags, ps: seq<UpdatePayload>)
    requires LatestGame(ps).Some?
    ensures BuzzersAvailable(ApplyAll(f, ps)) <==>
      var g := LatestGame(ps).value;
      g.isActive == Some(true) && g.buzzersLocked != Some(true) && g.countdownActive != Some(true)
  {
    LatestUpdateWins(f, ps);
  }

  // ---------------------------------------------------------------------------
  // The join request and the set-once game id

  /** `self.game_id` is truthy: present and not the empty string. */
  predicate IsSet(gameId: Option<string>) {
    gameId.Some? && gameId.value != ""
  }

  datatype GameRecord = GameRecord(id: string)
  /** The JSON body of a 200 response; either key may be missing. */
  datatype JoinBody = JoinBody(game: Option<GameRecord>, playerId: Option<string>)
  /** The outcome of `POST /api/games/join`: a 200 with its body, another status, or a transport failure. */
  datatype JoinResponse = Accepted(body: JoinBody) | Rejected(error: string) | Unreachable
  datatype JoinInfo = JoinInfo(playerId: string, playerName: string, game: GameRecord)

  /** The game id after one `join_game` call. */
  function GameIdAfterJoin(gameId: Option<string>, response: JoinResponse): (r: Option<string>)
    ensures IsSet(gameId) ==> r == gameId
    ensures r != gameId ==> response.Accepted? && response.body.game.Some? && r == Some(response.body.game.value.id)
  {
    if !IsSet(gameId) && response.Accepted? && response.body.game.Some? then Some(response.body.game.value.id)
    else gameId
  }

  /** The game id after a sequence of `join_game` calls. */
  function GameIdAfterJoins(gameId: Option<string>, responses: seq<JoinResponse>): Option<string>
    decreases |responses|
  {
    if responses == [] then gameId
    else GameIdAfterJoin(GameIdAfterJoins(gameId, responses[..|responses| - 1]), responses[|responses| - 1])
  }

  /** Once set, the game id is never changed by any later sequence of joins. */
  lemma {:induction false} GameIdSetOnce(gameId: Option<string>, responses: seq<JoinResponse>)
    requires IsSet(gameId)
    ensures GameIdAfterJoins(gameId, responses) == gameId
  {
    if responses != [] {
      GameIdSetOnce(gameId, responses[..|responses| - 1]);
    }
  }

  /** What `join_game` returns: player info only for a 200 whose body has both keys. */
  function JoinResult(response: JoinResponse, playerName: string): (r: Option<JoinInfo>)
    ensures r.Some? <==> response.Accepted? && response.body.game.Some? && response.body.playerId.Some?
    ensures r.Some? ==>
      r.value.playerName == playerName && r.value.game == response.body.game.value
      && r.value.playerId == response.body.playerId.value
  {
    match response
    case Accepted(body) =>
      if body.game.Some? && body.playerId.Some? then Some(JoinInfo(body.playerId.value, playerName, body.game.value))
      else None
    case _ => None
  }

  // ---------------------------------------------------------------------------
  // Connection retries

  const MaxRetries := 3

  /** Connect attempt `j` (counting from 0) succeeds. */
  predicate AttemptSucceeds(outcomes: seq<bool>, j: nat) {
    j < |outcomes| && outcomes[j]
  }

  /** The first of the attempts `from` .. MaxRetries-1 that succeeds. */
  function FirstSuccess(outcomes: seq<bool>, from: nat): (k: Option<nat>)
    requires from <= MaxRetries
    ensures k.Some? ==>
      from <= k.value < MaxRetries && AttemptSucceeds(outcomes, k.value)
      && forall j :: from <= j < k.value ==> !AttemptSucceeds(outcomes, j)
    ensures k.None? ==> forall j :: from <= j < MaxRetries ==> !AttemptSucceeds(outcomes, j)
    decreases MaxRetries - from
  {
    if from == MaxRetries then None
    else if AttemptSucceeds(outcomes, from) then Some(from)
    else FirstSuccess(outcomes, from + 1)
  }

  /** The number of one-second sleeps `register_player_mapping` makes: one after every failed attempt but the last. */
  function Sleeps(outcomes: seq<bool>): (n: nat)
    ensures n < MaxRetries
  {
    match FirstSuccess(outcomes, 0)
    case Some(k) => k
    case None => MaxRetries - 1
  }

  // ---------------------------------------------------------------------------
  // Connections and the coordinator

  /** Outbound socket traffic of one connection: the `join_game` emit, the `press_buzzer` emit, closing the socket. */
  datatype Outbound = JoinRoom(gameId: string, playerId: string) | PressSignal | CloseSignal

  /** Per-player socket connection (`PlayerConnection`). */
  class PlayerConnection {
    const serverUrl: string
    /** The remote (server-assigned) player id. */
    const playerId: string
    const gameId: string
    const api: GameApi
    var connected: bool
    var outbox: seq<Outbound>

    constructor (serverUrl: string, playerId: string, gameId: string, api: GameApi)
      ensures this.serverUrl == serverUrl && this.playerId == playerId && this.gameId == gameId && this.api == api
      ensures !connected && outbox == []
    {
      this.serverUrl := serverUrl;
      this.playerId := playerId;
      this.gameId := gameId;
      this.api := api;
      connected := false;
      outbox := [];
    }

    /** The socket's `connect` event: mark connected, then announce the player to the room; a failed emit is only logged. */
    method OnConnect(emitOk: bool)
      modifies this
      ensures connected
      ensures outbox == old(outbox) + if emitOk then [JoinRoom(gameId, playerId)] else []
    {
      connected := true;
      if emitOk {
        outbox := outbox + [JoinRoom(gameId, playerId)];
      }
    }

    /** The socket's `disconnect` event. */
    method OnDisconnect()
      modifies this`connected
      ensures !connected
    {
      connected := false;
    }

    /**
     * The socket's `game_update` event. With a game section, all three flags of
     * the coordinator are overwritten (a missing key meaning false), a notice is
     * logged per flag that changed, and the update callback fires if one is set;
     * without one, nothing changes and nothing fires.
     */
    method OnGameUpdate(payload: UpdatePayload) returns (notices: seq<Notice>, callbackFired: bool)
      modifies api`isActive, api`buzzersLocked, api`countdownActive
      ensures api.Flags() == ApplyPayload(old(api.Flags()), payload)
      ensures GameOf(payload).None? ==> notices == [] && !callbackFired
      ensures GameOf(payload).Some? ==> notices == ChangeNotices(old(api.Flags()), api.Flags()) && callbackFired == api.hasUpdateCallback
    {
      notices, callbackFired := [], false;
      if payload.data.Some? && payload.data.value.game.Some? {
        var game := payload.data.value.game.value;
        var before := api.Flags();
        api.buzzersLocked := game.buzzersLocked.GetOr(false);
        api.isActive := game.isActive.GetOr(false);
        api.countdownActive := game.countdownActive.GetOr(false);
        notices := ChangeNotices(before, api.Flags());
        callbackFired := api.hasUpdateCallback;
      }
    }

    /** Emit a press; refused without an emit when not connected, and false when the emit fails. */
    method PressBuzzer(emitOk: bool) returns (ok: bool)
      modifies this`outbox
      ensures ok <==> connected && emitOk
      ensures outbox == old(outbox) + if ok then [PressSignal] else []
    {
      if !connected {
        return false;
      }
      if emitOk {
        outbox := outbox + [PressSignal];
        return true;
      }
      ok := false;
    }

    /** Close the socket if it is connected; errors are only logged. */
    method DisconnectFromServer()
      modifies this`outbox
      ensures outbox == old(outbox) + if connected then [CloseSignal] else []
    {
      if connected {
        outbox := outbox + [CloseSignal];
      }
    }
  }

  /** The coordinator (`GameAPI`). */
  class GameApi {
    const serverUrl: string
    var gameId: Option<string>
    /** Local player id to its connection (`player_connections`). */
    var connections: map<string, PlayerConnection>
    /** Local player id to remote player id (`player_mappings`). */
    var mappings: map<string, string>
    var hasUpdateCallback: bool
    var buzzersLocked: bool
    var isActive: bool
    var countdownActive: bool

    constructor (serverUrl: string)
      ensures this.serverUrl == serverUrl
      ensures gameId == None && connections == map[] && mappings == map[] && !hasUpdateCallback
      ensures Flags() == RoundFlags(false, false, false)
    {
      this.serverUrl := serverUrl;
      gameId := None;
      connections := map[];
      mappings := map[];
      hasUpdateCallback := false;
      buzzersLocked, isActive, countdownActive := false, false, false;
    }

    function Flags(): RoundFlags
      reads this
    {
      RoundFlags(isActive, buzzersLocked, countdownActive)
    }

    /** Some stored connection is connected (`connected`); never with no connection stored. */
    predicate Connected(): (c: bool)
      reads this, connections.Values
      ensures c <==> exists conn :: conn in connections.Values && conn.connected
      ensures connections == map[] ==> !c
    {
      exists id :: id in connections && connections[id].connected
    }

    /** The press path lets a press through to the wire. */
    predicate PressGoesThrough(localId: string, emitOk: bool)
      reads this, connections.Values
    {
      BuzzersAvailable(Flags()) && localId in connections && connections[localId].connected && emitOk
    }

    method SetGameUpdateCallback()
      modifies this`hasUpdateCallback
      ensures hasUpdateCallback
    {
      hasUpdateCallback := true;
    }

    /**
     * `join_game` with the HTTP exchange as `response`: the game id is taken
     * from a 200 response only while it is unset, and player info is returned
     * only when the body carries both the game and the player id.
     */
    method JoinGame(response: JoinResponse, playerName: string) returns (info: Option<JoinInfo>)
      modifies this`gameId
      ensures gameId == GameIdAfterJoin(old(gameId), response)
      ensures info == JoinResult(response, playerName)
    {
      match response {
        case Accepted(body) =>
          if !IsSet(gameId) {
            if body.game.None? {
              return None;
            }
            gameId := Some(body.game.value.id);
          }
          if body.playerId.None? || body.game.None? {
            return None;
          }
          info := Some(JoinInfo(body.playerId.value, playerName, body.game.value));
        case Rejected(_) =>
          info := None;
        case Unreachable =>
          info := None;
      }
    }

    /**
     * Gate a press of a local player: ineligible presses are refused before
     * the connection is looked up, a player without a connection is refused,
     * otherwise the connection's own press decides. `refusal` is the reason
     * logged here.
     */
    method PressBuzzer(localId: string, emitOk: bool) returns (ok: bool, refusal: Option<PressRefusal>)
      modifies connections.Values`outbox
      ensures ok <==> PressGoesThrough(localId, emitOk)
      ensures !BuzzersAvailable(Flags()) ==> refusal == Some(Ineligible(DenialOf(Flags()).value))
      ensures BuzzersAvailable(Flags()) && localId !in connections ==> refusal == Some(NoConnection)
      ensures BuzzersAvailable(Flags()) && localId in connections ==> refusal == None
      ensures forall c :: c in connections.Values ==>
        c.outbox == old(c.outbox) + if ok && c == connections[localId] then [PressSignal] else []
    {
      if !isActive || buzzersLocked || countdownActive {
        return false, Some(Ineligible(DenialOf(Flags()).value));
      }
      if localId !in connections {
        return false, Some(NoConnection);
      }
      ok := connections[localId].PressBuzzer(emitOk);
      refusal := None;
    }

    /**
     * Record `localId -> remoteId`, then, only when the game id is set, try to
     * connect a new connection up to three times, sleeping after each failed
     * attempt but the last; the connection is stored only on success.
     */
    method RegisterPlayerMapping(localId: string, remoteId: string, outcomes: seq<bool>) returns (sleeps: nat)
      modifies this`mappings, this`connections
      ensures mappings == old(mappings)[localId := remoteId]
      ensures !IsSet(gameId) ==> connections == old(connections) && sleeps == 0
      ensures IsSet(gameId) ==> sleeps == Sleeps(outcomes)
      ensures IsSet(gameId) && FirstSuccess(outcomes, 0).Some? ==>
        && localId in connections
        && connections == old(connections)[localId := connections[localId]]
        && fresh(connections[localId])
        && connections[localId].playerId == remoteId && connections[localId].gameId == gameId.value
        && connections[localId].api == this
        && !connections[localId].connected && connections[localId].outbox == []
      ensures IsSet(gameId) && FirstSuccess(outcomes, 0).None? ==> connections == old(connections)
    {
      mappings := mappings[localId := remoteId];
      sleeps := 0;
      if IsSet(gameId) {
        var connection := new PlayerConnection(serverUrl, remoteId, gameId.value, this);
        var attempt := 0;
        while attempt < MaxRetries
          invariant 0 <= attempt <= MaxRetries
          invariant forall j :: 0 <= j < attempt ==> !AttemptSucceeds(outcomes, j)
          invariant sleeps == if attempt < MaxRetries then attempt else MaxRetries - 1
          invariant connections == old(connections)
          invariant FirstSuccess(outcomes, 0) == FirstSuccess(outcomes, attempt)
        {
          if AttemptSucceeds(outcomes, attempt) {
            connections := connections[localId := connection];
            return;
          }
          if attempt < MaxRetries - 1 {
            sleeps := sleeps + 1;
          }
          attempt := attempt + 1;
        }
      }
    }

    /** A copy of the local-to-remote id table (`get_registered_players`). */
    method GetRegisteredPlayers() returns (players: map<string, string>)
      ensures players == mappings
    {
      players := mappings;
    }

    /**
     * Close every stored connection that is connected, then forget them all;
     * the id table and the game id are kept.
     */
    method DisconnectFromServer()
      modifies this`connections, connections.Values`outbox
      ensures connections == map[]
      ensures !Connected()
      ensures forall c :: c in old(connections.Values) ==>
        c.outbox == old(c.outbox) + if c.connected then [CloseSignal] else []
    {
      var pending := connections.Values;
      while pending != {}
        invariant pending <= old(connections.Values)
        invariant connections == old(connections)
        invariant forall c :: c in old(connections.Values) ==>
          c.outbox == old(c.outbox) + if c !in pending && c.connected then [CloseSignal] else []
        decreases pending
      {
        var c :| c in pending;
        c.DisconnectFromServer();
        pending := pending - {c};
      }
      connections := map[];
    }
  }

  /** Why the coordinator itself refused a press. */
  datatype PressRefusal = Ineligible(reason: Denial) | NoConnection
}
