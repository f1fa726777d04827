/**
 * The buzzer monitor (`buzzer_monitor.py`): a two-state machine (stopped,
 * monitoring) that builds a pin-to-player table from the enabled roster when it
 * starts, resolves each hardware trigger to a player, drops triggers that come
 * less than 500 ms after that player's last accepted one, and forwards the rest
 * to the coordinator while some player is connected.
 *
 * Time is integer milliseconds, passed in by the caller. The GPIO layer is left
 * out: a trigger on a pin is a call of `PinCallback`.
 */
module Monitor {
  import opened Wrappers
  import opened Roster
  import opened Session

  const DebounceWindowMs := 500

  // ---------------------------------------------------------------------------
  // Debounce

  /** A trigger of `id` at `now` is not debounced by the record `last`. */
  predicate Accepts(last: map<string, int>, id: string, now: int): (accepted: bool)
    ensures id !in last ==> accepted
    ensures id in last ==> (accepted <==> now >= last[id] + DebounceWindowMs)
  {
    !(id in last && now - last[id] < DebounceWindowMs)
  }

  /** The debounce record after a trigger of `id` at `now`. */
  function RecordAfter(last: map<string, int>, id: string, now: int): (r: map<string, int>)
    ensures id in r
    ensures Accepts(last, id, now) ==> r[id] == now
    ensures !Accepts(last, id, now) ==> r == last
    ensures forall q :: q != id ==> (q in r <==> q in last)
    ensures forall q :: q != id && q in last ==> r[q] == last[q]
  {
    if Accepts(last, id, now) then last[id := now] else last
  }

  datatype Trigger = Trigger(player: string, time: int)

  /** The debounce record after a sequence of triggers (each already resolved to a player). */
  function RecordAfterAll(last: map<string, int>, ts: seq<Trigger>): map<string, int>
    decreases |ts|
  {
    if ts == [] then last
    else RecordAfter(RecordAfterAll(last, ts[..|ts| - 1]), ts[|ts| - 1].player, ts[|ts| - 1].time)
  }

  /** Trigger `i` of `ts` is accepted, given the record before the first trigger. */
  predicate AcceptedAt(last: map<string, int>, ts: seq<Trigger>, i: nat)
    requires i < |ts|
  {
    Accepts(RecordAfterAll(last, ts[..i]), ts[i].player, ts[i].time)
  }

  /** After an accepted trigger, its player's record never falls below that trigger's time. */
  lemma {:induction false} RecordNotBelow(last: map<string, int>, ts: seq<Trigger>, i: nat, k: nat)
    requires i < k <= |ts| && AcceptedAt(last, ts, i)
    ensures ts[i].player in RecordAfterAll(last, ts[..k])
    ensures RecordAfterAll(last, ts[..k])[ts[i].player] >= ts[i].time
  {
    assert ts[..k][..k - 1] == ts[..k - 1];
    if k > i + 1 {
      RecordNotBelow(last, ts, i, k - 1);
    }
  }

  /** Two accepted triggers of one player are at least the debounce window apart. */
  lemma AcceptedTriggersSpaced(last: map<string, int>, ts: seq<Trigger>, i: nat, j: nat)
    requires i < j < |ts| && ts[i].player == ts[j].player
    requires AcceptedAt(last, ts, i) && AcceptedAt(last, ts, j)
    ensures ts[j].time >= ts[i].time + DebounceWindowMs
  {
    RecordNotBelow(last, ts, i, j);
  }

  /** While no further trigger of its player arrives, an accepted trigger's time stays that player's record. */
  lemma {:induction false} RecordStays(last: map<string, int>, ts: seq<Trigger>, i: nat, k: nat)
    requires i < k <= |ts| && AcceptedAt(last, ts, i)
    requires forall m :: i < m < k ==> ts[m].player != ts[i].player
    ensures ts[i].player in RecordAfterAll(last, ts[..k])
    ensures RecordAfterAll(last, ts[..k])[ts[i].player] == ts[i].time
  {
    assert ts[..k][..k - 1] == ts[..k - 1];
    if k > i + 1 {
      RecordStays(last, ts, i, k - 1);
    }
  }

  /**
   * The next trigger of a player after an accepted one is accepted exactly when
   * it comes at least the debounce window later.
   */
  lemma NextTriggerAcceptedIffSpaced(last: map<string, int>, ts: seq<Trigger>, i: nat, j: nat)
    requires i < j < |ts| && ts[i].player == ts[j].player && AcceptedAt(last, ts, i)
    requires forall m :: i < m < j ==> ts[m].player != ts[i].player
    ensures AcceptedAt(last, ts, j) <==> ts[j].time >= ts[i].time + DebounceWindowMs
  {
    RecordStays(last, ts, i, j);
  }

  // ---------------------------------------------------------------------------
  // The pin-to-player table

  /**
   * `pins` is a table built from `enabled`: every enabled player's pin is a key,
   * and every key maps to an enabled player on that pin.
   */
  ghost predicate IsPinMapOf(pins: map<int, string>, enabled: Players): (built: bool)
    ensures built ==> pins.Keys == UsedPins(enabled)
  {
    var built :=
      && (forall id :: id in enabled ==> enabled[id].gpioPin in pins)
      && (forall pin :: pin in pins ==> pins[pin] in enabled && enabled[pins[pin]].gpioPin == pin);
    assert built ==> pins.Keys == UsedPins(enabled) by {
      if built {
        forall pin | pin in UsedPins(enabled) ensures pin in pins {
          assert PinInUse(enabled, pin, None);
        }
        forall pin | pin in pins ensures pin in UsedPins(enabled) {
          assert NotExcluded(pins[pin], None);
        }
      }
    }
    built
  }

  /** With unique pins the table is exact: each enabled player's pin maps back to that player. */
  lemma PinMapExact(pins: map<int, string>, enabled: Players)
    requires IsPinMapOf(pins, enabled) && PinsUnique(enabled)
    ensures pins.Keys == UsedPins(enabled)
    ensures forall id :: id in enabled ==> pins[enabled[id].gpioPin] == id
  {
    forall id | id in enabled ensures pins[enabled[id].gpioPin] == id {
      var other := pins[enabled[id].gpioPin];
      assert enabled[other].gpioPin == enabled[id].gpioPin;
    }
  }

  /** A mapped pin: present, with a non-empty player id (`if mapped_player_id`). */
  predicate Mapped(pins: map<int, string>, pin: int): (mapped: bool)
    ensures mapped ==> pin in pins
    ensures pin in pins ==> (mapped <==> |pins[pin]| > 0)
  {
    pin in pins && pins[pin] != ""
  }

  /** What became of one trigger. */
  datatype TriggerOutcome =
    | PlayerNotFound      // `mock_buzzer_press` for an id not in the roster
    | Unmapped            // no player on the pin: a warning, nothing else
    | Debounced           // dropped inside the debounce window
    | Offline             // accepted, but no player is connected: not forwarded
    | Forwarded(ok: bool) // accepted and passed to the coordinator's press, with its result

  class BuzzerMonitor {
    const api: GameApi
    const roster: PlayerManager
    var monitoring: bool
    /** Player id to the time of its last accepted trigger (`last_buzzer_times`). */
    var lastBuzzerTimes: map<string, int>
    var pinToPlayer: map<int, string>

    constructor (api: GameApi, roster: PlayerManager)
      ensures this.api == api && this.roster == roster
      ensures !monitoring && lastBuzzerTimes == map[] && pinToPlayer == map[]
    {
      this.api := api;
      this.roster := roster;
      monitoring := false;
      lastBuzzerTimes := map[];
      pinToPlayer := map[];
    }

    /**
     * The effect of handling a trigger of `id` at `now`: the debounce record is
     * updated, the outcome follows debounce then connectivity, and the only
     * traffic is the press of `id`'s connection when it went through.
     */
    twostate predicate HandledAs(id: string, now: int, emitOk: bool, outcome: TriggerOutcome)
      reads this, api, api.connections.Values
    {
      && lastBuzzerTimes == RecordAfter(old(lastBuzzerTimes), id, now)
      && (if !Accepts(old(lastBuzzerTimes), id, now) then outcome == Debounced
          else if !old(api.Connected()) then outcome == Offline
          else outcome == Forwarded(old(api.PressGoesThrough(id, emitOk))))
      && api.connections == old(api.connections)
      && forall c :: c in old(api.connections.Values) ==>
           c.outbox == old(c.outbox) + if outcome == Forwarded(true) && c == api.connections[id] then [PressSignal] else []
    }

    /** Start monitoring; a no-op while already monitoring. */
    method StartMonitoring()
      modifies this`monitoring, this`pinToPlayer
      ensures monitoring
      ensures old(monitoring) ==> pinToPlayer == old(pinToPlayer)
      ensures !old(monitoring) ==> IsPinMapOf(pinToPlayer, EnabledPlayers(roster.players))
      ensures !old(monitoring) && PinsUnique(roster.players) ==>
        && pinToPlayer.Keys == UsedPins(EnabledPlayers(roster.players))
        && forall id :: id in roster.players && roster.players[id].enabled ==> pinToPlayer[roster.players[id].gpioPin] == id
    {
      if monitoring {
        return;
      }
      monitoring := true;
      var enabled := EnabledPlayers(roster.players);
      pinToPlayer := map[];
      var pending := enabled.Keys;
      while pending != {}
        invariant monitoring
        invariant pending <= enabled.Keys
        invariant forall id :: id in enabled && id !in pending ==> enabled[id].gpioPin in pinToPlayer
        invariant forall pin :: pin in pinToPlayer ==> pinToPlayer[pin] in enabled && enabled[pinToPlayer[pin]].gpioPin == pin
        decreases pending
      {
        var id :| id in pending;
        pinToPlayer := pinToPlayer[enabled[id].gpioPin := id];
        pending := pending - {id};
      }
      if PinsUnique(roster.players) {
        EnabledKeepsPinsUnique(roster.players);
        PinMapExact(pinToPlayer, enabled);
      }
    }

    /** Stop monitoring and forget the pin table; the debounce record is kept. */
    method StopMonitoring()
      modifies this`monitoring, this`pinToPlayer
      ensures !monitoring && pinToPlayer == map[]
    {
      monitoring := false;
      pinToPlayer := map[];
    }

    /** Debounce a trigger of `id` at `now`, then forward it if some player is connected (`_handle_buzzer`). */
    method HandleBuzzer(id: string, now: int, emitOk: bool) returns (outcome: TriggerOutcome)
      modifies this`lastBuzzerTimes, api.connections.Values`outbox
      ensures HandledAs(id, now, emitOk, outcome)
    {
      if id in lastBuzzerTimes && now - lastBuzzerTimes[id] < DebounceWindowMs {
        return Debounced;
      }
      lastBuzzerTimes := lastBuzzerTimes[id := now];
      if api.Connected() {
        var ok, _ := api.PressBuzzer(id, emitOk);
        outcome := Forwarded(ok);
      } else {
        outcome := Offline;
      }
    }

    /** A trigger on `pin`: resolved through the pin table, an unmapped pin is only logged. */
    method PinCallback(pin: int, now: int, emitOk: bool) returns (outcome: TriggerOutcome)
      modifies this`lastBuzzerTimes, api.connections.Values`outbox
      ensures Mapped(pinToPlayer, pin) ==> HandledAs(pinToPlayer[pin], now, emitOk, outcome)
      ensures !Mapped(pinToPlayer, pin) ==>
        outcome == Unmapped && lastBuzzerTimes == old(lastBuzzerTimes) && unchanged(api.connections.Values)
    {
      if Mapped(pinToPlayer, pin) {
        outcome := HandleBuzzer(pinToPlayer[pin], now, emitOk);
      } else {
        outcome := Unmapped;
      }
    }

    /** Simulate a press of the player `id`: a trigger on the pin the roster gives it, if it is in the roster. */
    method MockBuzzerPress(id: string, now: int, emitOk: bool) returns (outcome: TriggerOutcome)
      modifies this`lastBuzzerTimes, api.connections.Values`outbox
      ensures id !in roster.players ==>
        outcome == PlayerNotFound && lastBuzzerTimes == old(lastBuzzerTimes) && unchanged(api.connections.Values)
      ensures id in roster.players && Mapped(pinToPlayer, roster.players[id].gpioPin) ==>
        HandledAs(pinToPlayer[roster.players[id].gpioPin], now, emitOk, outcome)
      ensures id in roster.players && !Mapped(pinToPlayer, roster.players[id].gpioPin) ==>
        outcome == Unmapped && lastBuzzerTimes == old(lastBuzzerTimes) && unchanged(api.connections.Values)
    {
      if id !in roster.players {
        return PlayerNotFound;
      }
      outcome := PinCallback(roster.players[id].gpioPin, now, emitOk);
    }
  }
}
