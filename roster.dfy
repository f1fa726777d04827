/**
 * The player roster (`player_manager.py`): a store of player records keyed by
 * the local player id, each naming a GPIO pin. Adding and updating refuse a pin
 * that another player already holds; the derived views are the enabled players
 * and the common GPIO pins still free.
 */
module Roster {
  import opened Wrappers

  /** One player's configuration; `enabled` defaults to true when a player is added. */
  datatype PlayerConfig = PlayerConfig(name: string, gpioPin: int, enabled: bool)

  type Players = map<string, PlayerConfig>

  /** Some player other than `exclude` is on `pin` (`is_gpio_pin_used`). */
  predicate PinInUse(players: Players, pin: int, exclude: Option<string>): (used: bool)
    ensures used ==> exists id :: id in players && players[id].gpioPin == pin
    ensures exclude.None? || exclude.value !in players ==>
      (used <==> exists id :: id in players && players[id].gpioPin == pin)
  {
    exists id :: id in players && NotExcluded(id, exclude) && players[id].gpioPin == pin
  }

  /** `id` is not the excluded player (`player_id != exclude_player`). */
  predicate NotExcluded(id: string, exclude: Option<string>) {
    exclude.None? || exclude.value != id
  }

  /** A pin is used by a player other than `id` exactly when it is used in the roster without `id`. */
  lemma PinInUseExcluding(players: Players, pin: int, id: string)
    ensures PinInUse(players, pin, Some(id)) <==> PinInUse(players - {id}, pin, None)
  {
    if PinInUse(players, pin, Some(id)) {
      var other :| other in players && NotExcluded(other, Some(id)) && players[other].gpioPin == pin;
      assert other in players - {id} && NotExcluded(other, None);
    }
    if PinInUse(players - {id}, pin, None) {
      var other :| other in players - {id} && players[other].gpioPin == pin;
      assert NotExcluded(other, Some(id));
    }
  }

  /** No two players share a GPIO pin. */
  predicate PinsUnique(players: Players) {
    forall a, b :: a in players && b in players && a != b ==> players[a].gpioPin != players[b].gpioPin
  }

  /** The pins held by some player (the `used_pins` set of `get_available_gpio_pins`). */
  function UsedPins(players: Players): (pins: set<int>)
    ensures forall pin :: pin in pins <==> PinInUse(players, pin, None)
  {
    set id | id in players :: players[id].gpioPin
  }

  /** The enabled players, with their records (`get_enabled_players`). */
  function EnabledPlayers(players: Players): (enabled: Players)
    ensures enabled.Keys <= players.Keys
    ensures forall id :: id in players ==> (id in enabled <==> players[id].enabled)
    ensures forall id :: id in enabled ==> enabled[id] == players[id]
  {
    map id | id in players && players[id].enabled :: players[id]
  }

  lemma EnabledKeepsPinsUnique(players: Players)
    requires PinsUnique(players)
    ensures PinsUnique(EnabledPlayers(players))
  {
  }

  /** The record of `id`, if there is one (`get_player`). */
  function GetPlayer(players: Players, id: string): (r: Option<PlayerConfig>)
    ensures r.Some? <==> id in players
    ensures r.Some? ==> r.value == players[id]
  {
    if id in players then Some(players[id]) else None
  }

  predicate Increasing(s: seq<int>) {
    forall i, j :: 0 <= i < j < |s| ==> s[i] < s[j]
  }

  /** The GPIO pins offered to users: 2, 3, ..., 27, in ascending order. */
  const CommonPins: seq<int> := [2, 3, 4, 5, 6, 7, 8, 9, 10, 11, 12, 13, 14, 15, 16, 17, 18, 19, 20, 21, 22, 23, 24, 25, 26, 27]

  /** `s` without the elements of `used`, in the order of `s`. */
  function Without(s: seq<int>, used: set<int>): (r: seq<int>)
    ensures |r| <= |s|
    ensures forall x :: x in r <==> x in s && x !in used
    ensures Increasing(s) ==> Increasing(r)
  {
    if s == [] then []
    else
      var rest := Without(s[1..], used);
      if s[0] in used then rest
      else
        assert Increasing(s) ==> forall k :: 0 <= k < |rest| ==> s[0] < rest[k] by {
          if Increasing(s) {
            forall k | 0 <= k < |rest| ensures s[0] < rest[k] {
              assert rest[k] in s[1..];
            }
          }
        }
        [s[0]] + rest
  }

  lemma CommonPinsAre()
    ensures Increasing(CommonPins)
    ensures forall pin :: pin in CommonPins <==> 2 <= pin <= 27
  {
    forall pin | 2 <= pin <= 27 ensures pin in CommonPins {
      assert CommonPins[pin - 2] == pin;
    }
  }

  /** The common pins no player holds (`get_available_gpio_pins`). */
  function AvailablePins(players: Players): (pins: seq<int>)
    ensures Increasing(pins)
    ensures forall pin :: pin in pins <==> 2 <= pin <= 27 && !PinInUse(players, pin, None)
  {
    CommonPinsAre();
    Without(CommonPins, UsedPins(players))
  }

  /** The record `update_player` writes: every absent argument keeps the current field. */
  function Updated(current: PlayerConfig, name: Option<string>, pin: Option<int>, enabled: Option<bool>): (r: PlayerConfig)
    ensures r.name == (if name.Some? then name.value else current.name)
    ensures r.gpioPin == (if pin.Some? then pin.value else current.gpioPin)
    ensures r.enabled == (if enabled.Some? then enabled.value else current.enabled)
    ensures name.None? && pin.None? && enabled.None? ==> r == current
  {
    PlayerConfig(name.GetOr(current.name), pin.GetOr(current.gpioPin), enabled.GetOr(current.enabled))
  }

  /** Whether `update_player` accepts a change of `id`'s pin to `pin`. */
  predicate UpdateAllowed(players: Players, id: string, pin: Option<int>): (allowed: bool)
    ensures allowed ==> id in players
    ensures PinsUnique(players) ==>
      (allowed <==> id in players && (pin.None? || !PinInUse(players, pin.value, Some(id))))
  {
    id in players && (pin.None? || pin.value == players[id].gpioPin || !PinInUse(players, pin.value, Some(id)))
  }

  lemma AddKeepsPinsUnique(players: Players, id: string, config: PlayerConfig)
    requires PinsUnique(players)
    requires !PinInUse(players, config.gpioPin, Some(id))
    ensures PinsUnique(players[id := config])
  {
    var after := players[id := config];
    forall a, b | a in after && b in after && a != b
      ensures after[a].gpioPin != after[b].gpioPin
    {
      if a == id {
        assert b in players && NotExcluded(b, Some(id));
      } else if b == id {
        assert a in players && NotExcluded(a, Some(id));
      }
    }
  }

  lemma UpdateKeepsPinsUnique(players: Players, id: string, name: Option<string>, pin: Option<int>, enabled: Option<bool>)
    requires PinsUnique(players)
    requires UpdateAllowed(players, id, pin)
    ensures PinsUnique(players[id := Updated(players[id], name, pin, enabled)])
  {
    var config := Updated(players[id], name, pin, enabled);
    if config.gpioPin == players[id].gpioPin {
      var after := players[id := config];
      forall a, b | a in after && b in after && a != b
        ensures after[a].gpioPin != after[b].gpioPin
      {
        assert players[a].gpioPin != players[b].gpioPin;
      }
    } else {
      AddKeepsPinsUnique(players, id, config);
    }
  }

  class PlayerManager {
    var players: Players

    /** `loaded` stands for whatever the configuration file held; it may repeat a pin. */
    constructor (loaded: Players)
      ensures players == loaded
    {
      players := loaded;
    }

    method AddPlayer(id: string, name: string, pin: int) returns (ok: bool)
      modifies this
      ensures ok <==> !PinInUse(old(players), pin, Some(id))
      ensures players == if ok then old(players)[id := PlayerConfig(name, pin, true)] else old(players)
      ensures PinsUnique(old(players)) ==> PinsUnique(players)
    {
      if PinInUse(players, pin, Some(id)) {
        return false;
      }
      if PinsUnique(players) {
        AddKeepsPinsUnique(players, id, PlayerConfig(name, pin, true));
      }
      players := players[id := PlayerConfig(name, pin, true)];
      ok := true;
    }

    method RemovePlayer(id: string) returns (ok: bool)
      modifies this
      ensures ok <==> id in old(players)
      ensures id !in players
      ensures players == old(players) - {id}
      ensures PinsUnique(old(players)) ==> PinsUnique(players)
    {
      if id in players {
        players := players - {id};
        return true;
      }
      assert players - {id} == players;
      ok := false;
    }

    method UpdatePlayer(id: string, name: Option<string>, pin: Option<int>, enabled: Option<bool>) returns (ok: bool)
      modifies this
      ensures ok <==> UpdateAllowed(old(players), id, pin)
      ensures players == if ok then old(players)[id := Updated(old(players)[id], name, pin, enabled)] else old(players)
      ensures PinsUnique(old(players)) ==> PinsUnique(players)
    {
      if id !in players {
        return false;
      }
      var current := players[id];
      if pin.Some? && pin.value != current.gpioPin {
        if PinInUse(players, pin.value, Some(id)) {
          return false;
        }
      }
      if PinsUnique(players) {
        UpdateKeepsPinsUnique(players, id, name, pin, enabled);
      }
      players := players[id := Updated(current, name, pin, enabled)];
      ok := true;
    }
  }
}
