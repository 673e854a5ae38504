/** A player of the older crate (`colony_protocol::player`): the planets they hold, their orders
  * waiting on a cooldown, their ships and fleets, and one counter per ship type from which new
  * ship ids are numbered. */
module ProtocolPlayer {
  import opened Ints
  import opened Wrappers
  import opened FirstFailure
  import opened Text
  import opened CoreShipConfig
  import opened ProtocolShip
  import opened ProtocolPlanet
  import opened ProtocolPendingAction
  import opened CoreFleet

  datatype PlayerData = PlayerData(
    id: PlayerId,
    name: string,
    planets: seq<PlanetId>,
    pendingActions: seq<PendingActionData>,
    ships: map<ShipInstanceId, Ship>,
    fleets: map<FleetId, FleetData>,
    shipIdCounters: map<ShipId, U32>)

  // ---------------------------------------------------------------------------------------------
  // Pending actions, looked up by planet

  /** Some pending action is on `planet` (`has_pending_action_on_planet`). */
  predicate AnyActionOn(actions: seq<PendingActionData>, planet: PlanetId) {
    exists i :: 0 <= i < |actions| && actions[i].planetId == planet
  }

  /** The position of the first pending action on `planet`. */
  function PositionOn(actions: seq<PendingActionData>, planet: PlanetId): Option<nat> {
    FirstIndex(actions, (a: PendingActionData) => a.planetId == planet)
  }

  /** `find_pending_action_on_planet`: the first pending action on `planet`. */
  function FindActionOn(actions: seq<PendingActionData>, planet: PlanetId): (r: Option<PendingActionData>)
    ensures r.Some? <==> AnyActionOn(actions, planet)
    ensures r.Some? ==>
      exists i :: 0 <= i < |actions| && actions[i] == r.value && r.value.planetId == planet
        && forall j :: 0 <= j < i ==> actions[j].planetId != planet
  {
    match PositionOn(actions, planet)
    case None => None
    case Some(i) => Some(actions[i])
  }

  /** `remove_pending_action_on_planet`: the first pending action on `planet`, taken out of the
    * list, and the list that remains. */
  function RemoveActionOn(actions: seq<PendingActionData>, planet: PlanetId)
    : (r: (Option<PendingActionData>, seq<PendingActionData>))
    ensures r.0 == FindActionOn(actions, planet)
    ensures r.0.None? ==> r.1 == actions
    ensures r.0.Some? ==>
      exists i :: 0 <= i < |actions| && actions[i] == r.0.value
        && (forall j :: 0 <= j < i ==> actions[j].planetId != planet)
        && r.1 == actions[..i] + actions[i + 1..]
  {
    match PositionOn(actions, planet)
    case None => (None, actions)
    case Some(i) => (Some(actions[i]), actions[..i] + actions[i + 1..])
  }

  /** At most one pending action per planet, the rule the game keeps. */
  predicate OneActionPerPlanet(actions: seq<PendingActionData>) {
    forall i, j :: 0 <= i < j < |actions| ==> actions[i].planetId != actions[j].planetId
  }

  /** Removal loses nothing else: the removed action and the rest make up the old list. Under the
    * one-action-per-planet rule the planet is then free and the rule still holds. */
  lemma RemoveActionOnFreesPlanet(actions: seq<PendingActionData>, planet: PlanetId)
    ensures var r := RemoveActionOn(actions, planet);
      r.0.Some? ==> multiset(r.1) + multiset{r.0.value} == multiset(actions)
    ensures OneActionPerPlanet(actions) ==>
      !AnyActionOn(RemoveActionOn(actions, planet).1, planet) && OneActionPerPlanet(RemoveActionOn(actions, planet).1)
  {
    var p := PositionOn(actions, planet);
    if p.Some? {
      var i := p.value;
      var rest := actions[..i] + actions[i + 1..];
      assert RemoveActionOn(actions, planet) == (Some(actions[i]), rest);
      assert actions == actions[..i] + [actions[i]] + actions[i + 1..];
      if OneActionPerPlanet(actions) {
        RemovalKeepsRule(actions, i, planet);
      }
    }
  }

  /** Taking out the one action on `planet` at position `i` leaves no action on it, and keeps the
    * one-action-per-planet rule. */
  lemma RemovalKeepsRule(actions: seq<PendingActionData>, i: nat, planet: PlanetId)
    requires i < |actions| && actions[i].planetId == planet && OneActionPerPlanet(actions)
    ensures !AnyActionOn(actions[..i] + actions[i + 1..], planet)
    ensures OneActionPerPlanet(actions[..i] + actions[i + 1..])
  {
    var rest := actions[..i] + actions[i + 1..];
    forall k | 0 <= k < |rest|
      ensures rest[k] == actions[if k < i then k else k + 1]
    {
      if k < i { assert rest[k] == actions[..i][k]; } else { assert rest[k] == actions[i + 1..][k - i]; }
    }
  }

  // ---------------------------------------------------------------------------------------------
  // Ship ids

  /** `format!("{}_{}", ship_type, n)`. */
  function ShipInstanceId(shipType: ShipId, n: nat): ShipInstanceId {
    shipType + "_" + NatToString(n)
  }

  /** The separator of a ship id is its last underscore, since the number has none. */
  lemma SeparatorIsLastUnderscore(shipType: ShipId, n: nat)
    ensures var s := ShipInstanceId(shipType, n);
      |shipType| < |s| && s[|shipType|] == '_' && s[..|shipType|] == shipType
      && s[|shipType| + 1..] == NatToString(n)
      && forall k :: |shipType| < k < |s| ==> s[k] != '_'
  {
    var s := ShipInstanceId(shipType, n);
    var digits := NatToString(n);
    assert forall k :: |shipType| < k < |s| ==> s[k] == digits[k - |shipType| - 1];
  }

  /** Different types or numbers never give the same id. */
  lemma ShipInstanceIdInjective(t1: ShipId, n1: nat, t2: ShipId, n2: nat)
    requires ShipInstanceId(t1, n1) == ShipInstanceId(t2, n2)
    ensures t1 == t2 && n1 == n2
  {
    SeparatorIsLastUnderscore(t1, n1);
    SeparatorIsLastUnderscore(t2, n2);
    assert |t1| == |t2|;
    NatToStringInjective(n1, n2);
  }

  /** The counter of a ship type, 0 before its first ship (`entry(..).or_insert(0)`). */
  function CounterOf(counters: map<ShipId, U32>, shipType: ShipId): U32 {
    if shipType in counters then counters[shipType] else 0
  }

  /** `generate_ship_id`: the counters after the increment, and the id made from the new count. */
  function NextShipId(counters: map<ShipId, U32>, shipType: ShipId): (r: (map<ShipId, U32>, ShipInstanceId))
    requires CounterOf(counters, shipType) < U32_MAX
    ensures CounterOf(r.0, shipType) == CounterOf(counters, shipType) + 1
    ensures forall u :: u != shipType ==> CounterOf(r.0, u) == CounterOf(counters, u)
    ensures r.0.Keys == counters.Keys + {shipType}
    ensures r.1 == ShipInstanceId(shipType, CounterOf(r.0, shipType))
  {
    var n := CounterOf(counters, shipType) + 1;
    (counters[shipType := n], ShipInstanceId(shipType, n))
  }

  /** Two ids generated one after the other for the same type differ, and the first type's counter
    * does not move when another type's ship is numbered. */
  lemma SuccessiveIdsDiffer(counters: map<ShipId, U32>, shipType: ShipId, other: ShipId)
    requires CounterOf(counters, shipType) + 1 < U32_MAX
    requires CounterOf(counters, other) < U32_MAX
    ensures NextShipId(counters, shipType).1 != NextShipId(NextShipId(counters, shipType).0, shipType).1
    ensures other != shipType ==> CounterOf(NextShipId(counters, other).0, shipType) == CounterOf(counters, shipType)
  {
    var first := NextShipId(counters, shipType);
    var second := NextShipId(first.0, shipType);
    if first.1 == second.1 {
      ShipInstanceIdInjective(shipType, CounterOf(first.0, shipType), shipType, CounterOf(second.0, shipType));
    }
  }

  /** Every ship id was issued by a counter: it is `type_n` for some `n` the counter of `type` has
    * already passed. */
  ghost predicate IdsIssued(ships: map<ShipInstanceId, Ship>, counters: map<ShipId, U32>) {
    forall k :: k in ships ==> exists t, n :: 1 <= n <= CounterOf(counters, t) && k == ShipInstanceId(t, n)
  }

  /** `add_ship`: the player with the new ship, and its id. */
  function WithAddedShip(p: PlayerData, shipType: ShipId, location: PlanetId): (r: (PlayerData, ShipInstanceId))
    requires CounterOf(p.shipIdCounters, shipType) < U32_MAX
    ensures r.0.ships == p.ships[r.1 := NewShip(r.1, shipType, location)]
    ensures r.0.shipIdCounters == NextShipId(p.shipIdCounters, shipType).0
    ensures r.0 == p.(ships := r.0.ships, shipIdCounters := r.0.shipIdCounters)
  {
    var (counters, shipId) := NextShipId(p.shipIdCounters, shipType);
    (p.(ships := p.ships[shipId := NewShip(shipId, shipType, location)], shipIdCounters := counters), shipId)
  }

  /** As long as every id was issued by the counters, `add_ship` never overwrites a ship: the new id
    * is unused, and afterwards every id is still one the counters issued. */
  lemma AddShipIdIsFresh(p: PlayerData, shipType: ShipId, location: PlanetId)
    requires CounterOf(p.shipIdCounters, shipType) < U32_MAX
    requires IdsIssued(p.ships, p.shipIdCounters)
    ensures WithAddedShip(p, shipType, location).1 !in p.ships
    ensures |WithAddedShip(p, shipType, location).0.ships| == |p.ships| + 1
    ensures IdsIssued(WithAddedShip(p, shipType, location).0.ships, WithAddedShip(p, shipType, location).0.shipIdCounters)
  {
    var next := NextShipId(p.shipIdCounters, shipType);
    var newCount := CounterOf(next.0, shipType);
    if next.1 in p.ships {
      var t, n :| 1 <= n <= CounterOf(p.shipIdCounters, t) && next.1 == ShipInstanceId(t, n);
      ShipInstanceIdInjective(t, n, shipType, newCount);
    }
    IssuedAfterNext(p.ships, p.shipIdCounters, shipType, NewShip(next.1, shipType, location));
  }

  /** Storing a ship under the next id keeps every id one the counters issued. */
  lemma IssuedAfterNext(ships: map<ShipInstanceId, Ship>, counters: map<ShipId, U32>, shipType: ShipId, ship: Ship)
    requires CounterOf(counters, shipType) < U32_MAX
    requires IdsIssued(ships, counters)
    ensures IdsIssued(ships[NextShipId(counters, shipType).1 := ship], NextShipId(counters, shipType).0)
  {
    var (after, shipId) := NextShipId(counters, shipType);
    var newCount := CounterOf(after, shipType);
    var stored := ships[shipId := ship];
    forall k | k in stored
      ensures exists t, n :: 1 <= n <= CounterOf(after, t) && k == ShipInstanceId(t, n)
    {
      if k == shipId {
        assert 1 <= newCount <= CounterOf(after, shipType) && k == ShipInstanceId(shipType, newCount);
      } else {
        var t, n :| 1 <= n <= CounterOf(counters, t) && k == ShipInstanceId(t, n);
        assert 1 <= n <= CounterOf(after, t);
      }
    }
  }

  // ---------------------------------------------------------------------------------------------
  // The player object

  /** `Player`, whose lists and maps are changed in place. */
  class Player {
    const id: PlayerId
    const name: string
    var planets: seq<PlanetId>
    var pendingActions: seq<PendingActionData>
    var ships: map<ShipInstanceId, Ship>
    var fleets: map<FleetId, FleetData>
    var shipIdCounters: map<ShipId, U32>

    function Data(): PlayerData
      reads this
    {
      PlayerData(id, name, planets, pendingActions, ships, fleets, shipIdCounters)
    }

    /** `new`: no planets, orders, ships, fleets or counters yet. */
    constructor New(id: PlayerId, name: string)
      ensures Data() == PlayerData(id, name, [], [], map[], map[], map[])
      ensures IdsIssued(ships, shipIdCounters)
    {
      this.id := id;
      this.name := name;
      planets := [];
      pendingActions := [];
      ships := map[];
      fleets := map[];
      shipIdCounters := map[];
    }

    /** `has_pending_action_on_planet`. */
    predicate HasPendingActionOnPlanet(planet: PlanetId)
      reads this
    {
      AnyActionOn(pendingActions, planet)
    }

    /** `find_pending_action_on_planet`. */
    function FindPendingActionOnPlanet(planet: PlanetId): Option<PendingActionData>
      reads this
    {
      FindActionOn(pendingActions, planet)
    }

    /** `find_pending_action_on_planet_mut`: the mutable reference is the position of the action in
      * `pendingActions`, through which a caller may update it. */
    method FindPendingActionOnPlanetMut(planet: PlanetId) returns (r: Option<nat>)
      ensures r.None? <==> !HasPendingActionOnPlanet(planet)
      ensures r.Some? ==> r.value < |pendingActions| && Some(pendingActions[r.value]) == FindPendingActionOnPlanet(planet)
    {
      r := PositionOn(pendingActions, planet);
    }

    /** `remove_pending_action_on_planet`: the `position` search, then the removal. */
    method RemovePendingActionOnPlanet(planet: PlanetId) returns (r: Option<PendingActionData>)
      modifies this
      ensures r == RemoveActionOn(old(pendingActions), planet).0
      ensures Data() == old(Data()).(pendingActions := RemoveActionOn(old(pendingActions), planet).1)
    {
      var i := 0;
      while i < |pendingActions| && pendingActions[i].planetId != planet
        invariant 0 <= i <= |pendingActions|
        invariant forall j :: 0 <= j < i ==> pendingActions[j].planetId != planet
      {
        i := i + 1;
      }
      if i == |pendingActions| {
        return None;
      }
      assert PositionOn(pendingActions, planet) == Some(i);
      r := Some(pendingActions[i]);
      pendingActions := pendingActions[..i] + pendingActions[i + 1..];
    }

    /** `generate_ship_id`. */
    method GenerateShipId(shipType: ShipId) returns (shipId: ShipInstanceId)
      requires CounterOf(shipIdCounters, shipType) < U32_MAX
      modifies this
      ensures (shipIdCounters, shipId) == NextShipId(old(shipIdCounters), shipType)
      ensures Data() == old(Data()).(shipIdCounters := shipIdCounters)
    {
      var counter := if shipType in shipIdCounters then shipIdCounters[shipType] else 0;
      counter := counter + 1;
      shipIdCounters := shipIdCounters[shipType := counter];
      shipId := shipType + "_" + NatToString(counter);
    }

    /** `add_ship`. */
    method AddShip(shipType: ShipId, location: PlanetId) returns (shipId: ShipInstanceId)
      requires CounterOf(shipIdCounters, shipType) < U32_MAX
      modifies this
      ensures (Data(), shipId) == WithAddedShip(old(Data()), shipType, location)
    {
      shipId := GenerateShipId(shipType);
      var ship := NewShip(shipId, shipType, location);
      ships := ships[shipId := ship];
    }
  }
}
