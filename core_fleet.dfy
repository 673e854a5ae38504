/** A fleet of the newer crate (`colony_core::fleet`): a named group of ship instances at one
  * planet. Its ship list is kept free of duplicates by `add_ship`, and `remove_ship` takes out
  * the first occurrence. */
module CoreFleet {
  import opened Wrappers
  import opened FirstFailure
  import opened ProtocolShip
  import ProtocolPlanet

  datatype FleetData = FleetData(
    id: FleetId,
    name: string,
    ships: seq<ShipInstanceId>,
    location: ProtocolPlanet.PlanetId)

  predicate NoDuplicates(ships: seq<ShipInstanceId>) {
    forall i, j :: 0 <= i < j < |ships| ==> ships[i] != ships[j]
  }

  /** The list after `add_ship(x)`: `x` is appended unless it is already there. */
  function WithShip(ships: seq<ShipInstanceId>, x: ShipInstanceId): (r: seq<ShipInstanceId>)
    ensures x in r
    ensures forall y :: y in r <==> y in ships || y == x
    ensures |ships| <= |r| <= |ships| + 1 && r[..|ships|] == ships
    ensures NoDuplicates(ships) ==> NoDuplicates(r)
  {
    if x in ships then ships else ships + [x]
  }

  /** The position `remove_ship(x)` removes, the first occurrence of `x`. */
  function PositionOf(ships: seq<ShipInstanceId>, x: ShipInstanceId): Option<nat> {
    FirstIndex(ships, s => s == x)
  }

  /** The list after `remove_ship(x)`, and whether anything was removed. */
  function WithoutShip(ships: seq<ShipInstanceId>, x: ShipInstanceId): (r: (bool, seq<ShipInstanceId>))
    ensures r.0 <==> x in ships
    ensures !r.0 ==> r.1 == ships
    ensures r.0 ==> exists i :: 0 <= i < |ships| && ships[i] == x && x !in ships[..i] && r.1 == ships[..i] + ships[i + 1..]
    ensures multiset(r.1) == multiset(ships) - multiset{x}
  {
    match PositionOf(ships, x)
    case None => (false, ships)
    case Some(i) =>
      assert ships == ships[..i] + [ships[i]] + ships[i + 1..];
      (true, ships[..i] + ships[i + 1..])
  }

  function NewData(id: FleetId, name: string, location: ProtocolPlanet.PlanetId): (f: FleetData)
    ensures f.ships == [] && f.id == id && f.name == name && f.location == location
  {
    FleetData(id, name, [], location)
  }

  /** Adding a ship twice is the same as adding it once. */
  lemma AddIdempotent(ships: seq<ShipInstanceId>, x: ShipInstanceId)
    ensures WithShip(WithShip(ships, x), x) == WithShip(ships, x)
  {
  }

  /** Adding a ship the fleet did not hold and removing it again restores the list. */
  lemma AddThenRemoveRestores(ships: seq<ShipInstanceId>, x: ShipInstanceId)
    requires x !in ships
    ensures WithoutShip(WithShip(ships, x), x) == (true, ships)
  {
    var added := ships + [x];
    var i :| 0 <= i < |added| && added[i] == x && x !in added[..i] && WithoutShip(added, x).1 == added[..i] + added[i + 1..];
    assert i == |ships|;
    assert added[..i] == ships && added[i + 1..] == [];
    assert ships + [] == ships;
  }

  /** In a list without duplicates, removing a ship leaves no copy of it, and keeps the list free of
    * duplicates. */
  lemma RemoveFromDistinct(ships: seq<ShipInstanceId>, x: ShipInstanceId)
    requires NoDuplicates(ships)
    ensures x !in WithoutShip(ships, x).1
    ensures NoDuplicates(WithoutShip(ships, x).1)
  {
    var r := WithoutShip(ships, x).1;
    var p := PositionOf(ships, x);
    if p.Some? {
      var i := p.value;
      assert r == ships[..i] + ships[i + 1..];
      assert forall k :: 0 <= k < |r| ==> r[k] == ships[if k < i then k else k + 1];
    }
  }

  /** `Fleet`, whose ship list is changed in place. */
  class Fleet {
    const id: FleetId
    const name: string
    var ships: seq<ShipInstanceId>
    const location: ProtocolPlanet.PlanetId

    function Data(): FleetData
      reads this
    {
      FleetData(id, name, ships, location)
    }

    /** `new`. */
    constructor New(id: FleetId, name: string, location: ProtocolPlanet.PlanetId)
      ensures Data() == NewData(id, name, location)
    {
      this.id := id;
      this.name := name;
      ships := [];
      this.location := location;
    }

    /** `add_ship`. */
    method AddShip(shipId: ShipInstanceId)
      modifies this
      ensures ships == WithShip(old(ships), shipId)
    {
      if shipId !in ships {
        ships := ships + [shipId];
      }
    }

    /** `remove_ship`: the `position` search, then the removal. */
    method RemoveShip(shipId: ShipInstanceId) returns (removed: bool)
      modifies this
      ensures (removed, ships) == WithoutShip(old(ships), shipId)
    {
      var i := 0;
      while i < |ships| && ships[i] != shipId
        invariant 0 <= i <= |ships|
        invariant forall j :: 0 <= j < i ==> ships[j] != shipId
      {
        i := i + 1;
      }
      if i == |ships| {
        return false;
      }
      assert PositionOf(ships, shipId) == Some(i);
      ships := ships[..i] + ships[i + 1..];
      removed := true;
    }

    /** `is_empty`. */
    predicate IsEmpty()
      reads this
      ensures IsEmpty() <==> ShipCount() == 0
    {
      ships == []
    }

    /** `ship_count`. */
    function ShipCount(): (n: nat)
      reads this
      ensures n == |Data().ships|
    {
      |ships|
    }
  }
}
