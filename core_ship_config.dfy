/** The ship catalogue of the newer crate (`colony_core::configs::ship_config`): decoded ship
  * definitions are inserted by id, and the load is accepted only when every ship a definition
  * names as one it counters is itself in the catalogue. The cost of a ship is the saturating
  * `Resources` of the older crate, which is the one this file imports. */
module CoreShipConfig {
  import opened Ints
  import opened Wrappers
  import opened ProtocolResources
  import opened FirstFailure

  type ShipId = string

  datatype ShipDefinition = ShipDefinition(
    id: ShipId,
    name: string,
    description: string,
    attack: U32,
    shield: U32,
    bombardment: U32,
    cost: Resources,
    buildTime: U32,
    counters: seq<ShipId>,
    requiredShipyardLevel: U16)

  datatype ShipConfigError = InvalidCounterReference(shipName: string, counterId: ShipId)

  datatype ShipConfig = ShipConfig(ships: map<ShipId, ShipDefinition>) {
    /** `get`. */
    function Get(id: ShipId): (r: Option<ShipDefinition>)
      ensures r.Some? <==> id in ships
      ensures r.Some? ==> r.value == ships[id]
    {
      if id in ships then Some(ships[id]) else None
    }
  }

  /** One counter reference of the ship called `shipName`: it must name a loaded ship. */
  function CheckCounter(ships: map<ShipId, ShipDefinition>, shipName: string, counterId: ShipId)
    : Result<Unit, ShipConfigError>
  {
    if counterId in ships then Ok(Unit) else Err(InvalidCounterReference(shipName, counterId))
  }

  /** The inner loop of `validate_counters`: the first counter of `ship` that is not loaded. */
  function CheckShip(ships: map<ShipId, ShipDefinition>, ship: ShipDefinition): (r: Result<Unit, ShipConfigError>)
    ensures r.Ok? <==> forall j :: 0 <= j < |ship.counters| ==> ship.counters[j] in ships
    ensures r.Err? ==>
      exists j :: 0 <= j < |ship.counters| && ship.counters[j] !in ships
        && (forall i :: 0 <= i < j ==> ship.counters[i] in ships)
        && r.error == InvalidCounterReference(ship.name, ship.counters[j])
  {
    match FirstError(ship.counters, c => CheckCounter(ships, ship.name, c))
    case None => Ok(Unit)
    case Some(e) => Err(e)
  }

  /** Every id `order` lists is a key of `ships`. */
  predicate Listed(order: seq<ShipId>, ships: map<ShipId, ShipDefinition>) {
    forall i :: 0 <= i < |order| ==> order[i] in ships
  }

  /** `order` lists every key of `ships` exactly once, and nothing else: the iteration order of the
    * source's hash map, which the model leaves open. */
  predicate Enumerates(order: seq<ShipId>, ships: map<ShipId, ShipDefinition>) {
    Listed(order, ships)
    && (forall k :: k in ships ==> k in order)
    && (forall i, j :: 0 <= i < j < |order| ==> order[i] != order[j])
  }

  /** Every counter of every ship in `ships` is itself a key of `ships`. */
  predicate CountersClosed(ships: map<ShipId, ShipDefinition>) {
    forall k, j :: k in ships && 0 <= j < |ships[k].counters| ==> ships[k].counters[j] in ships
  }

  /** `validate_counters`, visiting the ships in `order`: the first ship with a counter that is not
    * loaded, and the first such counter of that ship. */
  function ValidateCounters(ships: map<ShipId, ShipDefinition>, order: seq<ShipId>): Result<Unit, ShipConfigError>
    requires Listed(order, ships)
  {
    if order == [] then Ok(Unit)
    else
      var head := CheckShip(ships, ships[order[0]]);
      if head.Err? then head
      else ValidateCounters(ships, order[1..])
  }

  /** Validation accepts if and only if every counter of every visited ship is loaded; otherwise
    * its error is that of the first visited ship that fails. */
  lemma {:induction false} ValidateCountersFirst(ships: map<ShipId, ShipDefinition>, order: seq<ShipId>)
    requires Listed(order, ships)
    ensures ValidateCounters(ships, order).Ok? <==>
      forall i, j :: 0 <= i < |order| && 0 <= j < |ships[order[i]].counters| ==> ships[order[i]].counters[j] in ships
    ensures ValidateCounters(ships, order).Err? ==>
      exists i :: 0 <= i < |order| && CheckShip(ships, ships[order[i]]) == ValidateCounters(ships, order)
        && forall h :: 0 <= h < i ==> CheckShip(ships, ships[order[h]]).Ok?
  {
    if order != [] && CheckShip(ships, ships[order[0]]).Ok? {
      var rest := order[1..];
      ValidateCountersFirst(ships, rest);
      var r := ValidateCounters(ships, rest);
      assert forall i :: 1 <= i < |order| ==> order[i] == rest[i - 1];
      if r.Err? {
        var i :| 0 <= i < |rest| && CheckShip(ships, ships[rest[i]]) == r
          && forall h :: 0 <= h < i ==> CheckShip(ships, ships[rest[h]]).Ok?;
        assert order[i + 1] == rest[i];
        assert forall h :: 0 <= h < i + 1 ==> CheckShip(ships, ships[order[h]]).Ok?;
      }
    }
  }

  /** Whatever order the map is visited in, validation accepts exactly the catalogues whose counter
    * references are all loaded; and a rejection names a ship of the catalogue and a counter of it
    * that is missing. */
  lemma ValidateCountersAcceptsClosed(ships: map<ShipId, ShipDefinition>, order: seq<ShipId>)
    requires Enumerates(order, ships)
    ensures ValidateCounters(ships, order).Ok? <==> CountersClosed(ships)
    ensures ValidateCounters(ships, order).Err? ==>
      exists k, j :: k in ships && 0 <= j < |ships[k].counters| && ships[k].counters[j] !in ships
        && ValidateCounters(ships, order).error == InvalidCounterReference(ships[k].name, ships[k].counters[j])
  {
    ValidateCountersFirst(ships, order);
    var r := ValidateCounters(ships, order);
    if r.Ok? {
      forall k, j | k in ships && 0 <= j < |ships[k].counters| ensures ships[k].counters[j] in ships {
        var i :| 0 <= i < |order| && order[i] == k;
      }
    } else {
      var i :| 0 <= i < |order| && CheckShip(ships, ships[order[i]]) == r;
      var j :| 0 <= j < |ships[order[i]].counters| && ships[order[i]].counters[j] !in ships
        && r.error == InvalidCounterReference(ships[order[i]].name, ships[order[i]].counters[j]);
    }
  }

  /** The map the insertion loop builds: definitions inserted in order, so a later definition with
    * the same id replaces an earlier one. */
  function Inserted(defs: seq<ShipDefinition>): (m: map<ShipId, ShipDefinition>)
    ensures m.Keys == set k | 0 <= k < |defs| :: defs[k].id
    ensures forall id :: id in m ==> m[id].id == id
  {
    if defs == [] then map[]
    else
      var init := defs[..|defs| - 1];
      var m := Inserted(init)[defs[|defs| - 1].id := defs[|defs| - 1]];
      assert (set k | 0 <= k < |defs| :: defs[k].id) == (set k | 0 <= k < |init| :: init[k].id) + {defs[|defs| - 1].id}
      by {
        forall k | 0 <= k < |init| ensures defs[k].id == init[k].id { }
      }
      m
  }

  /** `load_from_string` after decoding: insert every definition, then validate the counters of
    * the whole catalogue, visited in `order`. */
  method Load(definitions: seq<ShipDefinition>, order: seq<ShipId>) returns (r: Result<ShipConfig, ShipConfigError>)
    requires Enumerates(order, Inserted(definitions))
    ensures r.Ok? <==> CountersClosed(Inserted(definitions))
    ensures r.Ok? ==> r.value == ShipConfig(Inserted(definitions))
    ensures r.Err? ==> ValidateCounters(Inserted(definitions), order) == Err(r.error)
  {
    var ships: map<ShipId, ShipDefinition> := map[];
    for i := 0 to |definitions|
      invariant ships == Inserted(definitions[..i])
    {
      var ship := definitions[i];
      assert definitions[..i + 1][..i] == definitions[..i];
      ships := ships[ship.id := ship];
    }
    assert definitions[..|definitions|] == definitions;
    ValidateCountersAcceptsClosed(ships, order);
    var valid := ValidateCounters(ships, order);
    if valid.Err? {
      return Err(valid.error);
    }
    r := Ok(ShipConfig(ships));
  }

  /** After a load, `get` finds every loaded id, with the last definition that carried it. */
  lemma {:induction false} InsertedLookup(defs: seq<ShipDefinition>, k: nat)
    requires k < |defs|
    requires forall j :: k < j < |defs| ==> defs[j].id != defs[k].id
    ensures ShipConfig(Inserted(defs)).Get(defs[k].id) == Some(defs[k])
    decreases |defs|
  {
    var init := defs[..|defs| - 1];
    if k < |defs| - 1 {
      forall j | k < j < |init| ensures init[j].id != init[k].id {
        assert init[j] == defs[j];
      }
      InsertedLookup(init, k);
      assert init[k] == defs[k];
    }
  }

  /** A ship may list its own type among the ships it counters: that reference is always loaded. */
  lemma OwnTypeIsAValidCounter(defs: seq<ShipDefinition>, k: nat, j: nat)
    requires k < |defs| && j < |defs[k].counters| && defs[k].counters[j] == defs[k].id
    ensures CheckCounter(Inserted(defs), defs[k].name, defs[k].counters[j]) == Ok(Unit)
  {
  }
}
