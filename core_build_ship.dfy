/** `build_ship <planet_name> <ship_type>` of the newer crate (`colony_core::commands::build_ship`):
  * a chain of read-only checks, each with its own error, ending in a `BuildShip` effect. */
module CoreBuildShip {
  import opened Ints
  import opened Wrappers
  import opened ProtocolResources
  import opened CoreShipConfig
  import opened CommandTypes

  const Usage := "build_ship <planet_name> <ship_type>"

  /** The structure whose level gates ship types. */
  const OrbitalShipyard := "orbital_shipyard"

  /** `BuildShipArgs::parse`: the first two arguments, in order; anything after them is ignored. */
  function ParseArgs(args: seq<string>): (r: Result<BuildShipArgs, CommandError>)
    ensures r.Ok? <==> |args| >= 2
    ensures r.Ok? ==> [r.value.planetName, r.value.shipName] == args[..2]
    ensures r.Err? ==> r.error == MissingArguments("build_ship", Usage)
  {
    if |args| < 2 then Err(MissingArguments("build_ship", Usage))
    else Ok(BuildShipArgs(args[0], args[1]))
  }

  /** Every check of `execute` passes: the planet exists and is the current player's, the ship
    * type is in the catalogue, the planet's shipyard is at least at the level the type needs, and
    * the planet's stock covers its cost. */
  predicate Accepts(a: BuildShipArgs, game: GameState) {
    var planetId := game.nameToId(a.planetName);
    var shipId := game.nameToId(a.shipName);
    planetId in game.planets && game.planets[planetId].owner == Some(game.currentPlayer)
    && shipId in game.shipConfig.ships
    && game.planets[planetId].GetStructureLevel(OrbitalShipyard) >= game.shipConfig.ships[shipId].requiredShipyardLevel
    && HasEnough(game.planets[planetId].availableResources, game.shipConfig.ships[shipId].cost)
  }

  /** `execute`. The checks run in the order of `Accepts`; the first that fails decides the error. */
  function Execute(a: BuildShipArgs, game: GameState): (r: Result<CommandEffect, CommandError>)
    ensures r.Ok? <==> Accepts(a, game)
    ensures r.Ok? ==> r.value == BuildShip(game.nameToId(a.planetName), game.nameToId(a.shipName))
    ensures game.nameToId(a.planetName) !in game.planets ==> r == Err(UnknownPlanet(a.planetName))
    ensures game.nameToId(a.planetName) in game.planets ==>
      var p := game.planets[game.nameToId(a.planetName)];
      && (p.owner.None? ==> r == Err(PlanetNotOwned(a.planetName)))
      && (p.owner.Some? && p.owner.value != game.currentPlayer ==> r == Err(WrongPlanetOwner(a.planetName)))
      && (p.owner == Some(game.currentPlayer) && game.nameToId(a.shipName) !in game.shipConfig.ships ==>
          r == Err(UnknownShip(a.shipName)))
    ensures (game.nameToId(a.planetName) in game.planets && game.nameToId(a.shipName) in game.shipConfig.ships
             && game.planets[game.nameToId(a.planetName)].owner == Some(game.currentPlayer)) ==>
      var p := game.planets[game.nameToId(a.planetName)];
      var d := game.shipConfig.ships[game.nameToId(a.shipName)];
      && (p.GetStructureLevel(OrbitalShipyard) < d.requiredShipyardLevel ==>
          r == Err(ShipyardLevelTooLow(d.requiredShipyardLevel, p.GetStructureLevel(OrbitalShipyard))))
      && (p.GetStructureLevel(OrbitalShipyard) >= d.requiredShipyardLevel && !HasEnough(p.availableResources, d.cost) ==>
          r == Err(NotEnoughResources(a.planetName, d.cost)))
  {
    var planetId := game.nameToId(a.planetName);
    if planetId !in game.planets then Err(UnknownPlanet(a.planetName))
    else
      var planet := game.planets[planetId];
      match CheckOwner(planet.owner, game.currentPlayer, a.planetName)
      case Err(e) => Err(e)
      case Ok(_) =>
        var shipId := game.nameToId(a.shipName);
        match game.shipConfig.Get(shipId)
        case None => Err(UnknownShip(a.shipName))
        case Some(shipDef) =>
          var shipyardLevel := planet.GetStructureLevel(OrbitalShipyard);
          if shipyardLevel < shipDef.requiredShipyardLevel then
            Err(ShipyardLevelTooLow(shipDef.requiredShipyardLevel, shipyardLevel))
          else if !HasEnough(planet.availableResources, shipDef.cost) then
            Err(NotEnoughResources(a.planetName, shipDef.cost))
          else Ok(BuildShip(planetId, shipId))
  }

  /** A ship type that needs a shipyard can be built only on a planet that has one; a type that
    * needs none (level 0) never fails on the shipyard check. */
  lemma ShipyardGate(a: BuildShipArgs, game: GameState)
    requires game.nameToId(a.planetName) in game.planets && game.nameToId(a.shipName) in game.shipConfig.ships
    ensures (game.shipConfig.ships[game.nameToId(a.shipName)].requiredShipyardLevel > 0
             && OrbitalShipyard !in game.planets[game.nameToId(a.planetName)].structures) ==> Execute(a, game).Err?
    ensures game.shipConfig.ships[game.nameToId(a.shipName)].requiredShipyardLevel == 0 ==>
      !Execute(a, game).Err? || !Execute(a, game).error.ShipyardLevelTooLow?
  {
  }
}
