/** `upgrade <planet_name> <structure_name>` of the older crate (`colony_protocol::commands::upgrade`):
  * like `build`, except that the structure must already stand on the planet. */
module ProtocolUpgrade {
  import opened Wrappers
  import opened CommandTypes
  import opened ProtocolPlanet

  const Usage := "upgrade <planet_name> <structure_name>"

  /** `UpgradeArgs::parse`: the first two arguments, in order; anything after them is ignored. The
    * arguments have the same shape as `build`'s. */
  function ParseArgs(args: seq<string>): (r: Result<BuildArgs, CommandError>)
    ensures r.Ok? <==> |args| >= 2
    ensures r.Ok? ==> [r.value.planetName, r.value.structureName] == args[..2]
    ensures r.Err? ==> r.error == MissingArguments("upgrade", Usage)
  {
    if |args| < 2 then Err(MissingArguments("upgrade", Usage))
    else Ok(BuildArgs(args[0], args[1]))
  }

  /** The reason given when the structure is not on the planet. */
  function NotOnPlanet(structureName: string, planetName: string): string {
    "Structure '" + structureName + "' does not exist on planet '" + planetName + "'"
  }

  /** Every check of `execute` passes. */
  predicate Accepts(a: BuildArgs, game: GameState) {
    var planetId := game.nameToId(a.planetName);
    planetId in game.planets && game.planets[planetId].owner == Some(game.currentPlayer)
    && game.nameToId(a.structureName) in game.planets[planetId].structures
  }

  /** `execute`: the planet lookup, the ownership rule and the presence of the structure on that
    * planet, in that order. */
  function Execute(a: BuildArgs, game: GameState): (r: Result<CommandEffect, CommandError>)
    ensures r.Ok? <==> Accepts(a, game)
    ensures r.Ok? ==> r.value == UpgradeStructure(game.nameToId(a.planetName), game.nameToId(a.structureName))
    ensures game.nameToId(a.planetName) !in game.planets ==> r == Err(UnknownPlanet(a.planetName))
    ensures game.nameToId(a.planetName) in game.planets ==>
      var p := game.planets[game.nameToId(a.planetName)];
      && (p.owner.None? ==> r == Err(PlanetNotOwned(a.planetName)))
      && (p.owner.Some? && p.owner.value != game.currentPlayer ==> r == Err(WrongPlanetOwner(a.planetName)))
      && (p.owner == Some(game.currentPlayer) && game.nameToId(a.structureName) !in p.structures ==>
          r == Err(InvalidArgument("upgrade", a.structureName, NotOnPlanet(a.structureName, a.planetName))))
  {
    var planetId := game.nameToId(a.planetName);
    if planetId !in game.planets then Err(UnknownPlanet(a.planetName))
    else
      var planet := game.planets[planetId];
      match CheckOwner(planet.owner, game.currentPlayer, a.planetName)
      case Err(e) => Err(e)
      case Ok(_) =>
        var structureId := game.nameToId(a.structureName);
        if structureId !in planet.structures then
          Err(InvalidArgument("upgrade", a.structureName, NotOnPlanet(a.structureName, a.planetName)))
        else Ok(UpgradeStructure(planetId, structureId))
  }

  /** An upgrade the command accepts is never refused later by the planet as a structure it does
    * not have. */
  lemma AcceptedUpgradeHasStructure(a: BuildArgs, game: GameState)
    requires Execute(a, game).Ok?
    ensures var e := Execute(a, game).value;
      var p := game.planets[e.planetId];
      p.UpgradeTimeKnown(e.structureId) ==>
        p.ValidateUpgradeStructure(e.structureId) != Err(StructureNotFound(e.structureId, p.id))
  {
  }
}
