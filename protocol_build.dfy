/** `build <planet_name> <structure_name>` of the older crate (`colony_protocol::commands::build`):
  * the argument check, then the read-only validation that turns the arguments into a
  * `BuildStructure` effect or the first error met. */
module ProtocolBuild {
  import opened Wrappers
  import opened CommandTypes
  import opened ProtocolStructureConfig
  import opened ProtocolPlanet

  const Usage := "build <planet_name> <structure_name>"

  /** The words a user types for these arguments. */
  function ArgTokens(a: BuildArgs): seq<string> {
    [a.planetName, a.structureName]
  }

  /** `BuildArgs::parse`: the first two arguments, in order; anything after them is ignored. */
  function ParseArgs(args: seq<string>): (r: Result<BuildArgs, CommandError>)
    ensures r.Ok? <==> |args| >= 2
    ensures r.Ok? ==> ArgTokens(r.value) == args[..2]
    ensures r.Err? ==> r.error == MissingArguments("build", Usage)
  {
    if |args| < 2 then Err(MissingArguments("build", Usage))
    else Ok(BuildArgs(args[0], args[1]))
  }

  /** Every check of `execute` passes: the planet exists, the current player owns it, and the
    * structure catalogue knows the structure. */
  predicate Accepts(a: BuildArgs, game: GameState) {
    var planetId := game.nameToId(a.planetName);
    planetId in game.planets && game.planets[planetId].owner == Some(game.currentPlayer)
    && game.nameToId(a.structureName) in game.structureConfig.structures
  }

  /** `execute`: the planet lookup, the ownership rule and the catalogue lookup, in that order; the
    * first that fails decides the error. */
  function Execute(a: BuildArgs, game: GameState): (r: Result<CommandEffect, CommandError>)
    ensures r.Ok? <==> Accepts(a, game)
    ensures r.Ok? ==> r.value == BuildStructure(game.nameToId(a.planetName), game.nameToId(a.structureName))
    ensures game.nameToId(a.planetName) !in game.planets ==> r == Err(UnknownPlanet(a.planetName))
    ensures game.nameToId(a.planetName) in game.planets ==>
      var owner := game.planets[game.nameToId(a.planetName)].owner;
      && (owner.None? ==> r == Err(PlanetNotOwned(a.planetName)))
      && (owner.Some? && owner.value != game.currentPlayer ==> r == Err(WrongPlanetOwner(a.planetName)))
      && (owner == Some(game.currentPlayer) && game.nameToId(a.structureName) !in game.structureConfig.structures
          ==> r == Err(UnknownStructure(a.structureName)))
  {
    var planetId := game.nameToId(a.planetName);
    if planetId !in game.planets then Err(UnknownPlanet(a.planetName))
    else
      match CheckOwner(game.planets[planetId].owner, game.currentPlayer, a.planetName)
      case Err(e) => Err(e)
      case Ok(_) =>
        var structureId := game.nameToId(a.structureName);
        if game.structureConfig.Get(structureId).None? then Err(UnknownStructure(a.structureName))
        else Ok(BuildStructure(planetId, structureId))
  }

  /** A build the command accepts is never refused later by the planet for want of a definition:
    * the planet's own check finds the structure already built or reads its definition. */
  lemma AcceptedBuildHasDefinition(a: BuildArgs, game: GameState)
    requires Execute(a, game).Ok?
    ensures var e := Execute(a, game).value;
      var p := game.planets[e.planetId];
      e.structureId !in p.structures && |game.structureConfig.structures[e.structureId].upgradeTime| >= 1 ==>
        p.ValidateBuildStructure(e.structureId, game.structureConfig) != Err(StructureDefinitionNotFound(e.structureId))
  {
  }
}
