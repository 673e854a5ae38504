/** `status` of the older crate (`colony_protocol::commands::status`): the target of the report,
  * the one way producing the report can fail, a planet id that is not on the map, and the one way
  * it can panic, a player report without a current player. The report text itself is not
  * modelled. */
module ProtocolStatus {
  import opened Wrappers
  import opened CommandTypes
  import opened ProtocolPlanet

  const Usage := "status <planets|planet <id>|player>"
  const PlanetUsage := "status planet <planet_id>"
  const ValidTargets := "valid targets are: planets, planet <id>, player"

  /** The words a user types for a target. */
  function TargetTokens(t: StatusTarget): seq<string> {
    match t
    case TurnTarget => ["turn"]
    case PlanetsTarget => ["planets"]
    case PlanetTarget(id) => ["planet", id]
    case PlayerTarget => ["player"]
  }

  /** `StatusArgs::parse`. */
  function ParseArgs(args: seq<string>): (r: Result<StatusTarget, CommandError>)
    ensures args == [] ==> r == Err(MissingArguments("status", Usage))
    ensures r.Ok? ==> |TargetTokens(r.value)| <= |args| && args[..|TargetTokens(r.value)|] == TargetTokens(r.value)
    ensures args != [] && args[0] in {"turn", "planets", "player"} ==> r.Ok?
    ensures args != [] && args[0] == "planet" ==>
      (r.Ok? <==> |args| >= 2) && (|args| < 2 ==> r == Err(MissingArguments("status", PlanetUsage)))
    ensures args != [] && args[0] !in {"turn", "planets", "planet", "player"} ==>
      r == Err(InvalidArgument("status", args[0], ValidTargets))
  {
    if args == [] then Err(MissingArguments("status", Usage))
    else if args[0] == "turn" then Ok(TurnTarget)
    else if args[0] == "planets" then Ok(PlanetsTarget)
    else if args[0] == "planet" then
      if |args| < 2 then Err(MissingArguments("status", PlanetUsage))
      else Ok(PlanetTarget(args[1]))
    else if args[0] == "player" then Ok(PlayerTarget)
    else Err(InvalidArgument("status", args[0], ValidTargets))
  }

  /** The lookup `format_planet_detail` starts with. */
  function FindPlanet(id: PlanetId, game: GameState): (r: Result<PlanetData, CommandError>)
    ensures r.Ok? <==> id in game.planets
    ensures r.Ok? ==> r.value == game.planets[id]
    ensures r.Err? ==> r.error == UnknownPlanet(id)
  {
    if id in game.planets then Ok(game.planets[id]) else Err(UnknownPlanet(id))
  }

  /** `execute`, reduced to whether it fails: only a planet report can, and only for an id the map
    * does not have. The player report looks the current player up with `expect` and panics when
    * the player is missing, so it needs that player. */
  function Execute(t: StatusTarget, game: GameState): (r: Result<Unit, CommandError>)
    requires t.PlayerTarget? ==> game.HasCurrentPlayer()
    ensures r.Err? <==> t.PlanetTarget? && t.id !in game.planets
    ensures r.Err? ==> r.error == UnknownPlanet(t.id)
  {
    match t
    case PlanetTarget(id) =>
      (match FindPlanet(id, game) case Ok(_) => Ok(Unit) case Err(e) => Err(e))
    case _ => Ok(Unit)
  }
}
