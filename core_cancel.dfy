/** `cancel <planet_name>` of the newer crate (`colony_core::commands::cancel`): the current
  * player may cancel the pending action on a planet they own. */
module CoreCancel {
  import opened Wrappers
  import opened CommandTypes
  import opened ProtocolPlanet
  import opened ProtocolPlayer

  const Usage := "cancel <planet_name>"
  const NoPendingAction := "No pending action on this planet"

  /** `CancelArgs::parse`: the first argument; anything after it is ignored. */
  function ParseArgs(args: seq<string>): (r: Result<CancelArgs, CommandError>)
    ensures r.Ok? <==> args != []
    ensures r.Ok? ==> r.value.planetName == args[0]
    ensures r.Err? ==> r.error == MissingArguments("cancel", Usage)
  {
    if args == [] then Err(MissingArguments("cancel", Usage))
    else Ok(CancelArgs(args[0]))
  }

  /** The planet exists and the current player owns it: the point where `execute` looks the
    * player up, which panics when the player is missing. */
  predicate ReachesPlayerLookup(a: CancelArgs, game: GameState) {
    var planetId := game.nameToId(a.planetName);
    planetId in game.planets && game.planets[planetId].owner == Some(game.currentPlayer)
  }

  /** Every check of `execute` passes. */
  predicate Accepts(a: CancelArgs, game: GameState) {
    ReachesPlayerLookup(a, game) && game.HasCurrentPlayer()
    && AnyActionOn(game.CurrentPlayer().pendingActions, game.nameToId(a.planetName))
  }

  /** `execute`: the planet lookup, the ownership rule, then a pending action of the current player
    * on that planet, in that order. */
  function Execute(a: CancelArgs, game: GameState): (r: Result<CommandEffect, CommandError>)
    requires ReachesPlayerLookup(a, game) ==> game.HasCurrentPlayer()
    ensures r.Ok? <==> Accepts(a, game)
    ensures r.Ok? ==> r.value == CancelAction(game.nameToId(a.planetName))
    ensures game.nameToId(a.planetName) !in game.planets ==> r == Err(UnknownPlanet(a.planetName))
    ensures game.nameToId(a.planetName) in game.planets ==>
      var p := game.planets[game.nameToId(a.planetName)];
      && (p.owner.None? ==> r == Err(PlanetNotOwned(a.planetName)))
      && (p.owner.Some? && p.owner.value != game.currentPlayer ==> r == Err(WrongPlanetOwner(a.planetName)))
    ensures ReachesPlayerLookup(a, game) && !AnyActionOn(game.CurrentPlayer().pendingActions, game.nameToId(a.planetName)) ==>
      r == Err(InvalidArgument("cancel", a.planetName, NoPendingAction))
  {
    var planetId := game.nameToId(a.planetName);
    if planetId !in game.planets then Err(UnknownPlanet(a.planetName))
    else
      match CheckOwner(game.planets[planetId].owner, game.currentPlayer, a.planetName)
      case Err(e) => Err(e)
      case Ok(_) =>
        var player := game.CurrentPlayer();
        if !AnyActionOn(player.pendingActions, planetId) then
          Err(InvalidArgument("cancel", a.planetName, NoPendingAction))
        else Ok(CancelAction(planetId))
  }

  /** A cancellation the command accepts finds an action to remove: applying it to the player's
    * list takes out exactly one action, one on that planet. */
  lemma AcceptedCancelRemovesAction(a: CancelArgs, game: GameState)
    requires ReachesPlayerLookup(a, game) ==> game.HasCurrentPlayer()
    requires Execute(a, game).Ok?
    ensures var actions := game.CurrentPlayer().pendingActions;
      var removal := RemoveActionOn(actions, Execute(a, game).value.planetId);
      removal.0.Some? && removal.0.value.planetId == game.nameToId(a.planetName)
      && |removal.1| == |actions| - 1
  {
    var actions := game.CurrentPlayer().pendingActions;
    var planetId := game.nameToId(a.planetName);
    var removal := RemoveActionOn(actions, planetId);
    var i :| 0 <= i < |actions| && actions[i] == removal.0.value
      && (forall j :: 0 <= j < i ==> actions[j].planetId != planetId)
      && removal.1 == actions[..i] + actions[i + 1..];
  }
}
