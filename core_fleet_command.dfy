/** `fleet <subcommand>` of the newer crate (`colony_core::commands::fleet`): eight subcommands. The
  * create, add, remove and disband rules are the older crate's (`ProtocolFleetCommand`); move,
  * bombard, cancel-bombard and colonize are new, and each checks its conditions in a fixed order,
  * reporting the first that fails. */
module CoreFleetCommand {
  import opened Ints
  import opened Wrappers
  import opened Text
  import opened FirstFailure
  import opened CommandTypes
  import opened ProtocolShip
  import opened ProtocolPlanet
  import opened ProtocolPlayer
  import ProtocolPendingAction
  import ProtocolFleetCommand

  const Usage := "fleet <create|add|remove|disband|move> ..."
  const ValidActions := "valid actions are: create, add, remove, disband, move, bombard, cancel-bombard, colonize"

  /** The subcommands and the fewest words each takes, its own name included. */
  function MinWords(sub: string): nat {
    if sub in {"create", "add", "remove", "move"} then 3 else 2
  }

  const Subcommands := {"create", "add", "remove", "disband", "move", "bombard", "cancel-bombard", "colonize"}

  /** `FleetArgs::parse`. */
  function ParseArgs(args: seq<string>): (r: Result<FleetAction, CommandError>)
    ensures args == [] ==> r == Err(MissingArguments("fleet", Usage))
    ensures r.Ok? ==>
      |ProtocolFleetCommand.ActionTokens(r.value)| <= |args|
      && args[..|ProtocolFleetCommand.ActionTokens(r.value)|] == ProtocolFleetCommand.ActionTokens(r.value)
    ensures r.Ok? && ProtocolFleetCommand.ListsShips(r.value) ==> ProtocolFleetCommand.ActionTokens(r.value) == args
    ensures args != [] && args[0] in Subcommands ==>
      (r.Ok? <==> |args| >= MinWords(args[0]))
      && (r.Err? ==> r.error == MissingArguments(ProtocolFleetCommand.SubcommandUsage(args[0]).0,
                                                 ProtocolFleetCommand.SubcommandUsage(args[0]).1))
    ensures args != [] && args[0] !in Subcommands ==> r == Err(InvalidArgument("fleet", args[0], ValidActions))
  {
    if args == [] then Err(MissingArguments("fleet", Usage))
    else if args[0] == "create" then
      if |args| < 3 then Err(MissingArguments("fleet create", "fleet create <name> <ship_id> [ship_id...]"))
      else Ok(Create(args[1], args[2..]))
    else if args[0] == "add" then
      if |args| < 3 then Err(MissingArguments("fleet add", "fleet add <fleet_id> <ship_id> [ship_id...]"))
      else Ok(Add(args[1], args[2..]))
    else if args[0] == "remove" then
      if |args| < 3 then Err(MissingArguments("fleet remove", "fleet remove <fleet_id> <ship_id> [ship_id...]"))
      else Ok(Remove(args[1], args[2..]))
    else if args[0] == "disband" then
      if |args| < 2 then Err(MissingArguments("fleet disband", "fleet disband <fleet_id>"))
      else Ok(Disband(args[1]))
    else if args[0] == "move" then
      if |args| < 3 then Err(MissingArguments("fleet move", "fleet move <fleet_id> <target_planet>"))
      else Ok(Move(args[1], args[2]))
    else if args[0] == "bombard" then
      if |args| < 2 then Err(MissingArguments("fleet bombard", "fleet bombard <fleet_id>"))
      else Ok(Bombard(args[1]))
    else if args[0] == "cancel-bombard" then
      if |args| < 2 then Err(MissingArguments("fleet cancel-bombard", "fleet cancel-bombard <fleet_id>"))
      else Ok(CancelBombardment(args[1]))
    else if args[0] == "colonize" then
      if |args| < 2 then Err(MissingArguments("fleet colonize", "fleet colonize <fleet_id>"))
      else Ok(Colonize(args[1]))
    else Err(InvalidArgument("fleet", args[0], ValidActions))
  }

  /** A subcommand that names its ship ids (and names at least one) parses back from its own words. */
  lemma ParseActionTokens(a: FleetAction)
    requires ProtocolFleetCommand.ListsShips(a) ==> a.shipIds != []
    ensures ParseArgs(ProtocolFleetCommand.ActionTokens(a)) == Ok(a)
  {
    var args := ProtocolFleetCommand.ActionTokens(a);
    match a
    case Create(name, shipIds) => assert args[1] == name && args[2..] == shipIds;
    case Add(fleetId, shipIds) => assert args[1] == fleetId && args[2..] == shipIds;
    case Remove(fleetId, shipIds) => assert args[1] == fleetId && args[2..] == shipIds;
    case _ =>
  }

  /** The first three checks of move, bombard and colonize: the fleet is the current player's and
    * it has ships. */
  predicate ActiveFleet(p: PlayerData, fleetId: FleetId) {
    fleetId in p.fleets && p.fleets[fleetId].ships != []
  }

  // ---------------------------------------------------------------------------------------------
  // move
  // ---------------------------------------------------------------------------------------------

  /** Every check of `validate_move` before it looks up the planet the fleet is at, which panics
    * when that planet is not on the map. */
  predicate MoveReachesLocation(fleetId: FleetId, target: PlanetId, game: GameState)
    requires game.HasCurrentPlayer()
  {
    var p := game.CurrentPlayer();
    ActiveFleet(p, fleetId) && !HasPendingFleetMove(p, fleetId) && !HasPendingFleetBombardment(p, fleetId)
    && target in game.planets && p.fleets[fleetId].location != target
  }

  /** A lane from `planet` leads to `target`. */
  predicate Connected(planet: PlanetData, target: PlanetId) {
    exists k :: 0 <= k < |planet.connections| && planet.connections[k].to == target
  }

  /** `validate_move`: the fleet exists, has ships, has no pending move, is not bombarding; the
    * target is on the map, is not where the fleet is, and a lane leads there. The move takes the
    * distance of the first such lane. */
  function ValidateMove(fleetId: FleetId, target: PlanetId, game: GameState): (r: Result<CommandEffect, CommandError>)
    requires game.HasCurrentPlayer()
    requires MoveReachesLocation(fleetId, target, game) ==> game.CurrentPlayer().fleets[fleetId].location in game.planets
    ensures r.Ok? <==> (MoveReachesLocation(fleetId, target, game)
                        && Connected(game.planets[game.CurrentPlayer().fleets[fleetId].location], target))
    ensures r.Ok? ==>
      var connections := game.planets[game.CurrentPlayer().fleets[fleetId].location].connections;
      r.value.MoveFleet? && r.value.fleetId == fleetId && r.value.targetPlanet == target
      && (exists k :: 0 <= k < |connections| && connections[k].to == target && r.value.distance == connections[k].distance
            && forall j :: 0 <= j < k ==> connections[j].to != target)
    ensures var p := game.CurrentPlayer();
      && (fleetId !in p.fleets ==> r == Err(InvalidArgument("fleet move", fleetId, "fleet not found")))
      && (fleetId in p.fleets && p.fleets[fleetId].ships == [] ==>
            r == Err(InvalidArgument("fleet move", fleetId, "fleet has no ships")))
      && (ActiveFleet(p, fleetId) && HasPendingFleetMove(p, fleetId) ==>
            r == Err(InvalidArgument("fleet move", fleetId, "fleet already has a pending move")))
      && (ActiveFleet(p, fleetId) && !HasPendingFleetMove(p, fleetId) && HasPendingFleetBombardment(p, fleetId) ==>
            r == Err(InvalidArgument("fleet move", fleetId, "fleet is bombarding - cancel bombardment first")))
      && ((ActiveFleet(p, fleetId) && !HasPendingFleetMove(p, fleetId) && !HasPendingFleetBombardment(p, fleetId)
           && target !in game.planets) ==> r == Err(UnknownPlanet(target)))
      && ((ActiveFleet(p, fleetId) && !HasPendingFleetMove(p, fleetId) && !HasPendingFleetBombardment(p, fleetId)
           && target in game.planets && p.fleets[fleetId].location == target) ==>
            r == Err(InvalidArgument("fleet move", target, "fleet is already at this planet")))
    ensures (MoveReachesLocation(fleetId, target, game)
             && !Connected(game.planets[game.CurrentPlayer().fleets[fleetId].location], target)) ==>
      var location := game.CurrentPlayer().fleets[fleetId].location;
      r == Err(InvalidArgument("fleet move", target, "no connection from " + location + " to " + target))
  {
    var player := game.CurrentPlayer();
    if fleetId !in player.fleets then Err(InvalidArgument("fleet move", fleetId, "fleet not found"))
    else
      var fleet := player.fleets[fleetId];
      if |fleet.ships| == 0 then Err(InvalidArgument("fleet move", fleetId, "fleet has no ships"))
      else if HasPendingFleetMove(player, fleetId) then
        Err(InvalidArgument("fleet move", fleetId, "fleet already has a pending move"))
      else if HasPendingFleetBombardment(player, fleetId) then
        Err(InvalidArgument("fleet move", fleetId, "fleet is bombarding - cancel bombardment first"))
      else if target !in game.planets then Err(UnknownPlanet(target))
      else if fleet.location == target then
        Err(InvalidArgument("fleet move", target, "fleet is already at this planet"))
      else
        var connections := game.planets[fleet.location].connections;
        match FirstIndex(connections, (c: Connection) => c.to == target)
        case None =>
          Err(InvalidArgument("fleet move", target, "no connection from " + fleet.location + " to " + target))
        case Some(k) => Ok(MoveFleet(fleetId, target, connections[k].distance))
  }

  /** A fleet moves at most once at a time: once a move of it is pending, every further move order
    * for it is refused for that reason, whatever its target. */
  lemma PendingMoveBlocksMove(fleetId: FleetId, target: PlanetId, other: PlanetId, game: GameState,
                              action: ProtocolPendingAction.PendingActionData)
    requires game.HasCurrentPlayer() && ActiveFleet(game.CurrentPlayer(), fleetId)
    requires action.actionType == ProtocolPendingAction.MoveFleet(fleetId, other)
    ensures HasPendingFleetMove(Queued(game, action).CurrentPlayer(), fleetId)
    ensures ValidateMove(fleetId, target, Queued(game, action))
            == Err(InvalidArgument("fleet move", fleetId, "fleet already has a pending move"))
  {
    var actions := Queued(game, action).CurrentPlayer().pendingActions;
    assert actions[|actions| - 1] == action;
  }

  /** The game after the current player queued one more action. */
  function Queued(game: GameState, action: ProtocolPendingAction.PendingActionData): (r: GameState)
    requires game.HasCurrentPlayer()
    ensures r.HasCurrentPlayer() && r.planets == game.planets
    ensures r.CurrentPlayer() == game.CurrentPlayer().(pendingActions := game.CurrentPlayer().pendingActions + [action])
  {
    var p := game.CurrentPlayer();
    game.(players := game.players[game.currentPlayer := p.(pendingActions := p.pendingActions + [action])])
  }

  // ---------------------------------------------------------------------------------------------
  // bombard
  // ---------------------------------------------------------------------------------------------

  /** The bombardment power of the fleet: `calculate_fleet_bombardment`, left open. */
  function Power(fleetId: FleetId, game: GameState): U32 {
    game.fleetBombardment(game.currentPlayer, fleetId)
  }

  /** Every check of `validate_bombard` before it looks up the planet the fleet is at. */
  predicate BombardReachesLocation(fleetId: FleetId, game: GameState)
    requires game.HasCurrentPlayer()
  {
    var p := game.CurrentPlayer();
    ActiveFleet(p, fleetId) && !HasPendingFleetBombardment(p, fleetId) && Power(fleetId, game) > 0
  }

  /** `validate_bombard`: the fleet exists, has ships, is not bombarding yet and has bombardment
    * power; the planet it is at belongs to another player. */
  function ValidateBombard(fleetId: FleetId, game: GameState): (r: Result<CommandEffect, CommandError>)
    requires game.HasCurrentPlayer()
    requires BombardReachesLocation(fleetId, game) ==> game.CurrentPlayer().fleets[fleetId].location in game.planets
    ensures r.Ok? <==> (BombardReachesLocation(fleetId, game)
                        && var owner := game.planets[game.CurrentPlayer().fleets[fleetId].location].owner;
                           owner.Some? && owner.value != game.currentPlayer)
    ensures r.Ok? ==> r.value == BombardPlanet(fleetId, game.CurrentPlayer().fleets[fleetId].location, Power(fleetId, game))
    ensures var p := game.CurrentPlayer();
      && (fleetId !in p.fleets ==> r == Err(InvalidArgument("fleet bombard", fleetId, "fleet not found")))
      && (fleetId in p.fleets && p.fleets[fleetId].ships == [] ==>
            r == Err(InvalidArgument("fleet bombard", fleetId, "fleet has no ships")))
      && (ActiveFleet(p, fleetId) && HasPendingFleetBombardment(p, fleetId) ==>
            r == Err(InvalidArgument("fleet bombard", fleetId, "fleet is already bombarding")))
      && (ActiveFleet(p, fleetId) && !HasPendingFleetBombardment(p, fleetId) && Power(fleetId, game) == 0 ==>
            r == Err(InvalidArgument("fleet bombard", fleetId, "fleet has no bombardment capability")))
    ensures BombardReachesLocation(fleetId, game) ==>
      var owner := game.planets[game.CurrentPlayer().fleets[fleetId].location].owner;
      && (owner == Some(game.currentPlayer) ==>
            r == Err(InvalidArgument("fleet bombard", fleetId, "cannot bombard your own planet")))
      && (owner.None? ==>
            r == Err(InvalidArgument("fleet bombard", fleetId, "cannot bombard neutral planets - use colonize instead")))
  {
    var player := game.CurrentPlayer();
    if fleetId !in player.fleets then Err(InvalidArgument("fleet bombard", fleetId, "fleet not found"))
    else
      var fleet := player.fleets[fleetId];
      if |fleet.ships| == 0 then Err(InvalidArgument("fleet bombard", fleetId, "fleet has no ships"))
      else if HasPendingFleetBombardment(player, fleetId) then
        Err(InvalidArgument("fleet bombard", fleetId, "fleet is already bombarding"))
      else
        var power := game.fleetBombardment(game.currentPlayer, fleetId);
        if power == 0 then Err(InvalidArgument("fleet bombard", fleetId, "fleet has no bombardment capability"))
        else
          var targetPlanet := fleet.location;
          match game.planets[targetPlanet].owner
          case Some(ownerId) =>
            if ownerId == game.currentPlayer then
              Err(InvalidArgument("fleet bombard", fleetId, "cannot bombard your own planet"))
            else Ok(BombardPlanet(fleetId, targetPlanet, power))
          case None =>
            Err(InvalidArgument("fleet bombard", fleetId, "cannot bombard neutral planets - use colonize instead"))
  }

  // ---------------------------------------------------------------------------------------------
  // cancel-bombard
  // ---------------------------------------------------------------------------------------------

  /** `validate_cancel_bombard`: the fleet exists and is bombarding. */
  function ValidateCancelBombard(fleetId: FleetId, game: GameState): (r: Result<CommandEffect, CommandError>)
    requires game.HasCurrentPlayer()
    ensures r.Ok? <==> fleetId in game.CurrentPlayer().fleets && HasPendingFleetBombardment(game.CurrentPlayer(), fleetId)
    ensures r.Ok? ==> r.value == CancelBombard(fleetId)
    ensures fleetId !in game.CurrentPlayer().fleets ==> r == Err(InvalidArgument("fleet cancel-bombard", fleetId, "fleet not found"))
    ensures fleetId in game.CurrentPlayer().fleets && !HasPendingFleetBombardment(game.CurrentPlayer(), fleetId) ==>
      r == Err(InvalidArgument("fleet cancel-bombard", fleetId, "fleet is not bombarding"))
  {
    var player := game.CurrentPlayer();
    if fleetId !in player.fleets then Err(InvalidArgument("fleet cancel-bombard", fleetId, "fleet not found"))
    else if !HasPendingFleetBombardment(player, fleetId) then
      Err(InvalidArgument("fleet cancel-bombard", fleetId, "fleet is not bombarding"))
    else Ok(CancelBombard(fleetId))
  }

  /** A fleet that may be ordered to bombard may not have its bombardment cancelled, and the other
    * way round: the two orders are told apart by whether a bombardment is pending. */
  lemma BombardAndCancelExclude(fleetId: FleetId, game: GameState)
    requires game.HasCurrentPlayer()
    requires BombardReachesLocation(fleetId, game) ==> game.CurrentPlayer().fleets[fleetId].location in game.planets
    ensures !(ValidateBombard(fleetId, game).Ok? && ValidateCancelBombard(fleetId, game).Ok?)
  {
  }

  // ---------------------------------------------------------------------------------------------
  // colonize
  // ---------------------------------------------------------------------------------------------

  /** The ship type that can found a colony. */
  const Ark := "ark"

  /** The player has this ship and it is an ark; a ship id the player does not have counts as no ark. */
  predicate IsArk(ships: map<ShipInstanceId, Ship>, id: ShipInstanceId) {
    id in ships && ships[id].shipType == Ark
  }

  /** `fleet.ships.iter().any(..)`: some ship of the fleet is an ark. */
  function HasArk(ships: map<ShipInstanceId, Ship>, fleetShips: seq<ShipInstanceId>): (r: bool)
    ensures r <==> exists k :: 0 <= k < |fleetShips| && IsArk(ships, fleetShips[k])
  {
    FirstIndex(fleetShips, id => IsArk(ships, id)).Some?
  }

  /** Every check of `validate_colonize` before it looks up the planet the fleet is at. */
  predicate ColonizeReachesLocation(fleetId: FleetId, game: GameState)
    requires game.HasCurrentPlayer()
  {
    var p := game.CurrentPlayer();
    ActiveFleet(p, fleetId) && HasArk(p.ships, p.fleets[fleetId].ships)
  }

  /** The reason given while the planet's shield still stands. */
  function ShieldsUp(shieldHp: U32): string {
    "planet shields must be destroyed first (current: " + NatToString(shieldHp) + " HP)"
  }

  /** `validate_colonize`: the fleet exists, has ships and carries an ark; the planet it is at is
    * not already the player's and its shield is down. */
  function ValidateColonize(fleetId: FleetId, game: GameState): (r: Result<CommandEffect, CommandError>)
    requires game.HasCurrentPlayer()
    requires ColonizeReachesLocation(fleetId, game) ==> game.CurrentPlayer().fleets[fleetId].location in game.planets
    ensures r.Ok? <==> (ColonizeReachesLocation(fleetId, game)
                        && var planet := game.planets[game.CurrentPlayer().fleets[fleetId].location];
                           planet.owner != Some(game.currentPlayer) && planet.shieldHp == 0)
    ensures r.Ok? ==> r.value == ColonizePlanet(fleetId, game.CurrentPlayer().fleets[fleetId].location)
    ensures var p := game.CurrentPlayer();
      && (fleetId !in p.fleets ==> r == Err(InvalidArgument("fleet colonize", fleetId, "fleet not found")))
      && (fleetId in p.fleets && p.fleets[fleetId].ships == [] ==>
            r == Err(InvalidArgument("fleet colonize", fleetId, "fleet has no ships")))
      && (ActiveFleet(p, fleetId) && !HasArk(p.ships, p.fleets[fleetId].ships) ==>
            r == Err(InvalidArgument("fleet colonize", fleetId, "fleet requires an ark ship to colonize")))
    ensures ColonizeReachesLocation(fleetId, game) ==>
      var planet := game.planets[game.CurrentPlayer().fleets[fleetId].location];
      && (planet.owner == Some(game.currentPlayer) ==>
            r == Err(InvalidArgument("fleet colonize", fleetId, "you already own this planet")))
      && (planet.owner != Some(game.currentPlayer) && planet.shieldHp > 0 ==>
            r == Err(InvalidArgument("fleet colonize", fleetId, ShieldsUp(planet.shieldHp))))
  {
    var player := game.CurrentPlayer();
    if fleetId !in player.fleets then Err(InvalidArgument("fleet colonize", fleetId, "fleet not found"))
    else
      var fleet := player.fleets[fleetId];
      if |fleet.ships| == 0 then Err(InvalidArgument("fleet colonize", fleetId, "fleet has no ships"))
      else if !HasArk(player.ships, fleet.ships) then
        Err(InvalidArgument("fleet colonize", fleetId, "fleet requires an ark ship to colonize"))
      else
        var targetPlanet := fleet.location;
        var planet := game.planets[targetPlanet];
        if planet.owner == Some(game.currentPlayer) then
          Err(InvalidArgument("fleet colonize", fleetId, "you already own this planet"))
        else if planet.shieldHp > 0 then
          Err(InvalidArgument("fleet colonize", fleetId, ShieldsUp(planet.shieldHp)))
        else Ok(ColonizePlanet(fleetId, targetPlanet))
  }

  /** Bombardment opens the way to colonization: once a hit at least as large as the shield has
    * landed on the planet an ark fleet is at, colonizing it is accepted, unless the player owns it
    * already. */
  lemma ShieldBreakAllowsColonize(fleetId: FleetId, game: GameState, damage: U32)
    requires game.HasCurrentPlayer() && ColonizeReachesLocation(fleetId, game)
    requires game.CurrentPlayer().fleets[fleetId].location in game.planets
    requires var planet := game.planets[game.CurrentPlayer().fleets[fleetId].location];
      damage >= planet.shieldHp && planet.owner != Some(game.currentPlayer)
    ensures var location := game.CurrentPlayer().fleets[fleetId].location;
      var hit := game.(planets := game.planets[location := game.planets[location].TakeShieldDamage(damage).0]);
      ValidateColonize(fleetId, hit) == Ok(ColonizePlanet(fleetId, location))
  {
  }

  // ---------------------------------------------------------------------------------------------
  // execute
  // ---------------------------------------------------------------------------------------------

  /** What `execute` needs of its input to run without a panic: a current player, a ship for
    * `create`, and the fleet's planet on the map whenever a rule goes on to look it up. */
  predicate CanExecute(a: FleetAction, game: GameState) {
    game.HasCurrentPlayer()
    && (a.Create? ==> a.shipIds != [])
    && (a.Move? && MoveReachesLocation(a.fleetId, a.targetPlanet, game) ==>
          game.CurrentPlayer().fleets[a.fleetId].location in game.planets)
    && (a.Bombard? && BombardReachesLocation(a.fleetId, game) ==>
          game.CurrentPlayer().fleets[a.fleetId].location in game.planets)
    && (a.Colonize? && ColonizeReachesLocation(a.fleetId, game) ==>
          game.CurrentPlayer().fleets[a.fleetId].location in game.planets)
  }

  /** `execute`: the rule of the subcommand; the effect always concerns the fleet or the ships the
    * command names. */
  function Execute(a: FleetAction, game: GameState): (r: Result<CommandEffect, CommandError>)
    requires CanExecute(a, game)
    ensures r.Ok? ==> match a
      case Create(name, shipIds) => r.value.CreateFleet? && r.value.name == name && r.value.shipIds == shipIds
      case Add(fleetId, shipIds) => r.value == AddToFleet(fleetId, shipIds)
      case Remove(fleetId, shipIds) => r.value == RemoveFromFleet(fleetId, shipIds)
      case Disband(fleetId) => r.value == DisbandFleet(fleetId)
      case Move(fleetId, targetPlanet) => r.value.MoveFleet? && r.value.fleetId == fleetId && r.value.targetPlanet == targetPlanet
      case Bombard(fleetId) => r.value.BombardPlanet? && r.value.fleetId == fleetId && r.value.bombardmentPower > 0
      case CancelBombardment(fleetId) => r.value == CancelBombard(fleetId)
      case Colonize(fleetId) => r.value.ColonizePlanet? && r.value.fleetId == fleetId
  {
    match a
    case Create(name, shipIds) => ProtocolFleetCommand.ValidateCreate(name, shipIds, game)
    case Add(fleetId, shipIds) => ProtocolFleetCommand.ValidateAdd(fleetId, shipIds, game)
    case Remove(fleetId, shipIds) => ProtocolFleetCommand.ValidateRemove(fleetId, shipIds, game)
    case Disband(fleetId) => ProtocolFleetCommand.ValidateDisband(fleetId, game)
    case Move(fleetId, targetPlanet) => ValidateMove(fleetId, targetPlanet, game)
    case Bombard(fleetId) => ValidateBombard(fleetId, game)
    case CancelBombardment(fleetId) => ValidateCancelBombard(fleetId, game)
    case Colonize(fleetId) => ValidateColonize(fleetId, game)
  }
}
