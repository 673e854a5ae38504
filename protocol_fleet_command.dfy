/** `fleet create|add|remove|disband` of the older crate (`colony_protocol::commands::fleet`): the
  * subcommand parser and the read-only rules each subcommand is validated against. The newer
  * crate's `colony_core::commands::fleet` repeats these four rules word for word and adds four
  * more; it reuses the ones defined here. */
module ProtocolFleetCommand {
  import opened Wrappers
  import opened FirstFailure
  import opened CommandTypes
  import opened ProtocolShip
  import opened ProtocolPlanet
  import opened ProtocolPlayer
  import CoreFleet

  const Usage := "fleet <create|add|remove|disband> ..."
  const ValidActions := "valid actions are: create, add, remove, disband"

  /** The words a user types for a fleet subcommand, the subcommand's name first. */
  function ActionTokens(a: FleetAction): seq<string> {
    match a
    case Create(name, shipIds) => ["create", name] + shipIds
    case Add(fleetId, shipIds) => ["add", fleetId] + shipIds
    case Remove(fleetId, shipIds) => ["remove", fleetId] + shipIds
    case Disband(fleetId) => ["disband", fleetId]
    case Move(fleetId, targetPlanet) => ["move", fleetId, targetPlanet]
    case Bombard(fleetId) => ["bombard", fleetId]
    case CancelBombardment(fleetId) => ["cancel-bombard", fleetId]
    case Colonize(fleetId) => ["colonize", fleetId]
  }

  /** The subcommands that take a list of ship ids, which runs to the end of the line. */
  predicate ListsShips(a: FleetAction) {
    a.Create? || a.Add? || a.Remove?
  }

  /** The command name and the usage line reported when a subcommand lacks arguments. */
  function SubcommandUsage(sub: string): (string, string) {
    if sub == "create" then ("fleet create", "fleet create <name> <ship_id> [ship_id...]")
    else if sub == "add" then ("fleet add", "fleet add <fleet_id> <ship_id> [ship_id...]")
    else if sub == "remove" then ("fleet remove", "fleet remove <fleet_id> <ship_id> [ship_id...]")
    else if sub == "disband" then ("fleet disband", "fleet disband <fleet_id>")
    else if sub == "move" then ("fleet move", "fleet move <fleet_id> <target_planet>")
    else if sub == "bombard" then ("fleet bombard", "fleet bombard <fleet_id>")
    else if sub == "cancel-bombard" then ("fleet cancel-bombard", "fleet cancel-bombard <fleet_id>")
    else ("fleet colonize", "fleet colonize <fleet_id>")
  }

  /** `FleetArgs::parse`: create, add and remove need a name or fleet id and at least one ship id;
    * disband needs a fleet id. */
  function ParseArgs(args: seq<string>): (r: Result<FleetAction, CommandError>)
    ensures args == [] ==> r == Err(MissingArguments("fleet", Usage))
    ensures r.Ok? ==> r.value.Create? || r.value.Add? || r.value.Remove? || r.value.Disband?
    ensures r.Ok? ==> |ActionTokens(r.value)| <= |args| && args[..|ActionTokens(r.value)|] == ActionTokens(r.value)
    ensures r.Ok? && ListsShips(r.value) ==> ActionTokens(r.value) == args
    ensures args != [] && args[0] in {"create", "add", "remove"} ==>
      (r.Ok? <==> |args| >= 3) && (r.Err? ==> r.error == MissingArguments(SubcommandUsage(args[0]).0, SubcommandUsage(args[0]).1))
    ensures args != [] && args[0] == "disband" ==>
      (r.Ok? <==> |args| >= 2) && (r.Err? ==> r.error == MissingArguments(SubcommandUsage("disband").0, SubcommandUsage("disband").1))
    ensures args != [] && args[0] !in {"create", "add", "remove", "disband"} ==>
      r == Err(InvalidArgument("fleet", args[0], ValidActions))
  {
    if args == [] then Err(MissingArguments("fleet", Usage))
    else if args[0] == "create" then
      if |args| < 3 then Err(MissingArguments("fleet create", "fleet create <name> <ship_id> [ship_id...]"))
      else Ok(Create(args[1], args[2..]))
    else if args[0] == "add" then
      if |args| < 3 then Err(MissingArguments("fleet add", "fleet add <fleet_id> <ship_id> [ship_id...]"))
      else Ok(Add(args[1], args[2..]))
    else if args[0] == "remove" then
      if |args| < 3 then Err(MissingArguments("fleet remove", "fleet remove <fleet_id> <ship_id> [ship_id...]"))
      else Ok(Remove(args[1], args[2..]))
    else if args[0] == "disband" then
      if |args| < 2 then Err(MissingArguments("fleet disband", "fleet disband <fleet_id>"))
      else Ok(Disband(args[1]))
    else Err(InvalidArgument("fleet", args[0], ValidActions))
  }

  /** A ship may join a fleet at `location`: it is the player's, it is in no fleet, and it is there. */
  predicate Assignable(ships: map<ShipInstanceId, Ship>, id: ShipInstanceId, location: PlanetId) {
    id in ships && ships[id].fleetId.None? && ships[id].location == location
  }

  /** One pass of `validate_create`'s loop: the ship exists, is in no fleet, and is where the ships
    * before it are (`location` is `None` for the first ship). */
  function CheckCreateShip(ships: map<ShipInstanceId, Ship>, location: Option<PlanetId>, id: ShipInstanceId)
    : (r: Result<Unit, CommandError>)
    ensures r.Ok? <==> id in ships && ships[id].fleetId.None? && (location.Some? ==> ships[id].location == location.value)
    ensures r.Err? ==> r.error.InvalidArgument? && r.error.command == "fleet create" && r.error.argument == id
  {
    if id !in ships then Err(InvalidArgument("fleet create", id, "ship not found"))
    else if ships[id].fleetId.Some? then
      Err(InvalidArgument("fleet create", id, "ship is already in fleet '" + ships[id].fleetId.value + "'"))
    else if location.Some? && location.value != ships[id].location then
      Err(InvalidArgument("fleet create", id, "ship is at different location (" + ships[id].location + ")"))
    else Ok(Unit)
  }

  /** `validate_create`. The first ship fixes the location the others must share; the loop is
    * written as its first pass followed by the passes over the remaining ships. */
  function ValidateCreate(name: string, shipIds: seq<ShipInstanceId>, game: GameState): (r: Result<CommandEffect, CommandError>)
    requires game.HasCurrentPlayer()
    requires shipIds != []
    ensures var ships := game.CurrentPlayer().ships;
      r.Ok? <==> shipIds[0] in ships && forall i :: 0 <= i < |shipIds| ==> Assignable(ships, shipIds[i], ships[shipIds[0]].location)
    ensures r.Ok? ==> r.value == CreateFleet(name, shipIds, game.CurrentPlayer().ships[shipIds[0]].location)
    ensures r.Err? ==>
      var ships := game.CurrentPlayer().ships;
      r.error.InvalidArgument? && r.error.command == "fleet create"
      && (exists i :: 0 <= i < |shipIds| && r.error.argument == shipIds[i]
            && (forall j :: 0 <= j < i ==> shipIds[0] in ships && Assignable(ships, shipIds[j], ships[shipIds[0]].location))
            && (shipIds[0] in ships ==> !Assignable(ships, shipIds[i], ships[shipIds[0]].location)))
  {
    var ships := game.CurrentPlayer().ships;
    match CheckCreateShip(ships, None, shipIds[0])
    case Err(e) => Err(e)
    case Ok(_) =>
      var location := ships[shipIds[0]].location;
      CreateRestChecks(ships, shipIds, location);
      match FirstError(shipIds[1..], CreateCheck(ships, location))
      case Some(e) => Err(e)
      case None => Ok(CreateFleet(name, shipIds, location))
  }

  /** The passes of `validate_create`'s loop after the first, once the location is known. */
  function CreateCheck(ships: map<ShipInstanceId, Ship>, location: PlanetId): ShipInstanceId -> Result<Unit, CommandError> {
    id => CheckCreateShip(ships, Some(location), id)
  }

  /** The passes after the first accept if and only if every ship may join at the first ship's
    * location; a rejection names a ship that may not join, all of whose predecessors may. */
  lemma CreateRestChecks(ships: map<ShipInstanceId, Ship>, shipIds: seq<ShipInstanceId>, location: PlanetId)
    requires shipIds != [] && Assignable(ships, shipIds[0], location)
    ensures FirstError(shipIds[1..], CreateCheck(ships, location)).None?
        <==> forall i :: 0 <= i < |shipIds| ==> Assignable(ships, shipIds[i], location)
    ensures var r := FirstError(shipIds[1..], CreateCheck(ships, location));
      r.Some? ==>
        (r.value.InvalidArgument? && r.value.command == "fleet create"
         && exists i :: 1 <= i < |shipIds| && r.value.argument == shipIds[i]
              && (forall j :: 0 <= j < i ==> Assignable(ships, shipIds[j], location))
              && !Assignable(ships, shipIds[i], location))
  {
    var rest := shipIds[1..];
    var check := CreateCheck(ships, location);
    assert forall i :: 1 <= i < |shipIds| ==> shipIds[i] == rest[i - 1];
    match FirstError(rest, check)
    case Some(e) =>
      var k :| 0 <= k < |rest| && (forall j :: 0 <= j < k ==> check(rest[j]).Ok?) && check(rest[k]) == Err(e);
      assert shipIds[k + 1] == rest[k];
      assert !Assignable(ships, shipIds[k + 1], location) by {
        assert CheckCreateShip(ships, Some(location), rest[k]).Err?;
      }
      assert forall j :: 0 <= j < k + 1 ==> Assignable(ships, shipIds[j], location) by {
        forall j | 1 <= j < k + 1 ensures Assignable(ships, shipIds[j], location) {
          assert check(rest[j - 1]).Ok?;
        }
      }
    case None =>
      forall i | 1 <= i < |shipIds| ensures Assignable(ships, shipIds[i], location) {
        assert check(rest[i - 1]).Ok?;
      }
  }

  /** One pass of `validate_add`'s loop: the ship exists, is in no fleet, and is where the fleet is. */
  function CheckAddShip(ships: map<ShipInstanceId, Ship>, fleetLocation: PlanetId, id: ShipInstanceId)
    : (r: Result<Unit, CommandError>)
    ensures r.Ok? <==> Assignable(ships, id, fleetLocation)
    ensures r.Err? ==> r.error.InvalidArgument? && r.error.command == "fleet add" && r.error.argument == id
  {
    if id !in ships then Err(InvalidArgument("fleet add", id, "ship not found"))
    else if ships[id].fleetId.Some? then
      Err(InvalidArgument("fleet add", id, "ship is already in fleet '" + ships[id].fleetId.value + "'"))
    else if ships[id].location != fleetLocation then
      Err(InvalidArgument("fleet add", id, "ship is at " + ships[id].location + " but fleet is at " + fleetLocation))
    else Ok(Unit)
  }

  /** `validate_add`: the fleet exists, then every ship in order may join it. */
  function ValidateAdd(fleetId: FleetId, shipIds: seq<ShipInstanceId>, game: GameState): (r: Result<CommandEffect, CommandError>)
    requires game.HasCurrentPlayer()
    ensures var p := game.CurrentPlayer();
      r.Ok? <==> fleetId in p.fleets && forall i :: 0 <= i < |shipIds| ==> Assignable(p.ships, shipIds[i], p.fleets[fleetId].location)
    ensures r.Ok? ==> r.value == AddToFleet(fleetId, shipIds)
    ensures fleetId !in game.CurrentPlayer().fleets ==> r == Err(InvalidArgument("fleet add", fleetId, "fleet not found"))
    ensures var p := game.CurrentPlayer();
      fleetId in p.fleets && r.Err? ==>
        r.error.InvalidArgument? && r.error.command == "fleet add"
        && (exists i :: 0 <= i < |shipIds| && r.error.argument == shipIds[i]
              && !Assignable(p.ships, shipIds[i], p.fleets[fleetId].location)
              && forall j :: 0 <= j < i ==> Assignable(p.ships, shipIds[j], p.fleets[fleetId].location))
  {
    var player := game.CurrentPlayer();
    if fleetId !in player.fleets then Err(InvalidArgument("fleet add", fleetId, "fleet not found"))
    else
      var fleetLocation := player.fleets[fleetId].location;
      match FirstError(shipIds, id => CheckAddShip(player.ships, fleetLocation, id))
      case Some(e) => Err(e)
      case None => Ok(AddToFleet(fleetId, shipIds))
  }

  /** One pass of `validate_remove`'s loop: the ship is in the fleet's list. */
  function CheckInFleet(fleetId: FleetId, fleetShips: seq<ShipInstanceId>, id: ShipInstanceId): (r: Result<Unit, CommandError>)
    ensures r.Ok? <==> id in fleetShips
    ensures r.Err? ==> r.error == InvalidArgument("fleet remove", id, "ship is not in fleet '" + fleetId + "'")
  {
    if id !in fleetShips then Err(InvalidArgument("fleet remove", id, "ship is not in fleet '" + fleetId + "'"))
    else Ok(Unit)
  }

  /** `validate_remove`: the fleet exists, then every listed ship is in it. */
  function ValidateRemove(fleetId: FleetId, shipIds: seq<ShipInstanceId>, game: GameState): (r: Result<CommandEffect, CommandError>)
    requires game.HasCurrentPlayer()
    ensures var p := game.CurrentPlayer();
      r.Ok? <==> fleetId in p.fleets && forall i :: 0 <= i < |shipIds| ==> shipIds[i] in p.fleets[fleetId].ships
    ensures r.Ok? ==> r.value == RemoveFromFleet(fleetId, shipIds)
    ensures fleetId !in game.CurrentPlayer().fleets ==> r == Err(InvalidArgument("fleet remove", fleetId, "fleet not found"))
    ensures var p := game.CurrentPlayer();
      fleetId in p.fleets && r.Err? ==>
        exists i :: 0 <= i < |shipIds| && shipIds[i] !in p.fleets[fleetId].ships
          && (forall j :: 0 <= j < i ==> shipIds[j] in p.fleets[fleetId].ships)
          && r.error == InvalidArgument("fleet remove", shipIds[i], "ship is not in fleet '" + fleetId + "'")
  {
    var player := game.CurrentPlayer();
    if fleetId !in player.fleets then Err(InvalidArgument("fleet remove", fleetId, "fleet not found"))
    else
      var fleetShips := player.fleets[fleetId].ships;
      match FirstError(shipIds, id => CheckInFleet(fleetId, fleetShips, id))
      case Some(e) => Err(e)
      case None => Ok(RemoveFromFleet(fleetId, shipIds))
  }

  /** `validate_disband`: the fleet exists. */
  function ValidateDisband(fleetId: FleetId, game: GameState): (r: Result<CommandEffect, CommandError>)
    requires game.HasCurrentPlayer()
    ensures r.Ok? <==> fleetId in game.CurrentPlayer().fleets
    ensures r.Ok? ==> r.value == DisbandFleet(fleetId)
    ensures r.Err? ==> r.error == InvalidArgument("fleet disband", fleetId, "fleet not found")
  {
    if fleetId !in game.CurrentPlayer().fleets then Err(InvalidArgument("fleet disband", fleetId, "fleet not found"))
    else Ok(DisbandFleet(fleetId))
  }

  /** What `execute` needs of its input to run without a panic: a current player, and at least one
    * ship for `create`. */
  predicate CanExecute(a: FleetAction, game: GameState) {
    game.HasCurrentPlayer() && (a.Create? ==> a.shipIds != [])
  }

  /** `execute`: the rule of the subcommand. */
  function Execute(a: FleetAction, game: GameState): (r: Result<CommandEffect, CommandError>)
    requires a.Create? || a.Add? || a.Remove? || a.Disband?
    requires CanExecute(a, game)
    ensures r.Ok? ==> match a
      case Create(name, shipIds) => r.value.CreateFleet? && r.value.name == name && r.value.shipIds == shipIds
      case Add(fleetId, shipIds) => r.value == AddToFleet(fleetId, shipIds)
      case Remove(fleetId, shipIds) => r.value == RemoveFromFleet(fleetId, shipIds)
      case Disband(fleetId) => r.value == DisbandFleet(fleetId)
      case _ => false
  {
    match a
    case Create(name, shipIds) => ValidateCreate(name, shipIds, game)
    case Add(fleetId, shipIds) => ValidateAdd(fleetId, shipIds, game)
    case Remove(fleetId, shipIds) => ValidateRemove(fleetId, shipIds, game)
    case Disband(fleetId) => ValidateDisband(fleetId, game)
  }

  /** Every ship a fleet lists is the player's and records that fleet as its own. */
  predicate FleetsConsistent(p: PlayerData) {
    forall f, k :: f in p.fleets && 0 <= k < |p.fleets[f].ships| ==>
      p.fleets[f].ships[k] in p.ships && p.ships[p.fleets[f].ships[k]].fleetId == Some(f)
  }

  /** Between consistent fleets and ships, an accepted `add` names only ships the fleet does not list
    * yet, so each `add_ship` grows the fleet by one. */
  lemma AcceptedAddGrowsFleet(fleetId: FleetId, shipIds: seq<ShipInstanceId>, game: GameState, i: nat)
    requires game.HasCurrentPlayer() && FleetsConsistent(game.CurrentPlayer())
    requires ValidateAdd(fleetId, shipIds, game).Ok? && i < |shipIds|
    ensures var ships := game.CurrentPlayer().fleets[fleetId].ships;
      shipIds[i] !in ships && CoreFleet.WithShip(ships, shipIds[i]) == ships + [shipIds[i]]
  {
  }

  /** An accepted `remove` names only ships `remove_ship` finds, so each removal reports success. */
  lemma AcceptedRemoveFindsEach(fleetId: FleetId, shipIds: seq<ShipInstanceId>, game: GameState, i: nat)
    requires game.HasCurrentPlayer()
    requires ValidateRemove(fleetId, shipIds, game).Ok? && i < |shipIds|
    ensures CoreFleet.WithoutShip(game.CurrentPlayer().fleets[fleetId].ships, shipIds[i]).0
  {
  }
}
