/** What the command front ends of both crates share: the errors a command can fail with, the
  * effects a validated command asks for, the commands the newer parser produces, and the
  * read-only view of the game the validators consult.
  *
  * The older crate declares the first eight error variants and the effects `None`,
  * `BuildStructure` and `CancelAction`; the newer crate declares all of them. Commands of both
  * crates also build an `UpgradeStructure` effect, which neither declares, so it is added here. */
module CommandTypes {
  import opened Ints
  import opened Wrappers
  import opened ProtocolResources
  import opened ProtocolStructureConfig
  import opened CoreShipConfig
  import opened ProtocolShip
  import opened ProtocolPlanet
  import opened ProtocolPlayer

  datatype CommandError =
    | NoCommandEntered
    | MissingArguments(command: string, expected: string)
    | UnknownCommand(name: string)
    | UnknownPlanet(planet: string)
    | UnknownStructure(structure: string)
    | PlanetNotOwned(planet: string)
    | WrongPlanetOwner(planet: string)
    | InvalidArgument(command: string, argument: string, reason: string)
    | UnknownShip(ship: string)
    | ShipyardLevelTooLow(required: U16, current: U16)
    | NotEnoughResources(planetName: string, cost: Resources)

  datatype CommandEffect =
    | NoEffect(message: string)
    | BuildStructure(planetId: PlanetId, structureId: StructureId)
    | UpgradeStructure(planetId: PlanetId, structureId: StructureId)
    | BuildShip(planetId: PlanetId, shipId: ShipId)
    | CancelAction(planetId: PlanetId)
    | CreateFleet(name: string, shipIds: seq<ShipInstanceId>, location: PlanetId)
    | AddToFleet(fleetId: FleetId, shipIds: seq<ShipInstanceId>)
    | RemoveFromFleet(fleetId: FleetId, shipIds: seq<ShipInstanceId>)
    | DisbandFleet(fleetId: FleetId)
    | MoveFleet(fleetId: FleetId, targetPlanet: PlanetId, distance: U8)
    | BombardPlanet(fleetId: FleetId, targetPlanet: PlanetId, bombardmentPower: U32)
    | CancelBombard(fleetId: FleetId)
    | ColonizePlanet(fleetId: FleetId, planetId: PlanetId)
    | EndTurn(playerName: string)

  /** The arguments of `build` and `upgrade`: a planet name and a structure name. */
  datatype BuildArgs = BuildArgs(planetName: string, structureName: string)

  /** The arguments of `build_ship`. */
  datatype BuildShipArgs = BuildShipArgs(planetName: string, shipName: string)

  /** The arguments of `cancel`. */
  datatype CancelArgs = CancelArgs(planetName: string)

  /** What `status` reports on. */
  datatype StatusTarget = TurnTarget | PlanetsTarget | PlanetTarget(id: PlanetId) | PlayerTarget

  /** A `fleet` subcommand and its arguments. */
  datatype FleetAction =
    | Create(name: string, shipIds: seq<ShipInstanceId>)
    | Add(fleetId: FleetId, shipIds: seq<ShipInstanceId>)
    | Remove(fleetId: FleetId, shipIds: seq<ShipInstanceId>)
    | Disband(fleetId: FleetId)
    | Move(fleetId: FleetId, targetPlanet: PlanetId)
    | Bombard(fleetId: FleetId)
    | CancelBombardment(fleetId: FleetId)
    | Colonize(fleetId: FleetId)

  /** A command line as the newer parser reads it; the older parser produces only `Build`. */
  datatype Command =
    | Build(build: BuildArgs)
    | BuildShipCommand(buildShip: BuildShipArgs)
    | Cancel(cancel: CancelArgs)
    | Status(status: StatusTarget)
    | Map
    | Ships
    | Fleets
    | Fleet(fleet: FleetAction)
    | Help
    | EndTurnCommand

  /** The game as the validators read it. `nameToId` is `utils::name_to_id` and `fleetBombardment`
    * is `calculate_fleet_bombardment`; neither is defined in the source, so both are left open.
    * The older crate's `build` looks planets up in `game_state.planets` and every other command in
    * `game_state.map.planets`; both are the map `planets` here. */
  datatype GameState = GameState(
    currentPlayer: PlayerId,
    players: map<PlayerId, PlayerData>,
    planets: map<PlanetId, PlanetData>,
    turn: U32,
    structureConfig: StructureConfig,
    shipConfig: ShipConfig,
    nameToId: string -> string,
    fleetBombardment: (PlayerId, FleetId) -> U32)
  {
    /** `players.get(current_player()).expect(..)` succeeds. */
    predicate HasCurrentPlayer() {
      currentPlayer in players
    }

    function CurrentPlayer(): PlayerData
      requires HasCurrentPlayer()
    {
      players[currentPlayer]
    }
  }

  /** The ownership rule of `build`, `upgrade`, `build_ship` and `cancel`: the current player must
    * own the planet; another owner and no owner are two different errors. */
  function CheckOwner(owner: Option<PlayerId>, currentPlayer: PlayerId, planetName: string): (r: Result<Unit, CommandError>)
    ensures r.Ok? <==> owner == Some(currentPlayer)
    ensures r.Err? ==> r.error == if owner.None? then PlanetNotOwned(planetName) else WrongPlanetOwner(planetName)
  {
    match owner
    case Some(o) => if o == currentPlayer then Ok(Unit) else Err(WrongPlanetOwner(planetName))
    case None => Err(PlanetNotOwned(planetName))
  }

  /** `has_pending_fleet_move`, which the source calls but does not define: some pending action of
    * the player moves this fleet. */
  predicate HasPendingFleetMove(player: PlayerData, fleetId: FleetId) {
    exists i :: 0 <= i < |player.pendingActions| && player.pendingActions[i].actionType.MoveFleet?
      && player.pendingActions[i].actionType.fleet == fleetId
  }

  /** `has_pending_fleet_bombardment`, likewise: some pending action of the player is this fleet
    * bombarding a planet. */
  predicate HasPendingFleetBombardment(player: PlayerData, fleetId: FleetId) {
    exists i :: 0 <= i < |player.pendingActions| && player.pendingActions[i].actionType.BombardPlanet?
      && player.pendingActions[i].actionType.fleet == fleetId
  }
}
