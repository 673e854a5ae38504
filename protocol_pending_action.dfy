/** An order that is waiting out its cooldown (`colony_protocol::pending_action`): what it does,
  * where, how many turns are left and the resources set aside for it. */
module ProtocolPendingAction {
  import opened Ints
  import opened ProtocolResources
  import opened ProtocolStructureConfig
  import opened CoreShipConfig
  import opened ProtocolShip
  import opened ProtocolPlanet

  datatype ActionType =
    | BuildStructure(structure: StructureId)
    | UpgradeStructure(structure: StructureId)
    | BuildShip(ship: ShipId)
    | MoveFleet(fleet: FleetId, target: PlanetId)
    | BombardPlanet(fleet: FleetId, target: PlanetId)

  datatype PendingActionData = PendingActionData(
    actionType: ActionType,
    planetId: PlanetId,
    cooldownRemaining: U32,
    reservedResources: Resources)
  {
    /** `tick`: one turn less to wait, never below zero. */
    function Tick(): (r: PendingActionData)
      ensures r.actionType == actionType && r.planetId == planetId && r.reservedResources == reservedResources
      ensures cooldownRemaining > 0 ==> r.cooldownRemaining + 1 == cooldownRemaining
      ensures cooldownRemaining == 0 ==> r == this
    {
      this.(cooldownRemaining := SaturatingSub(cooldownRemaining, 1))
    }

    /** `is_complete`. */
    predicate IsComplete() {
      cooldownRemaining == 0
    }
  }

  /** `new`. */
  function NewData(actionType: ActionType, planetId: PlanetId, cooldown: U32, cost: Resources): (a: PendingActionData)
    ensures a.actionType == actionType && a.planetId == planetId
    ensures a.cooldownRemaining == cooldown && a.reservedResources == cost
    ensures a.IsComplete() <==> cooldown == 0
  {
    PendingActionData(actionType, planetId, cooldown, cost)
  }

  /** `n` turns of ticking. */
  function Ticks(a: PendingActionData, n: nat): PendingActionData {
    if n == 0 then a else Ticks(a, n - 1).Tick()
  }

  /** `n` ticks take `n` off the cooldown, stopping at zero, and touch nothing else. */
  lemma {:induction false} TicksCountDown(a: PendingActionData, n: nat)
    ensures Ticks(a, n).cooldownRemaining == if n >= a.cooldownRemaining then 0 else a.cooldownRemaining - n
    ensures Ticks(a, n).actionType == a.actionType && Ticks(a, n).planetId == a.planetId
    ensures Ticks(a, n).reservedResources == a.reservedResources
  {
    if n > 0 {
      TicksCountDown(a, n - 1);
    }
  }

  /** An action created with cooldown `c` is complete after `c` turns, and stays complete however
    * many more turns pass. */
  lemma CompleteAfterCooldown(actionType: ActionType, planetId: PlanetId, cooldown: U32, cost: Resources, extra: nat)
    ensures Ticks(NewData(actionType, planetId, cooldown, cost), cooldown + extra).IsComplete()
    ensures cooldown > 0 ==> !Ticks(NewData(actionType, planetId, cooldown, cost), cooldown - 1).IsComplete()
  {
    TicksCountDown(NewData(actionType, planetId, cooldown, cost), cooldown + extra);
    if cooldown > 0 {
      TicksCountDown(NewData(actionType, planetId, cooldown, cost), cooldown - 1);
    }
  }

  /** `PendingAction`, whose cooldown is counted down in place. */
  class PendingAction {
    const actionType: ActionType
    const planetId: PlanetId
    var cooldownRemaining: U32
    const reservedResources: Resources

    function Data(): PendingActionData
      reads this
    {
      PendingActionData(actionType, planetId, cooldownRemaining, reservedResources)
    }

    /** `new`. */
    constructor New(actionType: ActionType, planetId: PlanetId, cooldown: U32, cost: Resources)
      ensures Data() == NewData(actionType, planetId, cooldown, cost)
    {
      this.actionType := actionType;
      this.planetId := planetId;
      cooldownRemaining := cooldown;
      reservedResources := cost;
    }

    /** `tick`. */
    method Tick()
      modifies this
      ensures Data() == old(Data()).Tick()
    {
      cooldownRemaining := SaturatingSub(cooldownRemaining, 1);
    }

    /** `is_complete`. */
    predicate IsComplete()
      reads this
      ensures IsComplete() <==> Data().IsComplete()
    {
      cooldownRemaining == 0
    }
  }
}
