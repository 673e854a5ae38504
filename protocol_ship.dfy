/** A ship instance of the older crate (`colony_protocol::ship`): its id, its type, the planet it is
  * at and the fleet it belongs to, if any. */
module ProtocolShip {
  import opened Wrappers
  import CoreShipConfig
  import ProtocolPlanet

  type ShipInstanceId = string
  type FleetId = string

  datatype Ship = Ship(
    id: ShipInstanceId,
    shipType: CoreShipConfig.ShipId,
    location: ProtocolPlanet.PlanetId,
    fleetId: Option<FleetId>)
  {
    predicate IsInFleet() {
      fleetId.Some?
    }
  }

  /** `Ship::new`: a ship starts outside every fleet. */
  function NewShip(id: ShipInstanceId, shipType: CoreShipConfig.ShipId, location: ProtocolPlanet.PlanetId): (s: Ship)
    ensures !s.IsInFleet()
    ensures s.id == id && s.shipType == shipType && s.location == location
  {
    Ship(id, shipType, location, None)
  }
}
