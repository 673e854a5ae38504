# ColonyProtocol core in Dafny

A model of the game rules of ColonyProtocol, a turn-based space-colony strategy game written in
Rust. The repository holds two crates, and both are modelled here, each in its own modules:

- `colony_protocol`, the older crate, in the `Protocol*` modules. It covers:
  - resources with clamping arithmetic;
  - structures that count an upgrade down turn by turn;
  - planets that build, upgrade, produce, regenerate a shield and can be colonized;
  - players with pending actions and numbered ships;
  - the structure catalogue loader;
  - the planet-name generator;
  - the text command front end: a token cursor, the structured `help` / `end-turn` / `planet`
    parser, and the `build`, `upgrade`, `status` and `fleet` commands.
- `colony_core`, the newer crate, in the `Core*` modules. It covers:
  - resources with checked arithmetic;
  - buildings with a construction countdown, damage and repair;
  - the building registry, which validates definitions and rejects circular prerequisites;
  - the ship catalogue;
  - fleets;
  - its command line: `build_ship`, `cancel`, the eight `fleet` subcommands, and the parser that
    dispatches ten commands.

Shared modules:

- `Wrappers`: `Option` and `Result`.
- `Ints`: `u8`, `u16` and `u32` as subset types, with the saturating operations.
- `Text`: `split_whitespace` and decimal rendering.
- `FirstFailure`: the first element of a list that fails a check.
- `CommandTypes`: the command errors and effects, and the read-only game view the validators
  consult.

What the source mutates in place is modelled by a class. `Structure`, `Planet`, `PendingAction`,
`Player`, `Building`, `Fleet`, `TokenParser` and `NameGenerator` are each a class whose methods
are proved equal to a pure step function on a value of the same state. The properties are proved
about those step functions. What the source computes without mutation is modelled by functions:
validators, parsers and config checks. Loops in the source are methods with loop invariants:
- `validate_and_build` and `detect_cycle`;
- the loaders;
- the per-structure loops of `Planet::process_turn`;
- `NameGenerator::generate`.

Rust panics are modelled as preconditions. These are the `expect`s, unchecked `-=` and `+=`,
slice indexing, `unwrap` and an empty `random_range`. Each precondition asks only what keeps that
panic from happening.

## Model

| member | source | states |
|---|---|---|
| Ints.SaturatingAdd | colony_protocol/src/planet.rs:321-331 | `u32::saturating_add`: the exact sum when it fits, `u32::MAX` otherwise, never below either operand |
| Ints.SaturatingSub | colony_protocol/src/resources.rs:57-63 | `u32::saturating_sub`: the exact difference when `b <= a`, 0 otherwise |
| Text.SplitWhitespace | colony_core/src/commands/parser.rs:17-20 | every word is a non-empty run of non-whitespace; no words exactly when the line is all whitespace |
| Text.SplitWhitespaceKeepsContent | colony_protocol/src/commands.rs:47 | the words glued back together are the input with its whitespace removed: nothing lost or reordered |
| Text.SplitJoinRoundTrip | colony_protocol/src/commands/parser.rs:13-16 | tokenising words joined by single spaces gives back exactly those words |
| Text.NatToString | colony_protocol/src/player.rs:69-73 | `format!("{}", n)` is a non-empty string of decimal digits whose first digit is `0` only for zero (no leading zeros) |
| Text.DecimalValueOfNatToString | colony_protocol/src/player.rs:69-73 | reading the rendered digits back gives `n` |
| Text.NatToStringInjective | colony_protocol/src/player.rs:69-73 | different counts render differently |
| ProtocolResources.Add | colony_protocol/src/resources.rs:26-35 | per-axis sum clamped at `u32::MAX` |
| ProtocolResources.Sub | colony_protocol/src/resources.rs:54-63 | per-axis difference clamped at 0 |
| ProtocolResources.AddAssign | colony_protocol/src/resources.rs:38-51 | both `+=` forms give the same result as `+` |
| ProtocolResources.SubAssign | colony_protocol/src/resources.rs:66-79 | both `-=` forms give the same result as `-` |
| ProtocolResources.CappedAt | colony_protocol/src/planet.rs:394-397 | each axis is either the value or the cap, and never exceeds either |
| ProtocolResources.SubThenAddRestores | colony_protocol/src/resources.rs:19-23 | paying a cost and adding it back is lossless if and only if `has_enough(cost)` |
| ProtocolResources.EverythingHasEnoughOfZero | colony_protocol/src/resources.rs:5-16 | the default value is affordable from any balance and is neutral for `+` and `-` |
| ProtocolResources.AddSubMonotone | colony_protocol/src/resources.rs:29-63 | a sum covers both operands; a difference never exceeds the minuend |
| ProtocolResources.AccumulateClamped | colony_protocol/src/resources.rs:29-63 | adding with saturating `+=` to a true sum cut at `u32::MAX` gives the true sum with the addend, cut at `u32::MAX` |
| CoreResources.Add | colony_core/src/game/building/resource.rs:34-40 | the sum covers both operands and subtracting one operand gives the other back; requires the sum to fit in `u32` |
| CoreResources.Subtract | colony_core/src/game/building/resource.rs:42-52 | `None` if and only if the cost is not affordable; otherwise the result plus the cost is the balance |
| CoreResources.AddThenSubtract | colony_core/src/game/building/resource.rs:34-52 | subtracting what was added gives the original balance |
| CoreResources.EverythingCanAffordZero | colony_core/src/game/building/resource.rs:26-32 | `zero()` is `new(0,0,0)`, is affordable from any balance, and subtracting it changes nothing |
| ProtocolStructure.StructureData.CostToUpgrade | colony_protocol/src/structure.rs:86-95 | the cost table's entry `level` when it exists, otherwise `InvalidLevel(name, level, max_level)` |
| ProtocolStructure.StructureData.Upgrade | colony_protocol/src/structure.rs:111-119 | starts an `Upgrading` countdown of the upgrade time to `level + 1` and changes nothing else |
| ProtocolStructure.StructureData.CompleteUpgrade | colony_protocol/src/structure.rs:123-132 | level rises by exactly one, operational, with the next level's hit points, production and storage |
| ProtocolStructure.StructureData.ProcessTurn | colony_protocol/src/structure.rs:134-152 | non-upgrading structures are untouched; the countdown drops by one; the turn reaching zero loads the target level's stats |
| ProtocolStructure.StructureData.EnergyConsumption | colony_protocol/src/structure.rs:154-159 | 0 while upgrading, otherwise the current level's table entry |
| ProtocolStructure.NewData | colony_protocol/src/structure.rs:40-59 | level 0 with no stats, counting down the first build time toward level 1 |
| ProtocolStructure.NewDataAtLevel | colony_protocol/src/structure.rs:63-84 | `InvalidLevel` if and only if level is 0 or above `max_level`; otherwise operational with that level's stats |
| ProtocolStructure.Countdown | colony_protocol/src/structure.rs:134-152 | an upgrade with `t` turns left completes after exactly `t` turns and is still upgrading before |
| ProtocolStructure.UpgradeThenTurnsCompletes | colony_protocol/src/structure.rs:111-152 | `upgrade` and then letting the countdown run out ends where `complete_upgrade` goes in one step |
| ProtocolStructure.NewThenTurnsIsLevelOne | colony_protocol/src/structure.rs:40-84 | a new structure whose build time has elapsed equals `new_at_level(1)` |
| ProtocolStructure.Structure.New | colony_protocol/src/structure.rs:40-59 | the object's state is `NewData` |
| ProtocolStructure.Structure.FromData | colony_protocol/src/structure.rs:63-84 | an object holding a given structure state, such as one `new_at_level` returns |
| ProtocolStructure.Structure.Upgrade | colony_protocol/src/structure.rs:111-119 | the new state is the `Upgrade` step of the old |
| ProtocolStructure.Structure.CompleteUpgrade | colony_protocol/src/structure.rs:123-132 | the new state is the `CompleteUpgrade` step of the old |
| ProtocolStructure.Structure.ProcessTurn | colony_protocol/src/structure.rs:134-152 | the new state is the `ProcessTurn` step of the old |
| ProtocolStructureConfig.ValidatePrerequisity | colony_protocol/src/configs/structure_config.rs:35-48 | accepted if and only if there are at most `max_level` required levels; otherwise a `SizeMismatchError` naming the field |
| ProtocolStructureConfig.FirstOversized | colony_protocol/src/configs/structure_config.rs:111-122 | the loop over table sizes: accepted if and only if all fit; otherwise the first oversized table's error |
| ProtocolStructureConfig.ValidateArrays | colony_protocol/src/configs/structure_config.rs:99-125 | accepted if and only if no table is longer than `max_level`; otherwise the error names the first such table in checking order |
| ProtocolStructureConfig.FirstOversizedPrerequisity | colony_protocol/src/configs/structure_config.rs:128-134 | the loop over prerequisites: the first one with too many levels decides the error |
| ProtocolStructureConfig.ValidatePrerequisities | colony_protocol/src/configs/structure_config.rs:127-135 | accepted if and only if every prerequisite fits; otherwise the first misfit's error |
| ProtocolStructureConfig.ValidateDefinition | colony_protocol/src/configs/structure_config.rs:84-86 | tables are checked first, then prerequisites; accepted if and only if both pass |
| ProtocolStructureConfig.StructureConfig.Get | colony_protocol/src/configs/structure_config.rs:95-97 | found if and only if the id is loaded, with its definition |
| ProtocolStructureConfig.Inserted | colony_protocol/src/configs/structure_config.rs:83-91 | the loaded map's keys are exactly the records' ids |
| ProtocolStructureConfig.LoadAcceptsValid | colony_protocol/src/configs/structure_config.rs:79-93 | the loader accepts a list if and only if every record is valid |
| ProtocolStructureConfig.Load | colony_protocol/src/configs/structure_config.rs:79-93 | the first invalid record's error aborts the load; otherwise the map of all records |
| ProtocolStructureConfig.InsertedLookup | colony_protocol/src/configs/structure_config.rs:83-97 | `get` finds each loaded id, with the last record carrying it |
| ProtocolStructureConfig.InsertedMissing | colony_protocol/src/configs/structure_config.rs:95-97 | an id no record carries is not found |
| ProtocolStructureConfig.InsertedAreValid | colony_protocol/src/configs/structure_config.rs:79-93 | every stored definition passed both validations and is stored under its own id |
| ProtocolPendingAction.PendingActionData.Tick | colony_protocol/src/pending_action.rs:49-51 | the cooldown drops by one, never below zero; nothing else changes |
| ProtocolPendingAction.NewData | colony_protocol/src/pending_action.rs:34-46 | the fields are as given; complete if and only if the cooldown is 0 |
| ProtocolPendingAction.TicksCountDown | colony_protocol/src/pending_action.rs:49-56 | `n` ticks remove `min(n, cooldown)` and touch nothing else |
| ProtocolPendingAction.CompleteAfterCooldown | colony_protocol/src/pending_action.rs:34-56 | complete after exactly `cooldown` turns and from then on, not one turn earlier |
| ProtocolPendingAction.PendingAction.New | colony_protocol/src/pending_action.rs:34-46 | the object's state is `NewData` |
| ProtocolPendingAction.PendingAction.Tick | colony_protocol/src/pending_action.rs:49-51 | the new state is the `Tick` step of the old |
| ProtocolPendingAction.PendingAction.IsComplete | colony_protocol/src/pending_action.rs:54-56 | agrees with the value's `IsComplete` |
| ProtocolPlanet.StorageOfAll | colony_protocol/src/planet.rs:305-308 | the total covers the storage of every listed structure |
| ProtocolPlanet.ProductionOfOperational | colony_protocol/src/planet.rs:305-313 | the total covers the production of every operational structure |
| ProtocolPlanet.StorageOfOperational | colony_protocol/src/planet.rs:380-391 | the total covers the storage of every operational structure |
| ProtocolPlanet.TotalsAreClampedSums | colony_protocol/src/planet.rs:305-313 | each of the three totals, accumulated with saturating `+=`, is on every axis the true unbounded sum of the counted structures cut at `u32::MAX` |
| ProtocolPlanet.ExactTotalOrderFree | colony_protocol/src/planet.rs:380-391 | the true sum is the same for any two orders that list the same structures once each |
| ProtocolPlanet.TotalsIndependentOfOrder | colony_protocol/src/planet.rs:380-391 | the saturated totals do not depend on the iteration order of the structure map |
| ProtocolPlanet.ZeroedShieldRestored | colony_protocol/src/planet.rs:338-344 | a shield that damage took to zero is at the `defense_shield` maximum after the next turn's shield step, timer at zero |
| ProtocolPlanet.NonOperationalContributesNothing | colony_protocol/src/planet.rs:309-312 | swapping one non-operational structure for another leaves the operational totals unchanged |
| ProtocolPlanet.NoOperationalNoTotals | colony_protocol/src/planet.rs:380-391 | with no operational structure both operational totals are zero |
| ProtocolPlanet.ShieldStep | colony_protocol/src/planet.rs:338-353 | without a shield, nothing changes; the shield is only ever raised to its maximum; a shield at zero with a positive maximum is raised to it at once, timer kept; a full shield is left alone; a damaged shield regenerates when the incremented timer reaches the delay |
| ProtocolPlanet.ShieldRegenerates | colony_protocol/src/planet.rs:338-353 | a damaged shield is back at maximum, timer reset, after exactly `regen_turns - timer` quiet turns, and not before |
| ProtocolPlanet.PlanetData.GetStructureLevel | colony_protocol/src/planet.rs:114-119 | the structure's level, 0 when absent |
| ProtocolPlanet.PlanetData.GetMaxShieldHp | colony_protocol/src/planet.rs:132-137 | the `defense_shield`'s hit points, 0 without one |
| ProtocolPlanet.PlanetData.GetShieldRegenTurns | colony_protocol/src/planet.rs:161-165 | the shield definition's regeneration delay, none without a shield |
| ProtocolPlanet.PlanetData.TakeShieldDamage | colony_protocol/src/planet.rs:141-152 | the shield absorbs what it can and the rest is returned; absorbed plus returned is the damage; the timer resets |
| ProtocolPlanet.PlanetData.ValidateBuildStructure | colony_protocol/src/planet.rs:169-208 | errors in source order (already exists, no definition, no level-1 cost, not affordable); otherwise level 1's cost and build time |
| ProtocolPlanet.PlanetData.ValidateUpgradeStructure | colony_protocol/src/planet.rs:234-279 | errors in source order (not found, already upgrading, max level, no cost, not affordable); otherwise the next level's cost and time |
| ProtocolPlanet.PlanetData.CompleteBuildStructure | colony_protocol/src/planet.rs:212-230 | succeeds if and only if a definition with a level 1 exists; then a level-1 operational structure is added and others are untouched; on failure the planet is unchanged |
| ProtocolPlanet.PlanetData.CompleteUpgradeStructure | colony_protocol/src/planet.rs:283-298 | raises an existing structure by exactly one level; `StructureNotFound` and no change otherwise |
| ProtocolPlanet.PlanetData.RecalculateFromStructures | colony_protocol/src/planet.rs:380-391 | rate and capacity are, on every axis, the true sums over the operational structures cut at `u32::MAX`; they cover every operational structure and are zero without one; nothing else changes |
| ProtocolPlanet.PlanetData.ProduceResources | colony_protocol/src/planet.rs:394-397 | stock plus production, capped at capacity on every axis |
| ProtocolPlanet.PlanetData.Colonize | colony_protocol/src/planet.rs:357-377 | a level-1 capital is built, totals are recalculated and the stock is filled to capacity; on failure the planet is unchanged |
| ProtocolPlanet.PlanetData.ProduceFrom | colony_protocol/src/planet.rs:316-336 | one iteration: each axis becomes the stock plus the structure's production (energy after paying its consumption), saturated at `u32::MAX` and then capped at capacity; minerals and gas within capacity never fall; only that structure takes its turn |
| ProtocolPlanet.PlanetData.StepShield | colony_protocol/src/planet.rs:338-353 | only the shield and timer change, as `ShieldStep` |
| ProtocolPlanet.Produced | colony_protocol/src/planet.rs:316-336 | the second loop keeps the structure ids, and within capacity when it ran at all |
| ProtocolPlanet.TurnRespectsCapacity | colony_protocol/src/planet.rs:300-354 | after a turn the capacity is the total storage of all structures, and no resource exceeds it |
| ProtocolPlanet.TurnNeverLowersShield | colony_protocol/src/planet.rs:300-354 | a turn keeps the shield or raises it to the maximum |
| ProtocolPlanet.ValidatedBuildCompletes | colony_protocol/src/planet.rs:169-230 | paying a validated cost is lossless, and after building, the structure is at level 1 and a second build is refused |
| ProtocolPlanet.ValidatedUpgradeCompletes | colony_protocol/src/planet.rs:234-298 | a validated upgrade, completed, raises the level by one, within the maximum |
| ProtocolPlanet.Planet.New | colony_protocol/src/planet.rs:80-95 | no structures, resources or shield |
| ProtocolPlanet.Planet.SetOwner | colony_protocol/src/planet.rs:101-103 | only the owner changes |
| ProtocolPlanet.Planet.AddConnection | colony_protocol/src/planet.rs:109-111 | the connection is appended; nothing else changes |
| ProtocolPlanet.Planet.TakeShieldDamage | colony_protocol/src/planet.rs:141-152 | new state and overflow as the value step |
| ProtocolPlanet.Planet.CompleteBuildStructure | colony_protocol/src/planet.rs:212-230 | new state and result as the value step |
| ProtocolPlanet.Planet.CompleteUpgradeStructure | colony_protocol/src/planet.rs:283-298 | new state and result as the value step |
| ProtocolPlanet.Planet.RecalculateFromStructures | colony_protocol/src/planet.rs:380-391 | the loop over structures computes the value step |
| ProtocolPlanet.Planet.ProduceResources | colony_protocol/src/planet.rs:394-397 | new state as the value step |
| ProtocolPlanet.Planet.Colonize | colony_protocol/src/planet.rs:357-377 | new state and result as the value step |
| ProtocolPlanet.Planet.AccumulateTurnTotals | colony_protocol/src/planet.rs:301-313 | the first loop of a turn computes all storage and the operational production |
| ProtocolPlanet.Planet.ProduceAll | colony_protocol/src/planet.rs:316-336 | the second loop computes `Produced` |
| ProtocolPlanet.Planet.ProduceFrom | colony_protocol/src/planet.rs:318-335 | one pass of the loop body updates the stock and the structure exactly as `PlanetData.ProduceFrom` says |
| ProtocolPlanet.Planet.StepShield | colony_protocol/src/planet.rs:338-353 | new state as the value step |
| ProtocolPlanet.Planet.ProcessTurn | colony_protocol/src/planet.rs:300-354 | totals, production, then the shield, as the value step |
| ProtocolShip.NewShip | colony_protocol/src/ship.rs:16-23 | a new ship has the given fields and is in no fleet |
| ProtocolPlayer.FindActionOn | colony_protocol/src/player.rs:43-47 | found if and only if some action is on the planet; it is the first such action |
| ProtocolPlayer.RemoveActionOn | colony_protocol/src/player.rs:60-65 | removes exactly the first action on the planet, keeping the order of the rest; no change if there is none |
| ProtocolPlayer.RemoveActionOnFreesPlanet | colony_protocol/src/player.rs:60-65 | the removed action plus the rest is the old list; under one action per planet the planet is then free and the rule still holds |
| ProtocolPlayer.SeparatorIsLastUnderscore | colony_protocol/src/player.rs:69-73 | in `type_n` the separator is the last underscore and the tail is the number |
| ProtocolPlayer.ShipInstanceIdInjective | colony_protocol/src/player.rs:69-73 | different types or numbers give different ids |
| ProtocolPlayer.NextShipId | colony_protocol/src/player.rs:69-73 | only this type's counter moves, by one, and the id carries the new count |
| ProtocolPlayer.SuccessiveIdsDiffer | colony_protocol/src/player.rs:69-73 | two successive ids of one type differ; numbering another type leaves this counter alone |
| ProtocolPlayer.WithAddedShip | colony_protocol/src/player.rs:77-82 | the ship map gains the new ship at the new id; only ships and counters change |
| ProtocolPlayer.AddShipIdIsFresh | colony_protocol/src/player.rs:77-82 | while every id was issued by the counters, the new id is unused and the ship count grows by one |
| ProtocolPlayer.Player.New | colony_protocol/src/player.rs:22-32 | an empty player, whose ids are trivially issued |
| ProtocolPlayer.Player.FindPendingActionOnPlanetMut | colony_protocol/src/player.rs:50-57 | the position of the action `find_pending_action_on_planet` returns, none if and only if there is no action on the planet |
| ProtocolPlayer.Player.RemovePendingActionOnPlanet | colony_protocol/src/player.rs:60-65 | the position search and removal compute `RemoveActionOn` |
| ProtocolPlayer.Player.GenerateShipId | colony_protocol/src/player.rs:69-73 | counters and id as `NextShipId`; nothing else changes |
| ProtocolPlayer.Player.AddShip | colony_protocol/src/player.rs:77-82 | new state and id as `WithAddedShip` |
| CoreBuilding.BuildingState.StartBuild | colony_core/src/game/building/building.rs:39-52 | starts only from level 0 when level 1 has a cost and build time, returning the cost; a refusal changes nothing |
| CoreBuilding.BuildingState.StartUpgrade | colony_core/src/game/building/building.rs:54-76 | refused when unbuilt, at max level or under construction; otherwise the next level at 0 HP with its build time, returning its cost |
| CoreBuilding.BuildingState.Tick | colony_core/src/game/building/building.rs:78-90 | the countdown drops by one; true only on the tick reaching zero, which sets full hit points |
| CoreBuilding.BuildingState.CancelBuild | colony_core/src/game/building/building.rs:92-110 | a first build returns to the empty lot; an upgrade returns to the previous level at full HP; no change when idle |
| CoreBuilding.BuildingState.TakeDamage | colony_core/src/game/building/building.rs:112-120 | HP drops by the damage, floored at 0; true if and only if it ran out |
| CoreBuilding.BuildingState.Repair | colony_core/src/game/building/building.rs:122-126 | back to the level's full hit points when the level has an entry |
| CoreBuilding.BuildingState.Production | colony_core/src/game/building/building.rs:176-181 | only a complete building produces, its level's entry |
| CoreBuilding.BuildingState.StorageCapacity | colony_core/src/game/building/building.rs:183-188 | only a complete building stores, its level's entry |
| CoreBuilding.BuildingState.EnergyConsumption | colony_core/src/game/building/building.rs:190-195 | only a complete building consumes, its level's entry |
| CoreBuilding.BuildingState.UpgradeCost | colony_core/src/game/building/building.rs:197-202 | none at max level, else the next level's cost |
| CoreBuilding.NewAtLevelState | colony_core/src/game/building/building.rs:24-37 | exists if and only if the level has a hit-point entry; then complete at full HP and valid |
| CoreBuilding.UnbuiltIsEmpty | colony_core/src/game/building/building.rs:15-22 | an unbuilt building is not built, complete, building or destroyed, and is valid |
| CoreBuilding.OperationsPreserveValidity | colony_core/src/game/building/building.rs:39-126 | every operation keeps the level within `max_level` and construction only on a built level |
| CoreBuilding.DamageDestroys | colony_core/src/game/building/building.rs:112-142 | a blow at least the remaining HP destroys a complete building |
| CoreBuilding.TicksComplete | colony_core/src/game/building/building.rs:78-90 | a construction with `n` turns left completes at full HP after exactly `n` ticks, building until then |
| CoreBuilding.CancelUndoesStartBuild | colony_core/src/game/building/building.rs:39-110 | cancelling a just-started first build restores the empty lot |
| CoreBuilding.CancelUndoesStartUpgrade | colony_core/src/game/building/building.rs:54-110 | cancelling a just-started upgrade restores the previous state |
| CoreBuilding.Building.NewUnbuilt | colony_core/src/game/building/building.rs:15-22 | state is the empty lot |
| CoreBuilding.Building.Complete | colony_core/src/game/building/building.rs:24-37 | state is a complete building at the level |
| CoreBuilding.Building.StartBuild | colony_core/src/game/building/building.rs:39-52 | new state and cost as the value step |
| CoreBuilding.Building.StartUpgrade | colony_core/src/game/building/building.rs:54-76 | new state and cost as the value step |
| CoreBuilding.Building.Tick | colony_core/src/game/building/building.rs:78-90 | new state and completion flag as the value step |
| CoreBuilding.Building.CancelBuild | colony_core/src/game/building/building.rs:92-110 | new state and flag as the value step |
| CoreBuilding.Building.TakeDamage | colony_core/src/game/building/building.rs:112-120 | new state and flag as the value step |
| CoreBuilding.Building.Repair | colony_core/src/game/building/building.rs:122-126 | new state as the value step |
| CoreBuilding.Building.MaxHp | colony_core/src/game/building/building.rs:152-154 | the current level's hit-point entry |
| CoreBuildingConfig.ForLevelAccessors | colony_core/src/game/building/building_config.rs:106-146 | no entry at level 0 or above `max_level`; on well-sized tables, row `level - 1` |
| CoreBuildingConfig.ValidateArrayLength | colony_core/src/game/building/building_config.rs:251-266 | accepted if and only if the lengths match, else `InvalidArrayLength` naming the field |
| CoreBuildingConfig.FirstLengthError | colony_core/src/game/building/building_config.rs:175-236 | the checks run in order; the first mismatch decides the error |
| CoreBuildingConfig.CheckArrayLengths | colony_core/src/game/building/building_config.rs:175-236 | accepted if and only if all ten arrays have `max_level` entries, else the first offending field |
| CoreBuildingConfig.Zip3 | colony_core/src/game/building/building_config.rs:268-311 | as long as the shortest column; row `i` combines entries `i` |
| CoreBuildingConfig.ConvertToDefinition | colony_core/src/game/building/building_config.rs:268-311 | the fields are copied; on a well-sized record every table has `max_level` rows of the zipped columns |
| CoreBuildingConfig.FirstLevelTooHigh | colony_core/src/game/building/building_config.rs:335-345 | the first required level above the prerequisite's maximum |
| CoreBuildingConfig.PrerequisiteError | colony_core/src/game/building/building_config.rs:320-346 | none if and only if the prerequisite is valid; otherwise the three checks' errors in order |
| CoreBuildingConfig.ValidatePrerequisites | colony_core/src/game/building/building_config.rs:313-348 | accepted if and only if every prerequisite is valid; otherwise the first failing one's error |
| CoreBuildingConfig.CycleReportIsCycle | colony_core/src/game/building/building_config.rs:361-389 | a reported cycle is a real cycle of the prerequisite graph |
| CoreBuildingConfig.DuplicateMovesToSuccessor | colony_core/src/game/building/building_config.rs:361-389 | a walk with a repeat makes its second building unsafe |
| CoreBuildingConfig.SafeFromPrerequisites | colony_core/src/game/building/building_config.rs:381-386 | a building whose prerequisites are all safe is safe, which justifies marking it visited |
| CoreBuildingConfig.AcyclicIffAllSafe | colony_core/src/game/building/building_config.rs:350-359 | the graph is acyclic if and only if every building is safe |
| CoreBuildingConfig.ExtendPath | colony_core/src/game/building/building_config.rs:374-380 | pushing a new building keeps the path a repeat-free walk and shrinks the measure |
| CoreBuildingConfig.ExplorePrerequisites | colony_core/src/game/building/building_config.rs:381-383 | the loop over prerequisites either leaves every prerequisite safe and `visited` grown and safe, or reports a real cycle from the path's root |
| CoreBuildingConfig.DetectCycle | colony_core/src/game/building/building_config.rs:361-389 | success makes the start safe and records it in `visited`, which stays safe; failure reports a real cycle starting at the path's root |
| CoreBuildingConfig.CheckCircularDependencies | colony_core/src/game/building/building_config.rs:350-359 | fails if and only if the graph has a cycle, and reports one |
| CoreBuildingConfig.BuildingRegistry.Get | colony_core/src/game/building/building_config.rs:391-393 | found if and only if the id is registered |
| CoreBuildingConfig.BuildingRegistry.Len | colony_core/src/game/building/building_config.rs:399-401 | the number of registered ids |
| CoreBuildingConfig.Definitions | colony_core/src/game/building/building_config.rs:168-240 | every record's id is a key of the inserted map |
| CoreBuildingConfig.DefinitionsKeys | colony_core/src/game/building/building_config.rs:168-240 | the inserted map's keys are exactly the records' ids |
| CoreBuildingConfig.FirstDefinitionError | colony_core/src/game/building/building_config.rs:168-240 | the first loop can only fail with a duplicate id or an array-length mismatch |
| CoreBuildingConfig.FirstDefinitionErrorNone | colony_core/src/game/building/building_config.rs:168-240 | no error if and only if the ids are distinct and every record is well sized |
| CoreBuildingConfig.FirstPrerequisiteError | colony_core/src/game/building/building_config.rs:242-244 | no error if and only if every record's prerequisites validate |
| CoreBuildingConfig.DefinitionsOfDistinct | colony_core/src/game/building/building_config.rs:168-240 | with distinct ids, each id maps to its record's definition and there is one entry per record |
| CoreBuildingConfig.PrerequisitesDefinedAfterValidation | colony_core/src/game/building/building_config.rs:242-246 | after validation every prerequisite names a defined building, as the cycle check needs |
| CoreBuildingConfig.InsertDefinitions | colony_core/src/game/building/building_config.rs:168-240 | the first loop returns the first error, or all definitions |
| CoreBuildingConfig.ValidateAllPrerequisites | colony_core/src/game/building/building_config.rs:242-244 | the second loop returns the first record's prerequisite error, or success |
| CoreBuildingConfig.ValidateAndBuild | colony_core/src/game/building/building_config.rs:165-249 | the first definition error, else the first prerequisite error, else success if and only if the graph is acyclic, with all definitions |
| CoreBuildingConfig.LoadedRegistry | colony_core/src/game/building/building_config.rs:391-401 | after a load, `get` finds every record under its id, finds nothing else, and `len` is the record count |
| CoreShipConfig.ShipConfig.Get | colony_core/src/configs/ship_config.rs:68-70 | found if and only if the id is loaded |
| CoreShipConfig.CheckShip | colony_core/src/configs/ship_config.rs:74-82 | accepted if and only if every counter is loaded; otherwise the first missing counter |
| CoreShipConfig.ValidateCountersFirst | colony_core/src/configs/ship_config.rs:72-84 | accepted if and only if all visited counters are loaded; otherwise the first failing ship's error |
| CoreShipConfig.ValidateCountersAcceptsClosed | colony_core/src/configs/ship_config.rs:72-84 | in any visiting order, accepted if and only if all counter references are loaded; a rejection names a real missing one |
| CoreShipConfig.Inserted | colony_core/src/configs/ship_config.rs:56-60 | keys are the loaded ids, each stored under its own id |
| CoreShipConfig.Load | colony_core/src/configs/ship_config.rs:52-66 | succeeds if and only if the inserted catalogue's counters are closed |
| CoreShipConfig.InsertedLookup | colony_core/src/configs/ship_config.rs:56-70 | `get` finds each loaded id, with its last definition |
| CoreShipConfig.OwnTypeIsAValidCounter | colony_core/src/configs/ship_config.rs:72-84 | a ship listing itself as a counter passes validation |
| CoreFleet.WithShip | colony_core/src/fleet.rs:22-26 | `x` is present afterwards, the old list is a prefix, and at most one entry is added; keeps the list free of duplicates |
| CoreFleet.WithoutShip | colony_core/src/fleet.rs:28-35 | removes the first occurrence if and only if present; the multiset loses one `x` |
| CoreFleet.NewData | colony_core/src/fleet.rs:13-20 | a fleet with no ships and the given fields |
| CoreFleet.AddIdempotent | colony_core/src/fleet.rs:22-26 | adding twice is adding once |
| CoreFleet.AddThenRemoveRestores | colony_core/src/fleet.rs:22-35 | adding a new ship and removing it restores the list |
| CoreFleet.RemoveFromDistinct | colony_core/src/fleet.rs:28-35 | in a duplicate-free list, removal leaves no copy and stays duplicate-free |
| CoreFleet.Fleet.New | colony_core/src/fleet.rs:13-20 | state is `NewData` |
| CoreFleet.Fleet.AddShip | colony_core/src/fleet.rs:22-26 | ships become `WithShip` of the old |
| CoreFleet.Fleet.RemoveShip | colony_core/src/fleet.rs:28-35 | ships and flag as `WithoutShip` of the old |
| CoreFleet.Fleet.IsEmpty | colony_core/src/fleet.rs:37-39 | empty if and only if the ship count is 0 |
| CoreFleet.Fleet.ShipCount | colony_core/src/fleet.rs:41-43 | the number of listed ships |
| CommandTypes.CheckOwner | colony_protocol/src/commands/build.rs:34-38 | accepted if and only if the current player owns the planet; no owner and another owner are different errors |
| ProtocolTokenParser.TokenParser.New | colony_protocol/src/commands/parse.rs:27-32 | the cursor starts at the first token |
| ProtocolTokenParser.TokenParser.Peek | colony_protocol/src/commands/parse.rs:35-37 | the token under the cursor, if and only if one remains |
| ProtocolTokenParser.TokenParser.HasRemaining | colony_protocol/src/commands/parse.rs:55-57 | holds if and only if `peek` finds a token |
| ProtocolTokenParser.TokenParser.Remaining | colony_protocol/src/commands/parse.rs:60-62 | the consumed tokens followed by the remaining ones are all the tokens |
| ProtocolTokenParser.TokenParser.Next | colony_protocol/src/commands/parse.rs:40-46 | returns `peek` and advances by one exactly when a token was returned |
| ProtocolTokenParser.TokenParser.Expect | colony_protocol/src/commands/parse.rs:49-52 | the next token, or `MissingArgument(name)` with the cursor unmoved |
| ProtocolCommands.ParsePlanet | colony_protocol/src/commands/planet.rs:26-48 | the `build` and `view` subcommands take their arguments in order, each reported by name when missing; the tokens read spell the command |
| ProtocolCommands.ParseTokens | colony_protocol/src/commands.rs:45-73 | `EmptyCommand` if and only if there are no tokens; `help`, `end-turn` and `endturn`, and `planet` dispatch; anything else is `UnknownCommand` |
| ProtocolCommands.ParseRendered | colony_protocol/src/commands.rs:45-73 | a command's own tokens, followed by anything, parse to that command |
| ProtocolCommands.ParseTypedCommand | colony_protocol/src/commands.rs:45-73 | a command typed with single spaces parses back to itself |
| ProtocolCommands.EndTurnAlias | colony_protocol/src/commands.rs:63 | `endturn` parses to `EndTurn` |
| ProtocolCommands.ParsePlanetCommand | colony_protocol/src/commands/planet.rs:26-48 | the cursor-driven parser computes `ParsePlanet` and consumes exactly the command's tokens |
| ProtocolCommands.Parse | colony_protocol/src/commands.rs:45-73 | the cursor-driven parser computes `ParseInput` |
| ProtocolParser.Parse | colony_protocol/src/commands/parser.rs:8-22 | empty input is `NoCommandEntered`; only `build` is known, and every other first word is `UnknownCommand` |
| ProtocolParser.ParseTypedBuild | colony_protocol/src/commands/parser.rs:8-22 | `build p s` typed with single spaces parses to those arguments |
| ProtocolBuild.ParseArgs | colony_protocol/src/commands/build.rs:12-23 | accepted if and only if there are at least two arguments, which are the first two words; else the usage error |
| ProtocolBuild.Execute | colony_protocol/src/commands/build.rs:26-47 | accepted if and only if the planet exists, is owned by the player and the structure is known; errors in that order |
| ProtocolBuild.AcceptedBuildHasDefinition | colony_protocol/src/commands/build.rs:41-43 | an accepted build is never refused later by the planet for a missing definition |
| ProtocolUpgrade.ParseArgs | colony_protocol/src/commands/upgrade.rs:12-23 | accepted if and only if there are at least two arguments, the first two words |
| ProtocolUpgrade.Execute | colony_protocol/src/commands/upgrade.rs:26-51 | accepted if and only if the planet exists, is the player's, and has the structure; errors in that order |
| ProtocolUpgrade.AcceptedUpgradeHasStructure | colony_protocol/src/commands/upgrade.rs:40-48 | an accepted upgrade is never refused later as `StructureNotFound` |
| ProtocolStatus.ParseArgs | colony_protocol/src/commands/status.rs:18-47 | `turn`, `planets`, `player` and `planet <id>` are accepted with the words they consume; each other case has its error |
| ProtocolStatus.FindPlanet | colony_protocol/src/commands/status.rs:77-79 | found if and only if the id is on the map, else `UnknownPlanet(id)` |
| ProtocolStatus.Execute | colony_protocol/src/commands/status.rs:50-59 | fails if and only if a planet report names an unknown planet; a player report requires the current player, since the `expect` of `format_player_status` (line 149) panics without one |
| ProtocolFleetCommand.ParseArgs | colony_protocol/src/commands/fleet.rs:19-81 | four subcommands with their argument counts and usage errors; ship lists run to the end of the line; others are invalid |
| ProtocolFleetCommand.CheckCreateShip | colony_protocol/src/commands/fleet.rs:104-134 | the ship exists, is in no fleet, and is at the first ship's location |
| ProtocolFleetCommand.ValidateCreate | colony_protocol/src/commands/fleet.rs:93-143 | accepted if and only if every ship is assignable at the first ship's location; then a fleet there; otherwise an `InvalidArgument` naming the first ship that is missing, already in a fleet or elsewhere, every ship before it being assignable |
| ProtocolFleetCommand.CheckAddShip | colony_protocol/src/commands/fleet.rs:162-192 | the ship exists, is in no fleet, and is at the fleet's location |
| ProtocolFleetCommand.ValidateAdd | colony_protocol/src/commands/fleet.rs:145-197 | accepted if and only if the fleet exists and every ship is assignable there; otherwise the first failure |
| ProtocolFleetCommand.CheckInFleet | colony_protocol/src/commands/fleet.rs:218-227 | accepted if and only if the ship is in the fleet's list |
| ProtocolFleetCommand.ValidateRemove | colony_protocol/src/commands/fleet.rs:199-232 | accepted if and only if the fleet exists and lists every ship; otherwise the first failure |
| ProtocolFleetCommand.ValidateDisband | colony_protocol/src/commands/fleet.rs:234-253 | accepted if and only if the fleet exists |
| ProtocolFleetCommand.Execute | colony_protocol/src/commands/fleet.rs:84-91 | each subcommand's effect names the fleet or ships the command named |
| ProtocolFleetCommand.AcceptedAddGrowsFleet | colony_protocol/src/commands/fleet.rs:145-197 | with consistent fleets, every ship of an accepted `add` is new to the fleet, so `add_ship` appends it |
| ProtocolFleetCommand.AcceptedRemoveFindsEach | colony_protocol/src/commands/fleet.rs:199-232 | every ship of an accepted `remove` is found by `remove_ship` |
| CoreBuildShip.ParseArgs | colony_core/src/commands/build_ship.rs:12-23 | accepted if and only if there are at least two arguments, the first two words |
| CoreBuildShip.Execute | colony_core/src/commands/build_ship.rs:26-63 | accepted if and only if planet, ownership, known type, shipyard level and stock all pass; errors in that order |
| CoreBuildShip.ShipyardGate | colony_core/src/commands/build_ship.rs:44-51 | a type needing a shipyard can be built only where one stands at that level |
| CoreCancel.ParseArgs | colony_core/src/commands/cancel.rs:11-21 | accepted if and only if there is an argument, the first word |
| CoreCancel.Execute | colony_core/src/commands/cancel.rs:24-51 | accepted if and only if the planet exists, is the player's, and has a pending action; errors in that order |
| CoreCancel.AcceptedCancelRemovesAction | colony_core/src/commands/cancel.rs:42-50 | an accepted cancel finds exactly one action on the planet to remove |
| CoreFleetCommand.ParseArgs | colony_core/src/commands/fleet.rs:24-129 | eight subcommands with their minimum word counts and usage errors; the words read spell the action; others are invalid |
| CoreFleetCommand.ParseActionTokens | colony_core/src/commands/fleet.rs:24-129 | a subcommand's own words parse back to it |
| CoreFleetCommand.ValidateMove | colony_core/src/commands/fleet.rs:306-389 | accepted if and only if all seven checks pass, each failure has its error in order, and the distance is that of the first lane to the target |
| CoreFleetCommand.PendingMoveBlocksMove | colony_core/src/commands/fleet.rs:332-339 | once a move of a fleet is queued, every further move of it is refused with that reason |
| CoreFleetCommand.ValidateBombard | colony_core/src/commands/fleet.rs:391-469 | accepted if and only if the fleet is active, not bombarding, has power, and sits at another player's planet; own and neutral planets are different errors |
| CoreFleetCommand.ValidateCancelBombard | colony_core/src/commands/fleet.rs:471-502 | accepted if and only if the fleet exists and is bombarding |
| CoreFleetCommand.BombardAndCancelExclude | colony_core/src/commands/fleet.rs:391-502 | `bombard` and `cancel-bombard` are never both accepted for one fleet |
| CoreFleetCommand.HasArk | colony_core/src/commands/fleet.rs:531-536 | true if and only if some ship of the fleet is one of the player's arks |
| CoreFleetCommand.ValidateColonize | colony_core/src/commands/fleet.rs:504-582 | accepted if and only if the fleet is active, carries an ark, and the planet is not the player's and its shield is down; errors in that order |
| CoreFleetCommand.ShieldBreakAllowsColonize | colony_core/src/commands/fleet.rs:566-576 | after a hit at least the shield's strength, colonizing someone else's planet is accepted |
| CoreFleetCommand.Execute | colony_core/src/commands/fleet.rs:131-142 | each subcommand's effect names the fleet or ships the command named; a bombardment has positive power |
| CoreParser.ParseWords | colony_core/src/commands/parser.rs:19-34 | the first word dispatches to one of ten commands (`end` being `end_turn`); `fleet` hands the rest to the fleet parser; unknown words are `UnknownCommand` |
| CoreParser.ParseWordsSpellsCommand | colony_core/src/commands/parser.rs:19-34 | an accepted command is spelled out by the words after the first, whatever follows |
| CoreParser.Parse | colony_core/src/commands/parser.rs:12-35 | `NoCommandEntered` if and only if the input is empty; otherwise dispatch on the words |
| CoreParser.ParseRendered | colony_core/src/commands/parser.rs:22-34 | a command's own words parse to that command |
| CoreParser.ParseTypedCommand | colony_core/src/commands/parser.rs:12-35 | a command typed with single spaces parses back to itself |
| CoreParser.EndAlias | colony_core/src/commands/parser.rs:32 | `end` parses to `EndTurn` |
| ProtocolNameGenerator.RomanNumeralValue | colony_protocol/src/planet_graph/name_generator.rs:72-86 | for 1 to 10, a numeral of I, V and X whose value under the subtractive rule is `n` |
| ProtocolNameGenerator.FirstFreeVariant | colony_protocol/src/planet_graph/name_generator.rs:57-65 | the first variant from `from` whose name is free, none if all are taken |
| ProtocolNameGenerator.Choose | colony_protocol/src/planet_graph/name_generator.rs:44-69 | the base when free; otherwise the first free variant I to X; always a name not in use; an error if and only if all eleven are taken |
| ProtocolNameGenerator.CandidatesDistinct | colony_protocol/src/planet_graph/name_generator.rs:57-60 | the base and its ten variants are eleven different names |
| ProtocolNameGenerator.ExhaustedNeedsElevenNames | colony_protocol/src/planet_graph/name_generator.rs:67-68 | the generator gives up only when at least eleven names are in use |
| ProtocolNameGenerator.NameGenerator.constructor | colony_protocol/src/planet_graph/name_generator.rs:28-36 | no name used yet |
| ProtocolNameGenerator.NameGenerator.Generate | colony_protocol/src/planet_graph/name_generator.rs:44-69 | the result is `Choose` of the old used set, and the used set grows by exactly that name; it is unchanged on exhaustion |

## Left out

- The `CircularDependency` error of the building catalogue carries the walk as a list of building
  ids. The source joins that walk into one string with `" -> "` (colony_core/src/game/building/building_config.rs,
  lines 370-371); that string is not built here.
- JSON and file loading are not modelled. The loaders start from decoded records:
  - `load`, `load_from_file` and `load_from_string` of the structure, building and ship catalogues;
  - the `PlanetNameParts` configuration;
  - `NameGenerator::new`'s error path.
- Randomness is left out. `generate` takes the prefix and suffix indices as parameters. Map and
  graph generation and starting-planet assignment are not part of this model.
- `utils::name_to_id` and `GameState::calculate_fleet_bombardment` are called but not defined in
  the source. They are open function fields of the game view.
- `has_pending_fleet_move` and `has_pending_fleet_bombardment` are not defined either. They are
  modelled as "some pending action moves, or bombards with, this fleet".
- The older crate's `build` reads `game_state.planets` and the other commands read
  `game_state.map.planets`. Both are one `planets` map here.
- The newer crate's command files import `game_state`, `planet`, `ship`, `resources`,
  `commands::build` and `commands::status` paths that only the older crate defines. The model
  reuses the older crate's modules for them.
- The older crate's fleet commands build effects that only the newer crate declares. `upgrade`
  builds an `UpgradeStructure` effect that neither crate declares. One shared effect type holds
  the union.
- `Planet` calls `Structure::get_shield_regen_turns` and `Resources::capped_at`, which are not
  defined. They are modelled as the definition's shield-regeneration field and a per-axis
  minimum.
- A planet's structures are values in a map, not shared `Arc` references. Definitions are values
  too, so no aliasing between structures is modelled.
- `find_pending_action_on_planet_mut` returns a position in the list instead of a mutable
  reference.
- Hash-map iteration order is not fixed. Where a result depends on it, the order is a parameter
  that must list each key exactly once. This applies to:
  - `process_turn` and `recalculate_from_structures`;
  - `validate_counters`;
  - `check_circular_dependencies`.
- Report text is not modelled:
  - the `status` report formatting;
  - `map`, `ships`, `fleets` and `help` output;
  - the `Display` implementations;
  - the `end_turn` effect's player name.
- Terminal I/O, prompts and the game loop are not modelled.
- ProtocolParser.Parse: an input of whitespace only panics at the source's `unwrap`, so it is
  excluded by the precondition.
- CoreParser.Parse: likewise.
- ProtocolPlanet.Produced: states the frame and the capacity bound. The stock after the whole
  second loop is given step by step, through `PlanetData.ProduceFrom`, which `Produced` repeats;
  no closed form for the whole loop is stated.
- ProtocolStatus.Execute: states only whether the report can be produced. The report text is left
  out. The panic of the player report without a current player is a precondition, like the other
  panics.
- Integer widths are kept. Wherever the source would panic on overflow (`+=`, `-=` on `u32`), the
  operation requires the result to fit instead of modelling the panic.
