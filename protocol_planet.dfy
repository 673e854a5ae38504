/** A planet of the older crate (`colony_protocol::planet`): the structures built on it, the
  * resources it holds, the production and storage those structures give, and the shield of its
  * `defense_shield`. A planet owns its structures, so they are held here as values
  * (`ProtocolStructure.StructureData`) and changed with the same step functions the `Structure`
  * class is proved against. The iteration order of the source's hash map is a parameter `order`,
  * which must list every structure id exactly once. */
module ProtocolPlanet {
  import opened Ints
  import opened Wrappers
  import opened ProtocolResources
  import opened ProtocolStructureConfig
  import opened ProtocolStructure

  type PlanetId = string
  type PlayerId = string

  /** The cost and duration of a build or an upgrade that has been validated. */
  datatype BuildInfo = BuildInfo(cost: Resources, turns: U32)

  /** A lane to another planet, `distance` turns long. */
  datatype Connection = Connection(to: PlanetId, distance: U8)

  datatype PlanetError =
    | StructureNotFound(structure: StructureId, planet: PlanetId)
    | AlreadyUpgrading(structure: StructureId, planet: PlanetId)
    | MaxLevelReached(structure: StructureId, planet: PlanetId)
    | NotEnoughResources(name: string, cost: Resources)
    | StructureAlreadyExists(structure: StructureId, planet: PlanetId)
    | StructureDefinitionNotFound(structure: StructureId)
    | StructureFailed(error: StructureError)

  const DefenseShield: StructureId := "defense_shield"
  const PlanetaryCapital: StructureId := "planetary_capital"

  /** `order` lists every id of `keys` exactly once, and nothing else. */
  predicate Enumerates(order: seq<StructureId>, keys: set<StructureId>) {
    (forall i :: 0 <= i < |order| ==> order[i] in keys)
    && (forall k :: k in keys ==> k in order)
    && (forall i, j :: 0 <= i < j < |order| ==> order[i] != order[j])
  }

  /** Every id `order` lists is a structure of the map. */
  predicate Listed(order: seq<StructureId>, structures: map<StructureId, StructureData>) {
    forall i :: 0 <= i < |order| ==> order[i] in structures
  }

  // ---------------------------------------------------------------------------------------------
  // Totals over the structures, accumulated with the saturating `+=` in the order given

  /** Which total of the structures is meant: the storage of all of them, or the production or
    * the storage of the operational ones. */
  datatype Total = AllStorage | OperationalProduction | OperationalStorage

  /** What structure `s` adds to total `t`. */
  function Contribution(s: StructureData, t: Total): Resources {
    match t
    case AllStorage => s.storage
    case OperationalProduction => if s.state.Operational? then s.production else Zero
    case OperationalStorage => if s.state.Operational? then s.storage else Zero
  }

  /** The true sum of total `t` over the structures `order` lists, in unbounded integers. */
  function ExactTotal(structures: map<StructureId, StructureData>, order: seq<StructureId>, t: Total): Amount
    requires Listed(order, structures)
  {
    if order == [] then NoAmount
    else
      Plus(ExactTotal(structures, order[..|order| - 1], t),
           Exact(Contribution(structures[order[|order| - 1]], t)))
  }

  /** Removing one id from the list takes exactly that structure's contribution out of the sum. */
  lemma {:induction false} ExactTotalWithout(
    structures: map<StructureId, StructureData>, order: seq<StructureId>, j: nat, t: Total)
    requires Listed(order, structures) && j < |order|
    ensures Listed(order[..j] + order[j + 1..], structures)
    ensures ExactTotal(structures, order, t) ==
      Plus(ExactTotal(structures, order[..j] + order[j + 1..], t), Exact(Contribution(structures[order[j]], t)))
    decreases |order|, 1
  {
    ListedWithout(order, structures, j);
    if j == |order| - 1 {
      assert order[..j] + order[j + 1..] == order[..j];
    } else {
      ExactTotalWithoutInner(structures, order, j, t);
    }
  }

  /** `ExactTotalWithout` for an id before the last: the last contribution stays last. */
  lemma {:induction false} ExactTotalWithoutInner(
    structures: map<StructureId, StructureData>, order: seq<StructureId>, j: nat, t: Total)
    requires Listed(order, structures) && j < |order| - 1
    requires Listed(order[..j] + order[j + 1..], structures)
    ensures ExactTotal(structures, order, t) ==
      Plus(ExactTotal(structures, order[..j] + order[j + 1..], t), Exact(Contribution(structures[order[j]], t)))
    decreases |order|, 0
  {
    var n := |order| - 1;
    var rest := order[..j] + order[j + 1..];
    var init := order[..n];
    var restInit := init[..j] + init[j + 1..];
    WithoutBeforeLast(order, j);
    ExactTotalWithout(structures, init, j, t);
    var last := Exact(Contribution(structures[order[n]], t));
    assert ExactTotal(structures, rest, t) == Plus(ExactTotal(structures, restInit, t), last);
    assert ExactTotal(structures, order, t) == Plus(ExactTotal(structures, init, t), last);
  }

  /** Taking an id out of a list of structures leaves a list of structures. */
  lemma ListedWithout(order: seq<StructureId>, structures: map<StructureId, StructureData>, j: nat)
    requires Listed(order, structures) && j < |order|
    ensures Listed(order[..j] + order[j + 1..], structures)
  {
    var rest := order[..j] + order[j + 1..];
    forall i | 0 <= i < |rest|
      ensures rest[i] in structures
    {
      assert rest[i] == order[if i < j then i else i + 1];
    }
  }

  /** Taking out an id before the last one keeps the last id last. */
  lemma WithoutBeforeLast(order: seq<StructureId>, j: nat)
    requires j < |order| - 1
    ensures var rest := order[..j] + order[j + 1..];
      var init := order[..|order| - 1];
      |rest| == |order| - 1 && rest[..|rest| - 1] == init[..j] + init[j + 1..] && rest[|rest| - 1] == order[|order| - 1]
  {
    var rest := order[..j] + order[j + 1..];
    var init := order[..|order| - 1];
    assert rest[..|rest| - 1] == init[..j] + init[j + 1..];
  }

  /** Taking out the `j`-th id of a list that enumerates `keys` enumerates the other keys. */
  lemma EnumeratesWithout(order: seq<StructureId>, keys: set<StructureId>, j: nat)
    requires Enumerates(order, keys) && j < |order|
    ensures Enumerates(order[..j] + order[j + 1..], keys - {order[j]})
  {
    var rest := order[..j] + order[j + 1..];
    forall i | 0 <= i < |rest|
      ensures rest[i] == order[if i < j then i else i + 1]
    {
    }
    forall i | 0 <= i < |rest|
      ensures rest[i] in keys - {order[j]}
    {
      var i' := if i < j then i else i + 1;
      assert rest[i] == order[i'] && i' != j;
    }
    forall a, b | 0 <= a < b < |rest|
      ensures rest[a] != rest[b]
    {
      var a' := if a < j then a else a + 1;
      var b' := if b < j then b else b + 1;
      assert rest[a] == order[a'] && rest[b] == order[b'] && a' < b';
    }
    forall k | k in keys - {order[j]}
      ensures k in rest
    {
      var m :| 0 <= m < |order| && order[m] == k;
      if m < j {
        assert rest[m] == k;
      } else {
        assert rest[m - 1] == k;
      }
    }
  }

  /** The true sum does not depend on the order: two lists that each enumerate the same keys give
    * the same total. */
  lemma {:induction false} ExactTotalOrderFree(
    structures: map<StructureId, StructureData>, order1: seq<StructureId>, order2: seq<StructureId>,
    keys: set<StructureId>, t: Total)
    requires keys <= structures.Keys && Enumerates(order1, keys) && Enumerates(order2, keys)
    ensures ExactTotal(structures, order1, t) == ExactTotal(structures, order2, t)
    decreases |order1|
  {
    if order1 == [] {
      assert keys == {};
    } else {
      var n := |order1| - 1;
      var a := order1[n];
      assert a in order2;
      var j :| 0 <= j < |order2| && order2[j] == a;
      EnumeratesWithout(order1, keys, n);
      assert order1[..n] + order1[n + 1..] == order1[..n];
      EnumeratesWithout(order2, keys, j);
      ExactTotalOrderFree(structures, order1[..n], order2[..j] + order2[j + 1..], keys - {a}, t);
      ExactTotalWithout(structures, order2, j, t);
    }
  }

  /** Storage of every structure, whatever its state (the first loop of `process_turn`). */
  function StorageOfAll(structures: map<StructureId, StructureData>, order: seq<StructureId>): (r: Resources)
    requires Listed(order, structures)
    ensures forall i :: 0 <= i < |order| ==> HasEnough(r, structures[order[i]].storage)
  {
    if order == [] then Zero
    else
      var init := order[..|order| - 1];
      AddAssign(StorageOfAll(structures, init), structures[order[|order| - 1]].storage)
  }

  /** Production of the operational structures only. */
  function ProductionOfOperational(structures: map<StructureId, StructureData>, order: seq<StructureId>)
    : (r: Resources)
    requires Listed(order, structures)
    ensures forall i :: 0 <= i < |order| && structures[order[i]].state.Operational? ==>
      HasEnough(r, structures[order[i]].production)
  {
    if order == [] then Zero
    else
      var init := order[..|order| - 1];
      var s := structures[order[|order| - 1]];
      if s.state.Operational? then AddAssign(ProductionOfOperational(structures, init), s.production)
      else ProductionOfOperational(structures, init)
  }

  /** Storage of the operational structures only. */
  function StorageOfOperational(structures: map<StructureId, StructureData>, order: seq<StructureId>)
    : (r: Resources)
    requires Listed(order, structures)
    ensures forall i :: 0 <= i < |order| && structures[order[i]].state.Operational? ==>
      HasEnough(r, structures[order[i]].storage)
  {
    if order == [] then Zero
    else
      var init := order[..|order| - 1];
      var s := structures[order[|order| - 1]];
      if s.state.Operational? then AddAssign(StorageOfOperational(structures, init), s.storage)
      else StorageOfOperational(structures, init)
  }

  /** Each total is the true sum over the listed structures, cut at `u32::MAX` on every axis: the
    * saturating `+=` loses nothing but the excess. */
  lemma {:induction false} TotalsAreClampedSums(structures: map<StructureId, StructureData>, order: seq<StructureId>)
    requires Listed(order, structures)
    ensures StorageOfAll(structures, order) == Clamped(ExactTotal(structures, order, AllStorage))
    ensures ProductionOfOperational(structures, order) == Clamped(ExactTotal(structures, order, OperationalProduction))
    ensures StorageOfOperational(structures, order) == Clamped(ExactTotal(structures, order, OperationalStorage))
  {
    if order != [] {
      var init := order[..|order| - 1];
      var s := structures[order[|order| - 1]];
      TotalsAreClampedSums(structures, init);
      AccumulateClamped(ExactTotal(structures, init, AllStorage), s.storage);
      AccumulateClamped(ExactTotal(structures, init, OperationalProduction), s.production);
      AccumulateClamped(ExactTotal(structures, init, OperationalStorage), s.storage);
    }
  }

  /** The totals do not depend on the iteration order of the map: any two orders that list every
    * structure once give the same three totals. */
  lemma TotalsIndependentOfOrder(
    structures: map<StructureId, StructureData>, order1: seq<StructureId>, order2: seq<StructureId>)
    requires Enumerates(order1, structures.Keys) && Enumerates(order2, structures.Keys)
    ensures StorageOfAll(structures, order1) == StorageOfAll(structures, order2)
    ensures ProductionOfOperational(structures, order1) == ProductionOfOperational(structures, order2)
    ensures StorageOfOperational(structures, order1) == StorageOfOperational(structures, order2)
  {
    TotalsAreClampedSums(structures, order1);
    TotalsAreClampedSums(structures, order2);
    ExactTotalOrderFree(structures, order1, order2, structures.Keys, AllStorage);
    ExactTotalOrderFree(structures, order1, order2, structures.Keys, OperationalProduction);
    ExactTotalOrderFree(structures, order1, order2, structures.Keys, OperationalStorage);
  }

  /** A structure that is not operational adds nothing to the operational totals: replacing it by
    * any other non-operational structure leaves them as they were. */
  lemma {:induction false} NonOperationalContributesNothing(
    structures: map<StructureId, StructureData>, order: seq<StructureId>, k: StructureId, other: StructureData)
    requires Listed(order, structures) && k in structures
    requires !structures[k].state.Operational? && !other.state.Operational?
    ensures Listed(order, structures[k := other])
    ensures ProductionOfOperational(structures[k := other], order) == ProductionOfOperational(structures, order)
    ensures StorageOfOperational(structures[k := other], order) == StorageOfOperational(structures, order)
  {
    if order != [] {
      NonOperationalContributesNothing(structures, order[..|order| - 1], k, other);
    }
  }

  /** With no operational structure, the operational totals are zero. */
  lemma {:induction false} NoOperationalNoTotals(structures: map<StructureId, StructureData>, order: seq<StructureId>)
    requires Listed(order, structures)
    ensures (forall i :: 0 <= i < |order| ==> !structures[order[i]].state.Operational?) ==>
      ProductionOfOperational(structures, order) == Zero && StorageOfOperational(structures, order) == Zero
  {
    if order != [] {
      NoOperationalNoTotals(structures, order[..|order| - 1]);
    }
  }

  // ---------------------------------------------------------------------------------------------
  // The shield

  /** The shield part of `process_turn`, given the regeneration delay and the maximum shield of
    * the `defense_shield` (if one is built): a shield at zero is raised to the maximum at once
    * (the structure was just built); a shield below the maximum regenerates to it once the timer
    * reaches the delay. Returns the new shield and timer. */
  function ShieldStep(shieldHp: U32, timer: U32, regenTurns: Option<U32>, maxShield: U32): (r: (U32, U32))
    requires regenTurns.Some? && !(shieldHp == 0 && maxShield > 0) && shieldHp < maxShield ==> timer < U32_MAX
    ensures regenTurns.None? ==> r == (shieldHp, timer)
    ensures r.0 == shieldHp || (r.0 == maxShield && shieldHp < maxShield)
    ensures r.1 == timer || r.1 == timer + 1 || r.1 == 0
    ensures regenTurns.Some? && 0 < shieldHp < maxShield ==>
      if timer + 1 >= regenTurns.value then r == (maxShield, 0) else r == (shieldHp, timer + 1)
    ensures regenTurns.Some? && shieldHp == 0 && maxShield > 0 ==> r == (maxShield, timer)
    ensures regenTurns.Some? && shieldHp >= maxShield ==> r == (shieldHp, timer)
  {
    match regenTurns
    case None => (shieldHp, timer)
    case Some(regen) =>
      if shieldHp == 0 && maxShield > 0 then (maxShield, timer)
      else if shieldHp < maxShield then
        var t := timer + 1;
        if t >= regen then (maxShield, 0) else (shieldHp, t)
      else (shieldHp, timer)
  }

  /** `n` turns of shield logic with nothing else changing. */
  function ShieldSteps(shieldHp: U32, timer: U32, regenTurns: U32, maxShield: U32, n: nat): (U32, U32)
    requires timer < regenTurns
    decreases n
  {
    if n == 0 then (shieldHp, timer)
    else
      var r := ShieldStep(shieldHp, timer, Some(regenTurns), maxShield);
      if r.1 < regenTurns then ShieldSteps(r.0, r.1, regenTurns, maxShield, n - 1) else r
  }

  /** A damaged shield whose timer is `timer` is back at its maximum, with the timer reset, after
    * exactly `regenTurns - timer` undamaged turns, and not before. */
  lemma {:induction false} ShieldRegenerates(shieldHp: U32, timer: U32, regenTurns: U32, maxShield: U32)
    requires 0 < shieldHp < maxShield && timer < regenTurns
    ensures ShieldSteps(shieldHp, timer, regenTurns, maxShield, regenTurns - timer) == (maxShield, 0)
    ensures forall n :: 0 <= n < regenTurns - timer ==>
      ShieldSteps(shieldHp, timer, regenTurns, maxShield, n) == (shieldHp, timer + n)
    decreases regenTurns - timer
  {
    if timer + 1 < regenTurns {
      ShieldRegenerates(shieldHp, timer + 1, regenTurns, maxShield);
      forall n | 0 < n < regenTurns - timer
        ensures ShieldSteps(shieldHp, timer, regenTurns, maxShield, n) == (shieldHp, timer + n)
      {
        assert ShieldSteps(shieldHp, timer, regenTurns, maxShield, n)
            == ShieldSteps(shieldHp, timer + 1, regenTurns, maxShield, n - 1);
      }
    }
  }

  // ---------------------------------------------------------------------------------------------
  // The planet as a value

  /** Every field of a `Planet`. */
  datatype PlanetData = PlanetData(
    id: PlanetId,
    name: string,
    connections: seq<Connection>,
    owner: Option<PlayerId>,
    structures: map<StructureId, StructureData>,
    productionRate: Resources,
    availableResources: Resources,
    storageCapacity: Resources,
    shieldHp: U32,
    shieldRegenTimer: U32)
  {
    /** `get_structure_level`: the structure's level, 0 when it is not built. */
    function GetStructureLevel(structure: StructureId): (level: U16)
      ensures structure !in structures ==> level == 0
      ensures structure in structures ==> level == structures[structure].level
    {
      if structure in structures then structures[structure].level else 0
    }

    /** `get_max_shield_hp`: the hit points of the `defense_shield`, 0 without one. */
    function GetMaxShieldHp(): (hp: U32)
      ensures DefenseShield !in structures ==> hp == 0
      ensures DefenseShield in structures ==> hp == structures[DefenseShield].hitpoints
    {
      if DefenseShield in structures then structures[DefenseShield].hitpoints else 0
    }

    /** `get_shield_regen_turns`: the regeneration delay the `defense_shield`'s definition gives,
      * none without a shield. */
    function GetShieldRegenTurns(): (r: Option<U32>)
      ensures DefenseShield !in structures ==> r.None?
      ensures DefenseShield in structures ==> r == structures[DefenseShield].definition.shieldRegenTurns
    {
      if DefenseShield in structures then structures[DefenseShield].definition.shieldRegenTurns else None
    }

    /** `take_shield_damage`: the shield absorbs what it can; the rest passes through and is
      * returned. Any hit resets the regeneration timer. */
    function TakeShieldDamage(damage: U32): (r: (PlanetData, U32))
      ensures r.0 == this.(shieldHp := r.0.shieldHp, shieldRegenTimer := 0)
      ensures damage >= shieldHp ==> r.0.shieldHp == 0 && r.1 == damage - shieldHp
      ensures damage < shieldHp ==> r.0.shieldHp == shieldHp - damage && r.1 == 0
      ensures (shieldHp - r.0.shieldHp) + r.1 == damage
    {
      if damage >= shieldHp then (this.(shieldRegenTimer := 0, shieldHp := 0), damage - shieldHp)
      else (this.(shieldRegenTimer := 0, shieldHp := shieldHp - damage), 0)
    }

    /** `validate_build_structure`: read-only. Fails, in this order, when the structure is already
      * built, when the catalogue has no definition for it, when its first level has no cost, and
      * when the planet cannot afford that cost; otherwise reports the first level's cost and build
      * time. The build time is read before the cost, and the source panics when it is absent. */
    function ValidateBuildStructure(structure: StructureId, config: StructureConfig): (r: Result<BuildInfo, PlanetError>)
      requires structure !in structures && structure in config.structures ==>
        |config.structures[structure].upgradeTime| >= 1
      ensures structure in structures ==> r == Err(StructureAlreadyExists(structure, id))
      ensures structure !in structures && structure !in config.structures ==>
        r == Err(StructureDefinitionNotFound(structure))
      ensures structure !in structures && structure in config.structures ==>
        var d := config.structures[structure];
        && (|d.costs| == 0 ==> r == Err(StructureFailed(InvalidLevel(d.name, 0, d.maxLevel))))
        && (|d.costs| > 0 && !HasEnough(availableResources, d.costs[0]) ==> r == Err(NotEnoughResources(name, d.costs[0])))
        && (|d.costs| > 0 && HasEnough(availableResources, d.costs[0]) ==> r == Ok(BuildInfo(d.costs[0], d.upgradeTime[0])))
    {
      if structure in structures then Err(StructureAlreadyExists(structure, id))
      else
        match config.Get(structure)
        case None => Err(StructureDefinitionNotFound(structure))
        case Some(d) =>
          var buildTime := d.upgradeTime[0];
          match NewData(d).CostToUpgrade()
          case Err(e) => Err(StructureFailed(e))
          case Ok(cost) =>
            if !HasEnough(availableResources, cost) then Err(NotEnoughResources(name, cost))
            else Ok(BuildInfo(cost, buildTime))
    }

    /** What `validate_upgrade_structure` needs to run without a panic: when every check passes,
      * the upgrade-time table has an entry for the next level. */
    predicate UpgradeTimeKnown(structure: StructureId) {
      structure in structures ==>
        var s := structures[structure];
        !s.state.Upgrading? && !s.IsMaxLevel() && s.CostToUpgrade().Ok?
        && HasEnough(availableResources, s.CostToUpgrade().value)
        ==> s.level < |s.definition.upgradeTime|
    }

    /** `validate_upgrade_structure`: read-only. Fails, in this order, when the structure is not
      * built, when it is already upgrading, when it is at its maximum level, when its next level
      * has no cost, and when the planet cannot afford that cost; otherwise reports the next
      * level's cost and upgrade time. */
    function ValidateUpgradeStructure(structure: StructureId): (r: Result<BuildInfo, PlanetError>)
      requires UpgradeTimeKnown(structure)
      ensures structure !in structures ==> r == Err(StructureNotFound(structure, id))
      ensures structure in structures ==>
        var s := structures[structure];
        && (s.state.Upgrading? ==> r == Err(AlreadyUpgrading(structure, id)))
        && (!s.state.Upgrading? && s.IsMaxLevel() ==> r == Err(MaxLevelReached(structure, id)))
        && (!s.state.Upgrading? && !s.IsMaxLevel() && s.CostToUpgrade().Err? ==>
              r == Err(StructureFailed(s.CostToUpgrade().error)))
        && (!s.state.Upgrading? && !s.IsMaxLevel() && s.CostToUpgrade().Ok? ==>
              if HasEnough(availableResources, s.CostToUpgrade().value)
              then r == Ok(BuildInfo(s.CostToUpgrade().value, s.GetUpgradeTime()))
              else r == Err(NotEnoughResources(name, s.CostToUpgrade().value)))
      ensures r.Ok? ==> r.value.cost == structures[structure].definition.costs[structures[structure].level]
    {
      if structure !in structures then Err(StructureNotFound(structure, id))
      else
        var s := structures[structure];
        if s.state.Upgrading? then Err(AlreadyUpgrading(structure, id))
        else if s.IsMaxLevel() then Err(MaxLevelReached(structure, id))
        else
          match s.CostToUpgrade()
          case Err(e) => Err(StructureFailed(e))
          case Ok(cost) =>
            if !HasEnough(availableResources, cost) then Err(NotEnoughResources(name, cost))
            else Ok(BuildInfo(cost, s.GetUpgradeTime()))
    }

    /** `complete_build_structure`: puts an operational level-1 structure of the definition on the
      * planet (replacing one with the same id). Fails, leaving the planet unchanged, when the
      * catalogue has no such definition or the definition has no level 1. */
    function CompleteBuildStructure(structure: StructureId, config: StructureConfig): (r: (PlanetData, Result<Unit, PlanetError>))
      requires structure in config.structures && config.structures[structure].maxLevel >= 1 ==>
        HasLevel(config.structures[structure], 1)
      ensures structure !in config.structures ==> r == (this, Err(StructureDefinitionNotFound(structure)))
      ensures structure in config.structures && config.structures[structure].maxLevel == 0 ==>
        r == (this, Err(StructureFailed(InvalidLevel(config.structures[structure].name, 1, 0))))
      ensures r.1.Ok? <==> structure in config.structures && config.structures[structure].maxLevel >= 1
      ensures r.1.Ok? ==>
        r.0 == this.(structures := r.0.structures) && r.0.structures.Keys == structures.Keys + {structure}
        && (forall k :: k in structures && k != structure ==> r.0.structures[k] == structures[k])
        && Ok(r.0.structures[structure]) == NewDataAtLevel(config.structures[structure], 1)
        && r.0.GetStructureLevel(structure) == 1 && r.0.structures[structure].state.Operational?
    {
      match config.Get(structure)
      case None => (this, Err(StructureDefinitionNotFound(structure)))
      case Some(d) =>
        match NewDataAtLevel(d, 1)
        case Err(e) => (this, Err(StructureFailed(e)))
        case Ok(s) => (this.(structures := structures[structure := s]), Ok(Unit))
    }

    /** What `complete_upgrade_structure` needs to run without a panic: the next level fits in a
      * `u16` and has table entries. */
    predicate CanCompleteUpgrade(structure: StructureId) {
      structure in structures ==>
        structures[structure].level + 1 <= U16_MAX
        && HasLevel(structures[structure].definition, structures[structure].level + 1)
    }

    /** `complete_upgrade_structure`: raises an existing structure by one level, or fails with
      * `StructureNotFound` and leaves the planet unchanged. */
    function CompleteUpgradeStructure(structure: StructureId): (r: (PlanetData, Result<Unit, PlanetError>))
      requires CanCompleteUpgrade(structure)
      ensures structure !in structures ==> r == (this, Err(StructureNotFound(structure, id)))
      ensures structure in structures ==>
        r.1.Ok? && r.0 == this.(structures := structures[structure := structures[structure].CompleteUpgrade()])
        && r.0.GetStructureLevel(structure) == GetStructureLevel(structure) + 1
    {
      if structure !in structures then (this, Err(StructureNotFound(structure, id)))
      else (this.(structures := structures[structure := structures[structure].CompleteUpgrade()]), Ok(Unit))
    }

    /** `recalculate_from_structures`: production rate and storage capacity become the totals over
      * the operational structures. */
    function RecalculateFromStructures(order: seq<StructureId>): (r: PlanetData)
      requires Enumerates(order, structures.Keys)
      ensures r == this.(productionRate := r.productionRate, storageCapacity := r.storageCapacity)
      ensures r.productionRate == Clamped(ExactTotal(structures, order, OperationalProduction))
      ensures r.storageCapacity == Clamped(ExactTotal(structures, order, OperationalStorage))
      ensures forall k :: k in structures && structures[k].state.Operational? ==>
        HasEnough(r.productionRate, structures[k].production) && HasEnough(r.storageCapacity, structures[k].storage)
      ensures (forall k :: k in structures ==> !structures[k].state.Operational?) ==>
        r.productionRate == Zero && r.storageCapacity == Zero
    {
      assert forall k :: k in structures ==> exists i :: 0 <= i < |order| && order[i] == k;
      NoOperationalNoTotals(structures, order);
      TotalsAreClampedSums(structures, order);
      this.(productionRate := ProductionOfOperational(structures, order),
            storageCapacity := StorageOfOperational(structures, order))
    }

    /** `produce_resources`: adds the production rate and caps every axis at the storage
      * capacity. */
    function ProduceResources(): (r: PlanetData)
      ensures r == this.(availableResources := r.availableResources)
      ensures HasEnough(storageCapacity, r.availableResources)
      ensures r.availableResources == CappedAt(AddAssign(availableResources, productionRate), storageCapacity)
    {
      this.(availableResources := CappedAt(AddAssign(availableResources, productionRate), storageCapacity))
    }

    /** What `colonize` needs to run without a panic: a capital definition with a level 1 has the
      * level-1 table entries. */
    predicate CanColonize(config: StructureConfig) {
      PlanetaryCapital in config.structures && config.structures[PlanetaryCapital].maxLevel >= 1 ==>
        HasLevel(config.structures[PlanetaryCapital], 1)
    }

    /** `colonize`: puts a level-1 `planetary_capital` on the planet, recalculates the totals and
      * fills the stores to capacity. When the capital has no definition, or no level 1, it fails
      * and the planet is unchanged. `order` lists the structures after the capital is added. */
    function Colonize(config: StructureConfig, order: seq<StructureId>): (r: (PlanetData, Result<Unit, PlanetError>))
      requires CanColonize(config)
      requires Enumerates(order, structures.Keys + {PlanetaryCapital})
      ensures r.1.Ok? <==> PlanetaryCapital in config.structures && config.structures[PlanetaryCapital].maxLevel >= 1
      ensures r.1.Err? ==> r.0 == this
      ensures PlanetaryCapital !in config.structures ==> r.1 == Err(StructureDefinitionNotFound(PlanetaryCapital))
      ensures r.1.Ok? ==>
        r.0 == CompleteBuildStructure(PlanetaryCapital, config).0.RecalculateFromStructures(order)
                 .(availableResources := r.0.storageCapacity)
        && r.0.GetStructureLevel(PlanetaryCapital) == 1
        && r.0.availableResources == r.0.storageCapacity
        && HasEnough(r.0.storageCapacity, r.0.structures[PlanetaryCapital].storage)
    {
      match config.Get(PlanetaryCapital)
      case None => (this, Err(StructureDefinitionNotFound(PlanetaryCapital)))
      case Some(d) =>
        match NewDataAtLevel(d, 1)
        case Err(e) => (this, Err(StructureFailed(e)))
        case Ok(capital) =>
          var built := this.(structures := structures[PlanetaryCapital := capital]);
          var recalculated := built.RecalculateFromStructures(order);
          (recalculated.(availableResources := recalculated.storageCapacity), Ok(Unit))
    }

    // -------------------------------------------------------------------------------------------
    // process_turn

    /** What one iteration of the second loop of `process_turn` needs: the structure's energy
      * consumption is defined and affordable (the source subtracts it with an unchecked `-=`),
      * and its own turn can run. */
    predicate CanProduceFrom(structure: StructureId) {
      structure in structures
      && var s := structures[structure];
      && (!s.state.Upgrading? ==> 1 <= s.level <= |s.definition.energyConsumption|)
      && s.EnergyConsumption() <= availableResources.energy
      && s.CanProcessTurn()
    }

    /** One iteration of the second loop of `process_turn`: pay the structure's energy, add its
      * production capped at storage on every axis, and run its turn. */
    function ProduceFrom(structure: StructureId): (r: PlanetData)
      requires CanProduceFrom(structure)
      ensures r == this.(availableResources := r.availableResources, structures := r.structures)
      ensures r.structures == structures[structure := structures[structure].ProcessTurn()]
      ensures HasEnough(storageCapacity, r.availableResources)
      ensures var s := structures[structure];
        r.availableResources.minerals
          == Min(Min(availableResources.minerals + s.production.minerals, U32_MAX), storageCapacity.minerals)
        && r.availableResources.gas
          == Min(Min(availableResources.gas + s.production.gas, U32_MAX), storageCapacity.gas)
        && r.availableResources.energy
          == Min(Min(availableResources.energy - s.EnergyConsumption() + s.production.energy, U32_MAX),
                 storageCapacity.energy)
      ensures availableResources.minerals <= storageCapacity.minerals ==>
        availableResources.minerals <= r.availableResources.minerals
      ensures availableResources.gas <= storageCapacity.gas ==> availableResources.gas <= r.availableResources.gas
    {
      var s := structures[structure];
      var energy := availableResources.energy - s.EnergyConsumption();
      var available := Resources(
        Min(SaturatingAdd(availableResources.minerals, s.production.minerals), storageCapacity.minerals),
        Min(SaturatingAdd(availableResources.gas, s.production.gas), storageCapacity.gas),
        Min(SaturatingAdd(energy, s.production.energy), storageCapacity.energy));
      this.(availableResources := available, structures := structures[structure := s.ProcessTurn()])
    }

    /** What the shield part of `process_turn` needs: a timer that is about to be incremented is
      * below `u32::MAX`. */
    predicate CanStepShield() {
      GetShieldRegenTurns().Some? && !(shieldHp == 0 && GetMaxShieldHp() > 0) && shieldHp < GetMaxShieldHp()
      ==> shieldRegenTimer < U32_MAX
    }

    /** The shield part of `process_turn`. */
    function StepShield(): (r: PlanetData)
      requires CanStepShield()
      ensures r == this.(shieldHp := r.shieldHp, shieldRegenTimer := r.shieldRegenTimer)
      ensures (r.shieldHp, r.shieldRegenTimer)
           == ShieldStep(shieldHp, shieldRegenTimer, GetShieldRegenTurns(), GetMaxShieldHp())
    {
      var (hp, timer) := ShieldStep(shieldHp, shieldRegenTimer, GetShieldRegenTurns(), GetMaxShieldHp());
      this.(shieldHp := hp, shieldRegenTimer := timer)
    }

    /** The first loop of `process_turn`: storage from every structure, production from the
      * operational ones. */
    function WithTurnTotals(order: seq<StructureId>): (r: PlanetData)
      requires Listed(order, structures)
    {
      this.(storageCapacity := StorageOfAll(structures, order),
            productionRate := ProductionOfOperational(structures, order))
    }

    /** Every precondition of a whole `process_turn`. */
    predicate CanProcessTurn(order: seq<StructureId>) {
      Enumerates(order, structures.Keys)
      && CanProduceAll(WithTurnTotals(order), order)
      && Produced(WithTurnTotals(order), order).CanStepShield()
    }

    /** `process_turn`. */
    function ProcessTurn(order: seq<StructureId>): (r: PlanetData)
      requires CanProcessTurn(order)
    {
      Produced(WithTurnTotals(order), order).StepShield()
    }
  }

  /** The second loop of `process_turn` over `order` can run: each listed structure's iteration can
    * run on what the iterations before it left. */
  predicate CanProduceAll(p: PlanetData, order: seq<StructureId>)
    decreases |order|
  {
    order == [] || (p.CanProduceFrom(order[0]) && CanProduceAll(p.ProduceFrom(order[0]), order[1..]))
  }

  /** The second loop of `process_turn` over `order`, one `ProduceFrom` per listed structure. */
  function Produced(p: PlanetData, order: seq<StructureId>): (r: PlanetData)
    requires CanProduceAll(p, order)
    ensures r == p.(availableResources := r.availableResources, structures := r.structures)
    ensures r.structures.Keys == p.structures.Keys
    ensures order != [] ==> HasEnough(p.storageCapacity, r.availableResources)
    decreases |order|
  {
    if order == [] then p else Produced(p.ProduceFrom(order[0]), order[1..])
  }

  /** After a turn of a planet with at least one structure, no resource exceeds the storage
    * capacity computed for that turn, which is the total storage of every structure. */
  lemma TurnRespectsCapacity(p: PlanetData, order: seq<StructureId>)
    requires p.CanProcessTurn(order) && p.structures != map[]
    ensures p.ProcessTurn(order).storageCapacity == StorageOfAll(p.structures, order)
    ensures HasEnough(p.ProcessTurn(order).storageCapacity, p.ProcessTurn(order).availableResources)
  {
    var k :| k in p.structures;
    assert k in order;
  }

  /** A shield that damage has brought to zero is back at the maximum of the `defense_shield`
    * after the shield part of the next turn, and its regeneration timer is left at zero. */
  lemma ZeroedShieldRestored(p: PlanetData, damage: U32)
    requires damage >= p.shieldHp
    requires p.GetShieldRegenTurns().Some? && p.GetMaxShieldHp() > 0
    ensures p.TakeShieldDamage(damage).0.CanStepShield()
    ensures p.TakeShieldDamage(damage).0.StepShield().shieldHp == p.GetMaxShieldHp()
    ensures p.TakeShieldDamage(damage).0.StepShield().shieldRegenTimer == 0
  {
  }

  /** A turn changes the shield only by raising it to the maximum of the `defense_shield`. */
  lemma TurnNeverLowersShield(p: PlanetData, order: seq<StructureId>)
    requires p.CanProcessTurn(order)
    ensures var r := p.ProcessTurn(order);
      r.shieldHp == p.shieldHp || (r.shieldHp == r.GetMaxShieldHp() && p.shieldHp < r.shieldHp)
  {
  }

  /** Paying for a validated build and building it: the payment is lossless, and afterwards the
    * structure stands at level 1, so a second build of it is refused. */
  lemma ValidatedBuildCompletes(p: PlanetData, structure: StructureId, config: StructureConfig)
    requires structure !in p.structures && structure in config.structures
    requires |config.structures[structure].upgradeTime| >= 1
    requires config.structures[structure].maxLevel >= 1 && HasLevel(config.structures[structure], 1)
    requires p.ValidateBuildStructure(structure, config).Ok?
    ensures var cost := p.ValidateBuildStructure(structure, config).value.cost;
      Add(Sub(p.availableResources, cost), cost) == p.availableResources
    ensures var built := p.CompleteBuildStructure(structure, config);
      built.1.Ok? && built.0.GetStructureLevel(structure) == 1
      && built.0.ValidateBuildStructure(structure, config) == Err(StructureAlreadyExists(structure, p.id))
  {
    SubThenAddRestores(p.availableResources, p.ValidateBuildStructure(structure, config).value.cost);
  }

  /** A validated upgrade, once completed, raises the structure exactly one level, still within
    * its maximum. */
  lemma ValidatedUpgradeCompletes(p: PlanetData, structure: StructureId)
    requires p.UpgradeTimeKnown(structure) && p.CanCompleteUpgrade(structure)
    requires p.ValidateUpgradeStructure(structure).Ok?
    requires p.structures[structure].maxLevel == p.structures[structure].definition.maxLevel
    ensures var up := p.CompleteUpgradeStructure(structure);
      up.1.Ok? && up.0.GetStructureLevel(structure) == p.GetStructureLevel(structure) + 1
      && up.0.GetStructureLevel(structure) <= p.structures[structure].definition.maxLevel
  {
  }

  /** A planet, with the fields its methods update in place. */
  class Planet {
    const id: PlanetId
    const name: string
    var connections: seq<Connection>
    var owner: Option<PlayerId>
    var structures: map<StructureId, StructureData>
    var productionRate: Resources
    var availableResources: Resources
    var storageCapacity: Resources
    var shieldHp: U32
    var shieldRegenTimer: U32

    function Data(): PlanetData
      reads this
    {
      PlanetData(id, name, connections, owner, structures, productionRate, availableResources, storageCapacity,
        shieldHp, shieldRegenTimer)
    }

    /** `new`: no structures, no resources, no shield. */
    constructor New(id: PlanetId, name: string, owner: Option<PlayerId>, connections: seq<Connection>)
      ensures Data() == PlanetData(id, name, connections, owner, map[], Zero, Zero, Zero, 0, 0)
    {
      this.id := id;
      this.name := name;
      this.owner := owner;
      this.connections := connections;
      structures := map[];
      productionRate := Zero;
      availableResources := Zero;
      storageCapacity := Zero;
      shieldHp := 0;
      shieldRegenTimer := 0;
    }

    /** `set_owner`. */
    method SetOwner(newOwner: PlayerId)
      modifies this
      ensures Data() == old(Data()).(owner := Some(newOwner))
    {
      owner := Some(newOwner);
    }

    /** `add_connection`. */
    method AddConnection(connection: Connection)
      modifies this
      ensures Data() == old(Data()).(connections := old(connections) + [connection])
    {
      connections := connections + [connection];
    }

    /** `take_shield_damage`. */
    method TakeShieldDamage(damage: U32) returns (overflow: U32)
      modifies this
      ensures (Data(), overflow) == old(Data()).TakeShieldDamage(damage)
    {
      shieldRegenTimer := 0;
      if damage >= shieldHp {
        overflow := damage - shieldHp;
        shieldHp := 0;
      } else {
        shieldHp := shieldHp - damage;
        overflow := 0;
      }
    }

    /** `complete_build_structure`. */
    method CompleteBuildStructure(structure: StructureId, config: StructureConfig) returns (r: Result<Unit, PlanetError>)
      requires structure in config.structures && config.structures[structure].maxLevel >= 1 ==>
        HasLevel(config.structures[structure], 1)
      modifies this
      ensures (Data(), r) == old(Data()).CompleteBuildStructure(structure, config)
    {
      var definition := config.Get(structure);
      if definition.None? {
        return Err(StructureDefinitionNotFound(structure));
      }
      var s := NewDataAtLevel(definition.value, 1);
      if s.Err? {
        return Err(StructureFailed(s.error));
      }
      structures := structures[structure := s.value];
      r := Ok(Unit);
    }

    /** `complete_upgrade_structure`. */
    method CompleteUpgradeStructure(structure: StructureId) returns (r: Result<Unit, PlanetError>)
      requires Data().CanCompleteUpgrade(structure)
      modifies this
      ensures (Data(), r) == old(Data()).CompleteUpgradeStructure(structure)
    {
      if structure !in structures {
        return Err(StructureNotFound(structure, id));
      }
      structures := structures[structure := structures[structure].CompleteUpgrade()];
      r := Ok(Unit);
    }

    /** `recalculate_from_structures`. */
    method RecalculateFromStructures(order: seq<StructureId>)
      requires Enumerates(order, structures.Keys)
      modifies this
      ensures Data() == old(Data()).RecalculateFromStructures(order)
    {
      productionRate := Zero;
      storageCapacity := Zero;
      var i := 0;
      while i < |order|
        invariant 0 <= i <= |order|
        invariant Data() == old(Data()).(productionRate := productionRate, storageCapacity := storageCapacity)
        invariant productionRate == ProductionOfOperational(structures, order[..i])
        invariant storageCapacity == StorageOfOperational(structures, order[..i])
      {
        assert order[..i + 1][..i] == order[..i];
        var s := structures[order[i]];
        if s.state.Operational? {
          productionRate := AddAssign(productionRate, s.production);
          storageCapacity := AddAssign(storageCapacity, s.storage);
        }
        i := i + 1;
      }
      assert order[..i] == order;
    }

    /** `produce_resources`. */
    method ProduceResources()
      modifies this
      ensures Data() == old(Data()).ProduceResources()
    {
      availableResources := AddAssign(availableResources, productionRate);
      availableResources := CappedAt(availableResources, storageCapacity);
    }

    /** `colonize`. */
    method Colonize(config: StructureConfig, order: seq<StructureId>) returns (r: Result<Unit, PlanetError>)
      requires Data().CanColonize(config)
      requires Enumerates(order, structures.Keys + {PlanetaryCapital})
      modifies this
      ensures (Data(), r) == old(Data()).Colonize(config, order)
    {
      var definition := config.Get(PlanetaryCapital);
      if definition.None? {
        return Err(StructureDefinitionNotFound(PlanetaryCapital));
      }
      var capital := NewDataAtLevel(definition.value, 1);
      if capital.Err? {
        return Err(StructureFailed(capital.error));
      }
      structures := structures[PlanetaryCapital := capital.value];
      RecalculateFromStructures(order);
      availableResources := storageCapacity;
      r := Ok(Unit);
    }

    /** The first loop of `process_turn`. */
    method AccumulateTurnTotals(order: seq<StructureId>)
      requires Listed(order, structures)
      modifies this
      ensures Data() == old(Data()).WithTurnTotals(order)
    {
      storageCapacity := Zero;
      productionRate := Zero;
      var i := 0;
      while i < |order|
        invariant 0 <= i <= |order|
        invariant Data() == old(Data()).(productionRate := productionRate, storageCapacity := storageCapacity)
        invariant storageCapacity == StorageOfAll(structures, order[..i])
        invariant productionRate == ProductionOfOperational(structures, order[..i])
      {
        assert order[..i + 1][..i] == order[..i];
        var s := structures[order[i]];
        storageCapacity := AddAssign(storageCapacity, s.storage);
        if s.state.Operational? {
          productionRate := AddAssign(productionRate, s.production);
        }
        i := i + 1;
      }
      assert order[..i] == order;
    }

    /** The second loop of `process_turn`. */
    method ProduceAll(order: seq<StructureId>)
      requires CanProduceAll(Data(), order)
      modifies this
      ensures Data() == Produced(old(Data()), order)
    {
      ghost var start := Data();
      var i := 0;
      assert order[i..] == order;
      while i < |order|
        invariant 0 <= i <= |order|
        invariant CanProduceAll(Data(), order[i..])
        invariant Produced(Data(), order[i..]) == Produced(start, order)
      {
        assert order[i..][0] == order[i] && order[i..][1..] == order[i + 1..];
        ProduceFrom(order[i]);
        i := i + 1;
      }
    }

    /** One iteration of the second loop of `process_turn`. */
    method ProduceFrom(key: StructureId)
      requires Data().CanProduceFrom(key)
      modifies this
      ensures Data() == old(Data()).ProduceFrom(key)
    {
      var s := structures[key];
      var stock := availableResources;
      stock := stock.(energy := stock.energy - s.EnergyConsumption());
      stock := stock.(minerals := Min(SaturatingAdd(stock.minerals, s.production.minerals), storageCapacity.minerals));
      stock := stock.(gas := Min(SaturatingAdd(stock.gas, s.production.gas), storageCapacity.gas));
      stock := stock.(energy := Min(SaturatingAdd(stock.energy, s.production.energy), storageCapacity.energy));
      availableResources := stock;
      structures := structures[key := s.ProcessTurn()];
    }

    /** The shield part of `process_turn`. */
    method StepShield()
      requires Data().CanStepShield()
      modifies this
      ensures Data() == old(Data()).StepShield()
    {
      var regenTurns := Data().GetShieldRegenTurns();
      if regenTurns.Some? {
        var maxShield := Data().GetMaxShieldHp();
        if shieldHp == 0 && maxShield > 0 {
          shieldHp := maxShield;
        } else if shieldHp < maxShield {
          shieldRegenTimer := shieldRegenTimer + 1;
          if shieldRegenTimer >= regenTurns.value {
            shieldHp := maxShield;
            shieldRegenTimer := 0;
          }
        }
      }
    }

    /** `process_turn`: totals, then production, then the shield. */
    method ProcessTurn(order: seq<StructureId>)
      requires Data().CanProcessTurn(order)
      modifies this
      ensures Data() == old(Data()).ProcessTurn(order)
    {
      AccumulateTurnTotals(order);
      ProduceAll(order);
      StepShield();
    }
  }
}
