/** A building instance of the newer crate (`colony_core::game::building::building`): a level, hit
  * points and a construction countdown over an immutable definition. Building and upgrading start
  * a countdown; `tick` runs it down and restores full hit points when it reaches zero. */
module CoreBuilding {
  import opened Ints
  import opened Wrappers
  import opened CoreResources
  import opened CoreBuildingConfig

  /** The three fields of a `Building` that its methods update. */
  datatype BuildingState = BuildingState(level: U8, hp: U32, turns: U8) {

    /** `is_complete`. */
    predicate IsComplete() {
      turns == 0 && level > 0
    }

    /** `is_building`. */
    predicate IsBuilding() {
      turns > 0
    }

    /** `is_built`. */
    predicate IsBuilt() {
      level > 0
    }

    /** `is_destroyed`. */
    predicate IsDestroyed() {
      level > 0 && hp == 0 && !IsBuilding()
    }

    /** What every reachable state satisfies: the level stays within the definition's range, and
      * only a built level can be under construction. */
    predicate ValidFor(d: BuildingDefinition) {
      level <= d.maxLevel && (turns > 0 ==> level > 0)
    }

    /** `start_build`: only from level 0, and only when level 1 has a cost and a build time. All
      * lookups happen before any field is written, so a refusal changes nothing. */
    function StartBuild(d: BuildingDefinition): (r: (BuildingState, Option<Resources>))
      ensures r.1.Some? <==> level == 0 && CostForLevel(d, 1).Some? && BuildTimeForLevel(d, 1).Some?
      ensures r.1.Some? ==>
        r.0 == BuildingState(1, 0, BuildTimeForLevel(d, 1).value) && r.1.value == CostForLevel(d, 1).value
      ensures r.1.None? ==> r.0 == this
    {
      if level > 0 then (this, None)
      else
        match CostForLevel(d, 1)
        case None => (this, None)
        case Some(cost) =>
          match BuildTimeForLevel(d, 1)
          case None => (this, None)
          case Some(time) => (BuildingState(1, 0, time), Some(cost))
    }

    /** `start_upgrade`: refused when unbuilt, at or above `max_level`, or still under construction;
      * otherwise the next level starts with 0 hit points and that level's build time. */
    function StartUpgrade(d: BuildingDefinition): (r: (BuildingState, Option<Resources>))
      ensures r.1.Some? <==>
        0 < level < d.maxLevel && turns == 0
        && CostForLevel(d, level + 1).Some? && BuildTimeForLevel(d, level + 1).Some?
      ensures r.1.Some? ==>
        r.0 == BuildingState(level + 1, 0, BuildTimeForLevel(d, level + 1).value)
        && r.1.value == CostForLevel(d, level + 1).value
      ensures r.1.None? ==> r.0 == this
    {
      if level == 0 then (this, None)
      else if level >= d.maxLevel then (this, None)
      else if !IsComplete() then (this, None)
      else
        var next := level + 1;
        match CostForLevel(d, next)
        case None => (this, None)
        case Some(cost) =>
          match BuildTimeForLevel(d, next)
          case None => (this, None)
          case Some(time) => (BuildingState(next, 0, time), Some(cost))
    }

    /** `tick`: counts the construction down by one; the tick that reaches zero sets full hit points
      * and is the only one that returns true. */
    function Tick(d: BuildingDefinition): (r: (BuildingState, bool))
      ensures turns == 0 ==> r == (this, false)
      ensures turns > 0 ==> r.0.level == level && r.0.turns == turns - 1
      ensures r.1 <==> turns == 1 && HitpointsForLevel(d, level).Some?
      ensures r.1 ==> r.0.hp == HitpointsForLevel(d, level).value
      ensures !r.1 ==> r.0.hp == hp
    {
      if turns > 0 then
        var s := this.(turns := turns - 1);
        if s.turns == 0 then
          match HitpointsForLevel(d, level)
          case Some(maxHp) => (s.(hp := maxHp), true)
          case None => (s, false)
        else (s, false)
      else (this, false)
    }

    /** `cancel_build`: a first build goes back to an empty lot; an upgrade goes back to the previous
      * level with that level's full hit points. Nothing happens when nothing is being built. */
    function CancelBuild(d: BuildingDefinition): (r: (BuildingState, bool))
      requires turns > 0 ==> level > 0
      ensures r.1 <==> turns > 0
      ensures !r.1 ==> r.0 == this
      ensures r.1 && level == 1 ==> r.0 == BuildingState(0, 0, 0)
      ensures r.1 && level != 1 ==>
        r.0.level == level - 1 && r.0.turns == 0
        && r.0.hp == (if HitpointsForLevel(d, level - 1).Some? then HitpointsForLevel(d, level - 1).value else hp)
    {
      if turns == 0 then (this, false)
      else if level == 1 then (BuildingState(0, 0, 0), true)
      else
        var s := this.(level := level - 1);
        var s' := match HitpointsForLevel(d, s.level)
                  case Some(maxHp) => s.(hp := maxHp)
                  case None => s;
        (s'.(turns := 0), true)
    }

    /** `take_damage`: the result says whether the hit points ran out. */
    function TakeDamage(damage: U32): (r: (BuildingState, bool))
      ensures r.1 <==> hp <= damage
      ensures r.0.level == level && r.0.turns == turns
      ensures r.0.hp + damage == hp || (r.1 && r.0.hp == 0)
    {
      if hp > damage then (this.(hp := hp - damage), false) else (this.(hp := 0), true)
    }

    /** `repair`: back to the level's full hit points, when the level has an entry. */
    function Repair(d: BuildingDefinition): (r: BuildingState)
      ensures r.level == level && r.turns == turns
      ensures HitpointsForLevel(d, level).Some? ==> r.hp == HitpointsForLevel(d, level).value
      ensures HitpointsForLevel(d, level).None? ==> r == this
    {
      match HitpointsForLevel(d, level)
      case Some(maxHp) => this.(hp := maxHp)
      case None => this
    }

    /** `production`: only a complete building produces. */
    function Production(d: BuildingDefinition): (r: Option<Resources>)
      ensures r.Some? ==> IsComplete()
      ensures IsComplete() ==> r == ProductionForLevel(d, level)
    {
      if !IsComplete() then None else ProductionForLevel(d, level)
    }

    /** `storage_capacity`: only a complete building stores. */
    function StorageCapacity(d: BuildingDefinition): (r: Option<Resources>)
      ensures r.Some? ==> IsComplete()
      ensures IsComplete() ==> r == StorageCapacityForLevel(d, level)
    {
      if !IsComplete() then None else StorageCapacityForLevel(d, level)
    }

    /** `energy_consumption`: only a complete building consumes. */
    function EnergyConsumption(d: BuildingDefinition): (r: Option<U32>)
      ensures r.Some? ==> IsComplete()
      ensures IsComplete() ==> r == EnergyConsumptionForLevel(d, level)
    {
      if !IsComplete() then None else EnergyConsumptionForLevel(d, level)
    }

    /** `upgrade_cost`: the cost of the next level, none at the maximum. */
    function UpgradeCost(d: BuildingDefinition): (r: Option<Resources>)
      ensures level >= d.maxLevel ==> r.None?
      ensures level < d.maxLevel ==> r == CostForLevel(d, level + 1)
    {
      if level >= d.maxLevel then None else CostForLevel(d, level + 1)
    }
  }

  /** `new_unbuilt`. */
  const Unbuilt := BuildingState(0, 0, 0)

  /** `new_at_level`: a complete building at `level` with that level's full hit points, or `None`
    * for level 0, a level above `max_level`, or a level with no hit-point entry. */
  function NewAtLevelState(d: BuildingDefinition, level: U8): (r: Option<BuildingState>)
    ensures r.Some? <==> HitpointsForLevel(d, level).Some?
    ensures r.Some? ==> 1 <= level <= d.maxLevel
    ensures r.Some? ==>
      r.value == BuildingState(level, HitpointsForLevel(d, level).value, 0) && r.value.IsComplete() && r.value.ValidFor(d)
  {
    if level == 0 || level > d.maxLevel then None
    else
      match HitpointsForLevel(d, level)
      case None => None
      case Some(maxHp) => Some(BuildingState(level, maxHp, 0))
  }

  /** An unbuilt building is neither built nor complete, and is a valid state of any definition. */
  lemma UnbuiltIsEmpty(d: BuildingDefinition)
    ensures !Unbuilt.IsBuilt() && !Unbuilt.IsComplete() && !Unbuilt.IsBuilding() && !Unbuilt.IsDestroyed()
    ensures Unbuilt.ValidFor(d)
  {
  }

  /** Every operation keeps a valid state valid: in particular the level never exceeds
    * `max_level`. */
  lemma OperationsPreserveValidity(d: BuildingDefinition, s: BuildingState, damage: U32)
    requires s.ValidFor(d)
    ensures s.StartBuild(d).0.ValidFor(d)
    ensures s.StartUpgrade(d).0.ValidFor(d)
    ensures s.Tick(d).0.ValidFor(d)
    ensures s.CancelBuild(d).0.ValidFor(d)
    ensures s.TakeDamage(damage).0.ValidFor(d)
    ensures s.Repair(d).ValidFor(d)
  {
  }

  /** A blow at least as large as the remaining hit points destroys a complete building. */
  lemma DamageDestroys(s: BuildingState, damage: U32)
    requires s.IsComplete() && s.hp <= damage
    ensures s.TakeDamage(damage).1 && s.TakeDamage(damage).0.IsDestroyed()
  {
  }

  /** `n` successive ticks. */
  function Ticks(d: BuildingDefinition, s: BuildingState, n: nat): BuildingState
    decreases n
  {
    if n == 0 then s else Ticks(d, s.Tick(d).0, n - 1)
  }

  /** A construction with `n` turns left is complete, at full hit points for its level, after
    * exactly `n` ticks; before that it is still being built. */
  lemma {:induction false} TicksComplete(d: BuildingDefinition, s: BuildingState, n: nat)
    requires s.ValidFor(d) && s.turns == n && n > 0
    requires HitpointsForLevel(d, s.level).Some?
    ensures Ticks(d, s, n) == BuildingState(s.level, HitpointsForLevel(d, s.level).value, 0)
    ensures Ticks(d, s, n).IsComplete()
    ensures forall k :: 0 <= k < n ==> Ticks(d, s, k).IsBuilding() && Ticks(d, s, k).level == s.level
    decreases n
  {
    var s' := s.Tick(d).0;
    if n > 1 {
      TicksComplete(d, s', n - 1);
      forall k | 0 < k < n
        ensures Ticks(d, s, k).IsBuilding() && Ticks(d, s, k).level == s.level
      {
        assert Ticks(d, s, k) == Ticks(d, s', k - 1);
      }
    }
  }

  /** Cancelling a first build right after starting it gives back the empty lot. */
  lemma CancelUndoesStartBuild(d: BuildingDefinition)
    requires Unbuilt.StartBuild(d).1.Some? && BuildTimeForLevel(d, 1).value > 0
    ensures Unbuilt.StartBuild(d).0.CancelBuild(d) == (Unbuilt, true)
  {
  }

  /** Cancelling an upgrade right after starting it gives back the previous level at full hit
    * points. */
  lemma CancelUndoesStartUpgrade(d: BuildingDefinition, s: BuildingState)
    requires s.ValidFor(d) && s.StartUpgrade(d).1.Some? && BuildTimeForLevel(d, s.level + 1).value > 0
    requires HitpointsForLevel(d, s.level) == Some(s.hp)
    ensures s.StartUpgrade(d).0.CancelBuild(d) == (s, true)
  {
  }

  /** A building: its definition and the fields its methods update in place. */
  class Building {
    const definition: BuildingDefinition
    var currentLevel: U8
    var currentHp: U32
    var turnsUntilComplete: U8

    function State(): BuildingState
      reads this
    {
      BuildingState(currentLevel, currentHp, turnsUntilComplete)
    }

    ghost predicate Valid()
      reads this
    {
      State().ValidFor(definition)
    }

    /** `new_unbuilt`. */
    constructor NewUnbuilt(definition: BuildingDefinition)
      ensures this.definition == definition && State() == Unbuilt && Valid()
    {
      this.definition := definition;
      currentLevel := 0;
      currentHp := 0;
      turnsUntilComplete := 0;
    }

    constructor Complete(definition: BuildingDefinition, level: U8, hp: U32)
      requires 1 <= level <= definition.maxLevel
      ensures this.definition == definition && State() == BuildingState(level, hp, 0) && Valid()
    {
      this.definition := definition;
      currentLevel := level;
      currentHp := hp;
      turnsUntilComplete := 0;
    }

    /** `new_at_level`. */
    static method NewAtLevel(definition: BuildingDefinition, level: U8) returns (r: Option<Building>)
      ensures r.None? <==> NewAtLevelState(definition, level).None?
      ensures r.Some? ==>
        fresh(r.value) && r.value.definition == definition && r.value.Valid()
        && r.value.State() == NewAtLevelState(definition, level).value
    {
      if level == 0 || level > definition.maxLevel {
        return None;
      }
      var maxHp := HitpointsForLevel(definition, level);
      if maxHp.None? {
        return None;
      }
      var b := new Building.Complete(definition, level, maxHp.value);
      r := Some(b);
    }

    method StartBuild() returns (cost: Option<Resources>)
      requires Valid()
      modifies this
      ensures Valid()
      ensures (State(), cost) == old(State()).StartBuild(definition)
    {
      if currentLevel > 0 {
        return None;
      }
      var c := CostForLevel(definition, 1);
      if c.None? {
        return None;
      }
      var time := BuildTimeForLevel(definition, 1);
      if time.None? {
        return None;
      }
      currentLevel := 1;
      currentHp := 0;
      turnsUntilComplete := time.value;
      cost := c;
    }

    method StartUpgrade() returns (cost: Option<Resources>)
      requires Valid()
      modifies this
      ensures Valid()
      ensures (State(), cost) == old(State()).StartUpgrade(definition)
    {
      if currentLevel == 0 {
        return None;
      }
      if currentLevel >= definition.maxLevel {
        return None;
      }
      if !IsComplete() {
        return None;
      }
      var next := currentLevel + 1;
      var c := CostForLevel(definition, next);
      if c.None? {
        return None;
      }
      var time := BuildTimeForLevel(definition, next);
      if time.None? {
        return None;
      }
      currentLevel := next;
      currentHp := 0;
      turnsUntilComplete := time.value;
      cost := c;
    }

    method Tick() returns (completed: bool)
      requires Valid()
      modifies this
      ensures Valid()
      ensures (State(), completed) == old(State()).Tick(definition)
    {
      completed := false;
      if turnsUntilComplete > 0 {
        turnsUntilComplete := turnsUntilComplete - 1;
        if turnsUntilComplete == 0 {
          var maxHp := HitpointsForLevel(definition, currentLevel);
          if maxHp.Some? {
            currentHp := maxHp.value;
            completed := true;
          }
        }
      }
    }

    method CancelBuild() returns (cancelled: bool)
      requires Valid()
      modifies this
      ensures Valid()
      ensures (State(), cancelled) == old(State()).CancelBuild(definition)
    {
      if turnsUntilComplete == 0 {
        return false;
      }
      if currentLevel == 1 {
        currentLevel := 0;
        currentHp := 0;
        turnsUntilComplete := 0;
      } else {
        currentLevel := currentLevel - 1;
        var maxHp := HitpointsForLevel(definition, currentLevel);
        if maxHp.Some? {
          currentHp := maxHp.value;
        }
        turnsUntilComplete := 0;
      }
      cancelled := true;
    }

    method TakeDamage(damage: U32) returns (destroyed: bool)
      requires Valid()
      modifies this
      ensures Valid()
      ensures (State(), destroyed) == old(State()).TakeDamage(damage)
    {
      if currentHp > damage {
        currentHp := currentHp - damage;
        destroyed := false;
      } else {
        currentHp := 0;
        destroyed := true;
      }
    }

    method Repair()
      requires Valid()
      modifies this
      ensures Valid()
      ensures State() == old(State()).Repair(definition)
    {
      var maxHp := HitpointsForLevel(definition, currentLevel);
      if maxHp.Some? {
        currentHp := maxHp.value;
      }
    }

    predicate IsComplete()
      reads this
    {
      State().IsComplete()
    }

    /** `max_hp`: the full hit points of the current level. */
    function MaxHp(): (r: Option<U32>)
      reads this
      ensures r.Some? ==> 1 <= currentLevel <= definition.maxLevel
      ensures r == HitpointsForLevel(definition, currentLevel)
    {
      HitpointsForLevel(definition, currentLevel)
    }
  }
}
