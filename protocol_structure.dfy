/** A structure on a planet in the older crate (`colony_protocol::structure`): a level with the
  * hit points, production and storage of that level, and a `StructureState` tag saying whether it
  * is operational or counting down an upgrade. Indexing a table past its end and decrementing an
  * unsigned counter below zero panic in the source; here they are preconditions. */
module ProtocolStructure {
  import opened Ints
  import opened Wrappers
  import opened ProtocolResources
  import opened ProtocolStructureConfig

  datatype StructureState =
    | Operational
    | Upgrading(turnsRemaining: U32, targetLevel: U16)
    | Damaged

  datatype StructureError = InvalidLevel(structureName: string, level: U16, maxLevel: U16)

  /** The definition's tables have an entry for `level` (index `level - 1`) in each of the three
    * tables a level change loads. */
  predicate HasLevel(d: StructureDefinition, level: nat) {
    1 <= level && level <= |d.hitpoints| && level <= |d.production| && level <= |d.storageCapacity|
  }

  /** Every field of a `Structure`, as a value. */
  datatype StructureData = StructureData(
    name: string,
    hitpoints: U32,
    level: U16,
    maxLevel: U16,
    production: Resources,
    storage: Resources,
    state: StructureState,
    definition: StructureDefinition)
  {
    /** What the operations keep: the copied name and maximum level agree with the definition, and
      * an upgrade in progress always targets the next level. */
    predicate Valid() {
      name == definition.name && maxLevel == definition.maxLevel
      && (state.Upgrading? ==> state.targetLevel == level + 1)
    }

    /** Operational at `newLevel` with that level's hit points, production and storage. */
    function AtLevel(newLevel: U16): (r: StructureData)
      requires HasLevel(definition, newLevel)
    {
      this.(level := newLevel,
            hitpoints := definition.hitpoints[newLevel - 1],
            production := definition.production[newLevel - 1],
            storage := definition.storageCapacity[newLevel - 1],
            state := Operational)
    }

    /** `cost_to_upgrade`: the cost of the next level, which is entry `level` of the cost table;
      * `InvalidLevel` when the table has no such entry. */
    function CostToUpgrade(): (r: Result<Resources, StructureError>)
      ensures r.Ok? <==> level < |definition.costs|
      ensures r.Ok? ==> r.value == definition.costs[level]
      ensures r.Err? ==> r.error == InvalidLevel(definition.name, level, definition.maxLevel)
    {
      if level < |definition.costs| then Ok(definition.costs[level])
      else Err(InvalidLevel(definition.name, level, definition.maxLevel))
    }

    /** `is_max_level`. */
    predicate IsMaxLevel() {
      level >= maxLevel
    }

    /** `get_upgrade_time`: the time to reach the next level (panics past the table). */
    function GetUpgradeTime(): (t: U32)
      requires level < |definition.upgradeTime|
    {
      definition.upgradeTime[level]
    }

    /** `upgrade`: starts the countdown to the next level; the level and its stats stay as they
      * are until the countdown ends. */
    function Upgrade(): (r: StructureData)
      requires level < |definition.upgradeTime| && level + 1 <= U16_MAX
      ensures r.state == Upgrading(GetUpgradeTime(), level + 1)
      ensures r.(state := state) == this
      ensures Valid() ==> r.Valid()
    {
      this.(state := Upgrading(definition.upgradeTime[level], level + 1))
    }

    /** `complete_upgrade`: raises the level by exactly one and loads that level's stats. */
    function CompleteUpgrade(): (r: StructureData)
      requires level + 1 <= U16_MAX && HasLevel(definition, level + 1)
      ensures r.level == level + 1 && r.state == Operational
      ensures r.hitpoints == definition.hitpoints[level] && r.production == definition.production[level]
        && r.storage == definition.storageCapacity[level]
      ensures r.name == name && r.maxLevel == maxLevel && r.definition == definition
      ensures Valid() ==> r.Valid()
    {
      AtLevel(level + 1)
    }

    /** What `process_turn` needs to run without a panic: a running countdown is not already at
      * zero, and the level it reaches has table entries. */
    predicate CanProcessTurn() {
      state.Upgrading? ==>
        state.turnsRemaining >= 1 && (state.turnsRemaining == 1 ==> HasLevel(definition, state.targetLevel))
    }

    /** `process_turn`: counts a running upgrade down by one; the turn that reaches zero moves to the
      * target level and loads its stats. Operational and damaged structures are unchanged. */
    function ProcessTurn(): (r: StructureData)
      requires CanProcessTurn()
      ensures !state.Upgrading? ==> r == this
      ensures state.Upgrading? && state.turnsRemaining > 1 ==>
        r == this.(state := Upgrading(state.turnsRemaining - 1, state.targetLevel))
      ensures state.Upgrading? && state.turnsRemaining == 1 ==>
        r.level == state.targetLevel && r.state == Operational
        && r.hitpoints == definition.hitpoints[state.targetLevel - 1]
        && r.production == definition.production[state.targetLevel - 1]
        && r.storage == definition.storageCapacity[state.targetLevel - 1]
      ensures Valid() ==> r.Valid()
    {
      match state
      case Upgrading(turnsRemaining, targetLevel) =>
        var left := turnsRemaining - 1;
        if left == 0 then AtLevel(targetLevel)
        else this.(state := Upgrading(left, targetLevel))
      case _ => this
    }

    /** `energy_consumption`: nothing while upgrading, otherwise the current level's entry (which
      * panics at level 0 or past the table). */
    function EnergyConsumption(): (e: U32)
      requires !state.Upgrading? ==> 1 <= level <= |definition.energyConsumption|
      ensures state.Upgrading? ==> e == 0
      ensures !state.Upgrading? ==> e == definition.energyConsumption[level - 1]
    {
      if state.Upgrading? then 0 else definition.energyConsumption[level - 1]
    }
  }

  /** `Structure::new`: an unbuilt structure (level 0, no hit points, production or storage)
    * already counting down its first build. The source takes the build time from the first entry
    * of the upgrade-time table and panics when that table is empty. */
  function NewData(d: StructureDefinition): (r: StructureData)
    requires |d.upgradeTime| >= 1
    ensures r.Valid() && r.definition == d
    ensures r.level == 0 && r.hitpoints == 0 && r.production == Zero && r.storage == Zero
    ensures r.state == Upgrading(d.upgradeTime[0], 1)
  {
    StructureData(d.name, 0, 0, d.maxLevel, Zero, Zero, Upgrading(d.upgradeTime[0], 1), d)
  }

  /** `Structure::new_at_level`: an operational structure at `level` with that level's stats, or
    * `InvalidLevel` for level 0 and for a level above `max_level`. */
  function NewDataAtLevel(d: StructureDefinition, level: U16): (r: Result<StructureData, StructureError>)
    requires 1 <= level <= d.maxLevel ==> HasLevel(d, level)
    ensures r.Err? <==> level == 0 || level > d.maxLevel
    ensures r.Err? ==> r.error == InvalidLevel(d.name, level, d.maxLevel)
    ensures r.Ok? ==>
      r.value.Valid() && r.value.definition == d && r.value.level == level && r.value.state == Operational
      && r.value.hitpoints == d.hitpoints[level - 1] && r.value.production == d.production[level - 1]
      && r.value.storage == d.storageCapacity[level - 1]
  {
    if level == 0 || level > d.maxLevel then Err(InvalidLevel(d.name, level, d.maxLevel))
    else Ok(StructureData(d.name, d.hitpoints[level - 1], level, d.maxLevel, d.production[level - 1],
                          d.storageCapacity[level - 1], Operational, d))
  }

  /** `n` successive turns are possible without a panic. */
  predicate CanProcessTurns(s: StructureData, n: nat)
    decreases n
  {
    n == 0 || (s.CanProcessTurn() && CanProcessTurns(s.ProcessTurn(), n - 1))
  }

  /** `n` successive calls of `process_turn`. */
  function ProcessTurns(s: StructureData, n: nat): StructureData
    requires CanProcessTurns(s, n)
    decreases n
  {
    if n == 0 then s else ProcessTurns(s.ProcessTurn(), n - 1)
  }

  /** An upgrade with `t` turns left reaches its target level, with the stats `complete_upgrade`
    * would load, after exactly `t` turns, and is still upgrading before that. */
  lemma {:induction false} Countdown(s: StructureData, t: nat)
    requires s.state.Upgrading? && s.state.turnsRemaining == t && t >= 1
    requires HasLevel(s.definition, s.state.targetLevel)
    ensures CanProcessTurns(s, t)
    ensures ProcessTurns(s, t) == s.AtLevel(s.state.targetLevel)
    ensures forall k :: 0 <= k < t ==> CanProcessTurns(s, k) && ProcessTurns(s, k).state.Upgrading?
    decreases t
  {
    if t > 1 {
      var s' := s.ProcessTurn();
      Countdown(s', t - 1);
      assert s'.AtLevel(s'.state.targetLevel) == s.AtLevel(s.state.targetLevel);
      forall k | 0 < k < t
        ensures CanProcessTurns(s, k) && ProcessTurns(s, k).state.Upgrading?
      {
        assert ProcessTurns(s, k) == ProcessTurns(s', k - 1);
      }
    }
  }

  /** Starting an upgrade and letting its countdown run out ends where `complete_upgrade` goes in one
    * step. */
  lemma UpgradeThenTurnsCompletes(s: StructureData)
    requires s.level < |s.definition.upgradeTime| && s.level + 1 <= U16_MAX
    requires s.GetUpgradeTime() >= 1 && HasLevel(s.definition, s.level + 1)
    ensures CanProcessTurns(s.Upgrade(), s.GetUpgradeTime())
    ensures ProcessTurns(s.Upgrade(), s.GetUpgradeTime()) == s.CompleteUpgrade()
  {
    Countdown(s.Upgrade(), s.GetUpgradeTime());
  }

  /** A freshly placed structure whose first build time has elapsed is exactly the structure
    * `new_at_level` creates at level 1. */
  lemma NewThenTurnsIsLevelOne(d: StructureDefinition)
    requires |d.upgradeTime| >= 1 && d.upgradeTime[0] >= 1
    requires d.maxLevel >= 1 && HasLevel(d, 1)
    ensures CanProcessTurns(NewData(d), d.upgradeTime[0])
    ensures NewDataAtLevel(d, 1).Ok?
    ensures ProcessTurns(NewData(d), d.upgradeTime[0]) == NewDataAtLevel(d, 1).value
  {
    Countdown(NewData(d), d.upgradeTime[0]);
  }

  /** A structure, with the fields its methods update in place. */
  class Structure {
    const name: string
    var hitpoints: U32
    var level: U16
    const maxLevel: U16
    var production: Resources
    var storage: Resources
    var state: StructureState
    const definition: StructureDefinition

    function Data(): StructureData
      reads this
    {
      StructureData(name, hitpoints, level, maxLevel, production, storage, state, definition)
    }

    /** `new`. */
    constructor New(definition: StructureDefinition)
      requires |definition.upgradeTime| >= 1
      ensures Data() == NewData(definition)
    {
      var buildTime := definition.upgradeTime[0];
      name := definition.name;
      hitpoints := 0;
      level := 0;
      maxLevel := definition.maxLevel;
      production := Zero;
      storage := Zero;
      state := Upgrading(buildTime, 1);
      this.definition := definition;
    }

    constructor FromData(data: StructureData)
      ensures Data() == data
    {
      name := data.name;
      hitpoints := data.hitpoints;
      level := data.level;
      maxLevel := data.maxLevel;
      production := data.production;
      storage := data.storage;
      state := data.state;
      definition := data.definition;
    }

    /** `new_at_level`. */
    static method NewAtLevel(definition: StructureDefinition, level: U16) returns (r: Result<Structure, StructureError>)
      requires 1 <= level <= definition.maxLevel ==> HasLevel(definition, level)
      ensures r.Err? ==> NewDataAtLevel(definition, level) == Err(r.error)
      ensures r.Ok? ==> fresh(r.value) && NewDataAtLevel(definition, level) == Ok(r.value.Data())
    {
      if level == 0 || level > definition.maxLevel {
        return Err(InvalidLevel(definition.name, level, definition.maxLevel));
      }
      var levelIdx := level - 1;
      var s := new Structure.FromData(StructureData(definition.name, definition.hitpoints[levelIdx], level,
        definition.maxLevel, definition.production[levelIdx], definition.storageCapacity[levelIdx], Operational,
        definition));
      r := Ok(s);
    }

    /** `upgrade`. */
    method Upgrade()
      requires level < |definition.upgradeTime| && level + 1 <= U16_MAX
      modifies this
      ensures Data() == old(Data()).Upgrade()
    {
      var upgradeTime := definition.upgradeTime[level];
      state := Upgrading(upgradeTime, level + 1);
    }

    /** `complete_upgrade`. */
    method CompleteUpgrade()
      requires level + 1 <= U16_MAX && HasLevel(definition, level + 1)
      modifies this
      ensures Data() == old(Data()).CompleteUpgrade()
    {
      level := level + 1;
      var levelIdx := level - 1;
      hitpoints := definition.hitpoints[levelIdx];
      production := definition.production[levelIdx];
      storage := definition.storageCapacity[levelIdx];
      state := Operational;
    }

    /** `process_turn`. */
    method ProcessTurn()
      requires Data().CanProcessTurn()
      modifies this
      ensures Data() == old(Data()).ProcessTurn()
    {
      if state.Upgrading? {
        var turnsRemaining := state.turnsRemaining - 1;
        var targetLevel := state.targetLevel;
        state := Upgrading(turnsRemaining, targetLevel);
        if turnsRemaining == 0 {
          level := targetLevel;
          var levelIdx := level - 1;
          hitpoints := definition.hitpoints[levelIdx];
          production := definition.production[levelIdx];
          storage := definition.storageCapacity[levelIdx];
          state := Operational;
        }
      }
    }
  }
}
