/** The building definition table of the newer crate (`colony_core::game::building::building_config`):
  * decoded configuration records, the per-level accessors of a definition, and the registry that
  * validates a list of records (unique ids, per-level array lengths, prerequisites, no
  * prerequisite cycles) before it accepts them. */
module CoreBuildingConfig {
  import opened Ints
  import opened Wrappers
  import opened FirstFailure
  import opened CoreResources

  type BuildingId = string

  datatype Prerequisite = Prerequisite(buildingId: BuildingId, requiredLevels: seq<U8>)

  /** `ResourceConfig`: one column per axis, index i belonging to level i + 1. */
  datatype ResourceColumns = ResourceColumns(minerals: seq<U32>, gas: seq<U32>, energy: seq<U32>)

  /** One decoded `BuildingConfig` record, before validation. */
  datatype BuildingConfig = BuildingConfig(
    id: BuildingId,
    name: string,
    description: string,
    maxLevel: U8,
    costs: seq<Resources>,
    buildTime: seq<U8>,
    energyConsumption: seq<U32>,
    hitpoints: seq<U32>,
    production: ResourceColumns,
    storageCapacity: ResourceColumns,
    prerequisites: seq<Prerequisite>)

  /** A validated `BuildingDefinition`; every table is indexed by level − 1. */
  datatype BuildingDefinition = BuildingDefinition(
    id: BuildingId,
    name: string,
    description: string,
    maxLevel: U8,
    costs: seq<Resources>,
    buildTime: seq<U8>,
    energyConsumption: seq<U32>,
    hitpoints: seq<U32>,
    production: seq<Resources>,
    storageCapacity: seq<Resources>,
    prerequisites: seq<Prerequisite>)

  datatype BuildingConfigError =
    | InvalidArrayLength(buildingId: BuildingId, field: string, expected: nat, actual: nat)
    | DuplicateBuildingId(buildingId: BuildingId)
    | InvalidPrerequisite(buildingId: BuildingId, prereqId: BuildingId)
    | InvalidPrerequisiteLevels(buildingId: BuildingId, prereqId: BuildingId)
    | PrerequisiteLevelTooHigh(buildingId: BuildingId, prereqId: BuildingId, requiredLevel: U8, maxLevel: U8)
    | CircularDependency(cycle: seq<BuildingId>)

  // ---------------------------------------------------------------------------------------------
  // Per-level accessors

  /** The shared shape of the `*_for_level` accessors: `None` outside `1..=max_level`, otherwise
    * `table.get(level - 1)`, which is also `None` when the table is too short. */
  function AtLevel<T>(table: seq<T>, maxLevel: U8, level: U8): Option<T> {
    if level == 0 || level > maxLevel then None
    else if level - 1 < |table| then Some(table[level - 1])
    else None
  }

  function CostForLevel(d: BuildingDefinition, level: U8): Option<Resources> {
    AtLevel(d.costs, d.maxLevel, level)
  }

  function BuildTimeForLevel(d: BuildingDefinition, level: U8): Option<U8> {
    AtLevel(d.buildTime, d.maxLevel, level)
  }

  function EnergyConsumptionForLevel(d: BuildingDefinition, level: U8): Option<U32> {
    AtLevel(d.energyConsumption, d.maxLevel, level)
  }

  function HitpointsForLevel(d: BuildingDefinition, level: U8): Option<U32> {
    AtLevel(d.hitpoints, d.maxLevel, level)
  }

  function ProductionForLevel(d: BuildingDefinition, level: U8): Option<Resources> {
    AtLevel(d.production, d.maxLevel, level)
  }

  function StorageCapacityForLevel(d: BuildingDefinition, level: U8): Option<Resources> {
    AtLevel(d.storageCapacity, d.maxLevel, level)
  }

  /** Every per-level table of a definition has exactly `max_level` rows, as the registry ensures. */
  predicate WellSizedDefinition(d: BuildingDefinition) {
    |d.costs| == d.maxLevel && |d.buildTime| == d.maxLevel && |d.energyConsumption| == d.maxLevel
    && |d.hitpoints| == d.maxLevel && |d.production| == d.maxLevel && |d.storageCapacity| == d.maxLevel
  }

  /** Level 0 and levels above `max_level` have no entry in any table; on a well-sized definition
    * every level in `1..=max_level` has one, and it is row `level - 1`. */
  lemma ForLevelAccessors(d: BuildingDefinition, level: U8)
    ensures level == 0 || level > d.maxLevel ==>
      CostForLevel(d, level).None? && BuildTimeForLevel(d, level).None?
      && EnergyConsumptionForLevel(d, level).None? && HitpointsForLevel(d, level).None?
      && ProductionForLevel(d, level).None? && StorageCapacityForLevel(d, level).None?
    ensures WellSizedDefinition(d) && 1 <= level <= d.maxLevel ==>
      CostForLevel(d, level) == Some(d.costs[level - 1])
      && BuildTimeForLevel(d, level) == Some(d.buildTime[level - 1])
      && EnergyConsumptionForLevel(d, level) == Some(d.energyConsumption[level - 1])
      && HitpointsForLevel(d, level) == Some(d.hitpoints[level - 1])
      && ProductionForLevel(d, level) == Some(d.production[level - 1])
      && StorageCapacityForLevel(d, level) == Some(d.storageCapacity[level - 1])
  {
  }

  // ---------------------------------------------------------------------------------------------
  // Array-length validation and conversion

  /** `validate_array_length`. */
  function ValidateArrayLength(buildingId: BuildingId, field: string, expected: nat, actual: nat)
    : (r: Result<Unit, BuildingConfigError>)
    ensures r.Ok? <==> expected == actual
    ensures r.Err? ==> r.error == InvalidArrayLength(buildingId, field, expected, actual)
  {
    if expected != actual then Err(InvalidArrayLength(buildingId, field, expected, actual)) else Ok(Unit)
  }

  /** The ten length checks of `validate_and_build`, in the order it performs them. */
  function ArrayLengths(b: BuildingConfig): seq<(string, nat)> {
    [ ("costs", |b.costs|),
      ("build_time", |b.buildTime|),
      ("energy_consumption", |b.energyConsumption|),
      ("hitpoints", |b.hitpoints|),
      ("production.minerals", |b.production.minerals|),
      ("production.gas", |b.production.gas|),
      ("production.energy", |b.production.energy|),
      ("storage_capacity.minerals", |b.storageCapacity.minerals|),
      ("storage_capacity.gas", |b.storageCapacity.gas|),
      ("storage_capacity.energy", |b.storageCapacity.energy|) ]
  }

  /** Every one of the ten per-level arrays has exactly `max_level` entries. */
  predicate WellSized(b: BuildingConfig) {
    var n := b.maxLevel;
    |b.costs| == n && |b.buildTime| == n && |b.energyConsumption| == n && |b.hitpoints| == n
    && |b.production.minerals| == n && |b.production.gas| == n && |b.production.energy| == n
    && |b.storageCapacity.minerals| == n && |b.storageCapacity.gas| == n && |b.storageCapacity.energy| == n
  }

  /** Runs the length checks in order and stops at the first mismatch. */
  function FirstLengthError(buildingId: BuildingId, expected: nat, checks: seq<(string, nat)>)
    : (r: Result<Unit, BuildingConfigError>)
    ensures r.Ok? <==> forall k :: 0 <= k < |checks| ==> checks[k].1 == expected
    ensures r.Err? ==>
      exists k :: 0 <= k < |checks| && checks[k].1 != expected
        && (forall j :: 0 <= j < k ==> checks[j].1 == expected)
        && r.error == InvalidArrayLength(buildingId, checks[k].0, expected, checks[k].1)
  {
    var check := (c: (string, nat)) => ValidateArrayLength(buildingId, c.0, expected, c.1);
    match FirstError(checks, check)
    case None => Ok(Unit)
    case Some(e) =>
      var k :| 0 <= k < |checks| && (forall j :: 0 <= j < k ==> check(checks[j]).Ok?) && check(checks[k]) == Err(e);
      Err(e)
  }

  /** The ten `validate_array_length` calls of one record: `Ok` exactly when every array has
    * `max_level` entries; otherwise the error names the first offending field. */
  function CheckArrayLengths(b: BuildingConfig): (r: Result<Unit, BuildingConfigError>)
    ensures r.Ok? <==> WellSized(b)
    ensures r.Err? ==>
      exists k :: 0 <= k < |ArrayLengths(b)| && ArrayLengths(b)[k].1 != b.maxLevel
        && (forall j :: 0 <= j < k ==> ArrayLengths(b)[j].1 == b.maxLevel)
        && r.error == InvalidArrayLength(b.id, ArrayLengths(b)[k].0, b.maxLevel, ArrayLengths(b)[k].1)
  {
    var checks := ArrayLengths(b);
    assert WellSized(b) <==> forall k :: 0 <= k < |checks| ==> checks[k].1 == b.maxLevel by {
      if forall k :: 0 <= k < |checks| ==> checks[k].1 == b.maxLevel {
        assert checks[0].1 == b.maxLevel && checks[1].1 == b.maxLevel && checks[2].1 == b.maxLevel;
        assert checks[3].1 == b.maxLevel && checks[4].1 == b.maxLevel && checks[5].1 == b.maxLevel;
        assert checks[6].1 == b.maxLevel && checks[7].1 == b.maxLevel && checks[8].1 == b.maxLevel;
        assert checks[9].1 == b.maxLevel;
      }
    }
    FirstLengthError(b.id, b.maxLevel, checks)
  }

  /** `minerals.iter().zip(gas).zip(energy).map(Resources::new)`: as long as the shortest column, and
    * row i holds the three columns' entries i. */
  function Zip3(m: seq<U32>, g: seq<U32>, e: seq<U32>): (r: seq<Resources>)
    ensures |r| == Min(Min(|m|, |g|), |e|)
    ensures forall i :: 0 <= i < |r| ==> r[i] == Resources(m[i], g[i], e[i])
  {
    if m == [] || g == [] || e == [] then []
    else [Resources(m[0], g[0], e[0])] + Zip3(m[1..], g[1..], e[1..])
  }

  function ZipColumns(c: ResourceColumns): seq<Resources> {
    Zip3(c.minerals, c.gas, c.energy)
  }

  /** `convert_to_definition`: copies the record and zips the production and storage columns. */
  function ConvertToDefinition(b: BuildingConfig): (d: BuildingDefinition)
    ensures d.id == b.id && d.maxLevel == b.maxLevel && d.prerequisites == b.prerequisites
    ensures WellSized(b) ==> WellSizedDefinition(d)
    ensures WellSized(b) ==> forall i :: 0 <= i < b.maxLevel ==>
      d.production[i] == Resources(b.production.minerals[i], b.production.gas[i], b.production.energy[i])
      && d.storageCapacity[i]
         == Resources(b.storageCapacity.minerals[i], b.storageCapacity.gas[i], b.storageCapacity.energy[i])
  {
    BuildingDefinition(b.id, b.name, b.description, b.maxLevel, b.costs, b.buildTime, b.energyConsumption,
      b.hitpoints, ZipColumns(b.production), ZipColumns(b.storageCapacity), b.prerequisites)
  }

  // ---------------------------------------------------------------------------------------------
  // Prerequisite validation

  /** What `validate_prerequisites` demands of one prerequisite of a building whose own maximum
    * level is `buildingMax`. */
  predicate PrerequisiteOk(buildingMax: U8, p: Prerequisite, defs: map<BuildingId, BuildingDefinition>) {
    p.buildingId in defs
    && |p.requiredLevels| == buildingMax
    && forall k :: 0 <= k < |p.requiredLevels| ==> p.requiredLevels[k] <= defs[p.buildingId].maxLevel
  }

  /** The inner loop over `required_levels`: the first level above the prerequisite's maximum. */
  function FirstLevelTooHigh(levels: seq<U8>, max: U8): (r: Option<nat>)
    ensures r.None? <==> forall k :: 0 <= k < |levels| ==> levels[k] <= max
    ensures r.Some? ==> (r.value < |levels| && levels[r.value] > max
                         && forall j :: 0 <= j < r.value ==> levels[j] <= max)
  {
    if levels == [] then None
    else if levels[0] > max then Some(0)
    else
      match FirstLevelTooHigh(levels[1..], max)
      case None => None
      case Some(k) => Some(k + 1)
  }

  /** The error one prerequisite produces, in the order of the three checks, or `None`. */
  function PrerequisiteError(buildingId: BuildingId, buildingMax: U8, p: Prerequisite,
                             defs: map<BuildingId, BuildingDefinition>): (r: Option<BuildingConfigError>)
    ensures r.None? <==> PrerequisiteOk(buildingMax, p, defs)
    ensures p.buildingId !in defs ==> r == Some(InvalidPrerequisite(buildingId, p.buildingId))
    ensures p.buildingId in defs && |p.requiredLevels| != buildingMax ==>
      r == Some(InvalidPrerequisiteLevels(buildingId, p.buildingId))
    ensures p.buildingId in defs && |p.requiredLevels| == buildingMax && r.Some? ==>
      exists k :: 0 <= k < |p.requiredLevels| && p.requiredLevels[k] > defs[p.buildingId].maxLevel
        && (forall j :: 0 <= j < k ==> p.requiredLevels[j] <= defs[p.buildingId].maxLevel)
        && r.value == PrerequisiteLevelTooHigh(buildingId, p.buildingId, p.requiredLevels[k],
                                               defs[p.buildingId].maxLevel)
  {
    if p.buildingId !in defs then Some(InvalidPrerequisite(buildingId, p.buildingId))
    else if |p.requiredLevels| != buildingMax then Some(InvalidPrerequisiteLevels(buildingId, p.buildingId))
    else
      var max := defs[p.buildingId].maxLevel;
      match FirstLevelTooHigh(p.requiredLevels, max)
      case None => None
      case Some(k) => Some(PrerequisiteLevelTooHigh(buildingId, p.buildingId, p.requiredLevels[k], max))
  }

  /** `validate_prerequisites`: the first failing prerequisite, in list order, decides the error. */
  function ValidatePrerequisites(buildingId: BuildingId, prereqs: seq<Prerequisite>,
                                 defs: map<BuildingId, BuildingDefinition>): (r: Result<Unit, BuildingConfigError>)
    requires buildingId in defs
    ensures r.Ok? <==> forall k :: 0 <= k < |prereqs| ==> PrerequisiteOk(defs[buildingId].maxLevel, prereqs[k], defs)
    ensures r.Err? ==>
      exists k :: 0 <= k < |prereqs|
        && (forall j :: 0 <= j < k ==> PrerequisiteOk(defs[buildingId].maxLevel, prereqs[j], defs))
        && PrerequisiteError(buildingId, defs[buildingId].maxLevel, prereqs[k], defs) == Some(r.error)
  {
    if prereqs == [] then Ok(Unit)
    else
      match PrerequisiteError(buildingId, defs[buildingId].maxLevel, prereqs[0], defs)
      case Some(e) => Err(e)
      case None =>
        var r := ValidatePrerequisites(buildingId, prereqs[1..], defs);
        assert r.Err? ==> (exists k :: 1 <= k < |prereqs|
                            && (forall j :: 0 <= j < k ==> PrerequisiteOk(defs[buildingId].maxLevel, prereqs[j], defs))
                            && PrerequisiteError(buildingId, defs[buildingId].maxLevel, prereqs[k], defs) == Some(r.error))
        by {
          if r.Err? {
            var k :| 0 <= k < |prereqs[1..]|
              && (forall j :: 0 <= j < k ==> PrerequisiteOk(defs[buildingId].maxLevel, prereqs[1..][j], defs))
              && PrerequisiteError(buildingId, defs[buildingId].maxLevel, prereqs[1..][k], defs) == Some(r.error);
            assert prereqs[k + 1] == prereqs[1..][k];
            assert forall j :: 1 <= j < k + 1 ==> prereqs[j] == prereqs[1..][j - 1];
          }
        }
        r
  }

  // ---------------------------------------------------------------------------------------------
  // The prerequisite graph

  function PrereqIds(ps: seq<Prerequisite>): (r: seq<BuildingId>)
    ensures |r| == |ps| && forall k :: 0 <= k < |ps| ==> r[k] == ps[k].buildingId
  {
    if ps == [] then [] else [ps[0].buildingId] + PrereqIds(ps[1..])
  }

  /** `u` lists `v` among its prerequisites. */
  predicate Edge(defs: map<BuildingId, BuildingDefinition>, u: BuildingId, v: BuildingId) {
    u in defs && v in PrereqIds(defs[u].prerequisites)
  }

  /** Every prerequisite names a defined building, as `validate_prerequisites` ensures. */
  predicate PrerequisitesDefined(defs: map<BuildingId, BuildingDefinition>) {
    forall u, k :: u in defs && 0 <= k < |defs[u].prerequisites| ==> defs[u].prerequisites[k].buildingId in defs
  }

  /** Building `i` of `w` names building `i + 1` as a prerequisite. */
  ghost predicate Step(defs: map<BuildingId, BuildingDefinition>, w: seq<BuildingId>, i: nat)
    requires i < |w| - 1
  {
    Edge(defs, w[i], w[i + 1])
  }

  /** A sequence of defined buildings, each naming the next as a prerequisite. */
  ghost predicate IsWalk(defs: map<BuildingId, BuildingDefinition>, w: seq<BuildingId>) {
    |w| >= 1
    && (forall i :: 0 <= i < |w| ==> w[i] in defs)
    && (forall i: nat :: i < |w| - 1 ==> Step(defs, w, i))
  }

  ghost predicate HasDuplicate(w: seq<BuildingId>) {
    exists i, j :: 0 <= i < j < |w| && w[i] == w[j]
  }

  /** The prerequisite graph has a cycle: a walk of at least one step that returns to its start. */
  ghost predicate HasCycle(defs: map<BuildingId, BuildingDefinition>) {
    exists w :: IsWalk(defs, w) && |w| >= 2 && w[0] == w[|w| - 1]
  }

  /** What a `CircularDependency` error reports: a walk whose last building already occurs earlier
    * in it. */
  ghost predicate IsCycleReport(defs: map<BuildingId, BuildingDefinition>, c: seq<BuildingId>) {
    IsWalk(defs, c) && |c| >= 2 && c[|c| - 1] in c[..|c| - 1]
  }

  /** `w` is a walk that starts at `x`. */
  ghost predicate WalkFrom(defs: map<BuildingId, BuildingDefinition>, w: seq<BuildingId>, x: BuildingId) {
    IsWalk(defs, w) && w[0] == x
  }

  /** No walk starting at `x` ever revisits a building: no cycle is reachable from `x`. */
  ghost predicate Safe(defs: map<BuildingId, BuildingDefinition>, x: BuildingId) {
    forall w :: WalkFrom(defs, w, x) ==> !HasDuplicate(w)
  }

  lemma WalkSlice(defs: map<BuildingId, BuildingDefinition>, w: seq<BuildingId>, i: nat, j: nat)
    requires IsWalk(defs, w) && i < j <= |w|
    ensures IsWalk(defs, w[i..j])
  {
    var s := w[i..j];
    forall k: nat | k < |s| - 1
      ensures Step(defs, s, k)
    {
      assert Step(defs, w, i + k);
      assert s[k] == w[i + k] && s[k + 1] == w[i + k + 1];
    }
  }

  lemma WalkAppend(defs: map<BuildingId, BuildingDefinition>, w: seq<BuildingId>, v: BuildingId)
    requires IsWalk(defs, w) && v in defs && Edge(defs, w[|w| - 1], v)
    ensures IsWalk(defs, w + [v])
  {
    var u := w + [v];
    forall k: nat | k < |u| - 1
      ensures Step(defs, u, k)
    {
      if k < |w| - 1 {
        assert Step(defs, w, k);
      }
    }
  }

  /** A report is a genuine cycle, and a cycle makes a report possible. */
  lemma CycleReportIsCycle(defs: map<BuildingId, BuildingDefinition>, c: seq<BuildingId>)
    requires IsCycleReport(defs, c)
    ensures HasCycle(defs)
  {
    var n := |c| - 1;
    var i :| 0 <= i < n && c[..n][i] == c[n];
    WalkSlice(defs, c, i, |c|);
    var w := c[i..|c|];
    assert IsWalk(defs, w) && |w| >= 2 && w[0] == w[|w| - 1];
  }

  /** A walk that revisits a building yields a walk from its second building that revisits one. */
  lemma DuplicateMovesToSuccessor(defs: map<BuildingId, BuildingDefinition>, w: seq<BuildingId>)
    requires IsWalk(defs, w) && HasDuplicate(w)
    ensures |w| >= 2 && Edge(defs, w[0], w[1]) && !Safe(defs, w[1])
  {
    var i, j :| 0 <= i < j < |w| && w[i] == w[j];
    assert Step(defs, w, 0);
    var y := w[1];
    if i >= 1 {
      WalkSlice(defs, w, 1, |w|);
      var t := w[1..|w|];
      assert t[i - 1] == w[i] && t[j - 1] == w[j];
      assert IsWalk(defs, t) && t[0] == y && HasDuplicate(t);
    } else {
      // The walk comes back to w[0] at position j, and w[0] leads to y again.
      WalkSlice(defs, w, 1, j + 1);
      var t := w[1..j + 1];
      assert t[|t| - 1] == w[0];
      WalkAppend(defs, t, y);
      var t' := t + [y];
      assert t'[0] == y && t'[|t'| - 1] == y && 0 < |t'| - 1;
      assert IsWalk(defs, t') && t'[0] == y && HasDuplicate(t');
    }
  }

  /** A building all of whose prerequisites are safe is itself safe. */
  lemma SafeFromPrerequisites(defs: map<BuildingId, BuildingDefinition>, x: BuildingId)
    requires x in defs
    requires forall v :: v in PrereqIds(defs[x].prerequisites) ==> Safe(defs, v)
    ensures Safe(defs, x)
  {
    forall w | IsWalk(defs, w) && w[0] == x
      ensures !HasDuplicate(w)
    {
      if HasDuplicate(w) {
        DuplicateMovesToSuccessor(defs, w);
        assert false;
      }
    }
  }

  /** A cycle through `w[0]` makes `w[0]` unsafe. */
  lemma CycleMakesUnsafe(defs: map<BuildingId, BuildingDefinition>, w: seq<BuildingId>)
    requires IsWalk(defs, w) && |w| >= 2 && w[0] == w[|w| - 1]
    ensures w[0] in defs && !Safe(defs, w[0])
  {
    assert WalkFrom(defs, w, w[0]);
    assert HasDuplicate(w) by { assert w[0] == w[|w| - 1]; }
  }

  /** The stretch of a walk between two visits of the same building is a cycle. */
  lemma RepeatMakesCycle(defs: map<BuildingId, BuildingDefinition>, w: seq<BuildingId>, i: nat, j: nat)
    requires IsWalk(defs, w) && i < j < |w| && w[i] == w[j]
    ensures HasCycle(defs)
  {
    WalkSlice(defs, w, i, j + 1);
    var c := w[i..j + 1];
    assert c[0] == w[i] && c[|c| - 1] == w[j];
    assert IsWalk(defs, c) && |c| >= 2 && c[0] == c[|c| - 1];
  }

  /** An unsafe building has a cycle within its reach. */
  lemma UnsafeMakesCycle(defs: map<BuildingId, BuildingDefinition>, x: BuildingId)
    requires !Safe(defs, x)
    ensures HasCycle(defs)
  {
    var w :| WalkFrom(defs, w, x) && HasDuplicate(w);
    var i, j :| 0 <= i < j < |w| && w[i] == w[j];
    RepeatMakesCycle(defs, w, i, j);
  }

  /** The graph is acyclic exactly when every building is safe. */
  lemma AcyclicIffAllSafe(defs: map<BuildingId, BuildingDefinition>)
    ensures !HasCycle(defs) <==> forall x :: x in defs ==> Safe(defs, x)
  {
    if HasCycle(defs) {
      var w :| IsWalk(defs, w) && |w| >= 2 && w[0] == w[|w| - 1];
      CycleMakesUnsafe(defs, w);
    } else {
      forall x | x in defs
        ensures Safe(defs, x)
      {
        if !Safe(defs, x) {
          UnsafeMakesCycle(defs, x);
        }
      }
    }
  }

  /** Pushing a building that is not yet on a search path keeps the path a walk without repeats, and
    * leaves fewer buildings off the path. */
  lemma ExtendPath(defs: map<BuildingId, BuildingDefinition>, path: seq<BuildingId>, current: BuildingId)
    requires current in defs && current !in path
    requires path == [] || (IsWalk(defs, path) && Edge(defs, path[|path| - 1], current))
    requires forall i, j :: 0 <= i < j < |path| ==> path[i] != path[j]
    ensures IsWalk(defs, path + [current])
    ensures forall i, j :: 0 <= i < j < |path + [current]| ==> (path + [current])[i] != (path + [current])[j]
    ensures OffPath(defs, path + [current]) < OffPath(defs, path)
  {
    if path != [] {
      WalkAppend(defs, path, current);
    }
    assert (set x | x in path + [current]) == (set x | x in path) + {current};
  }

  /** The buildings not on a search path, the measure that shrinks as the search goes deeper. */
  function OffPath(defs: map<BuildingId, BuildingDefinition>, path: seq<BuildingId>): set<BuildingId> {
    defs.Keys - set x | x in path
  }

  /** `detect_cycle`: depth-first search from `current`. `path` is the chain of buildings whose
    * prerequisites are being explored (each naming the next, the last naming `current`); `visited`
    * holds buildings whose whole prerequisite closure has been explored without finding a cycle.
    * The updated `visited` set is returned. */
  method DetectCycle(current: BuildingId, defs: map<BuildingId, BuildingDefinition>,
                     visited: set<BuildingId>, path: seq<BuildingId>)
    returns (r: Result<Unit, BuildingConfigError>, visitedOut: set<BuildingId>)
    requires PrerequisitesDefined(defs)
    requires current in defs
    requires path == [] || (IsWalk(defs, path) && Edge(defs, path[|path| - 1], current))
    requires forall i, j :: 0 <= i < j < |path| ==> path[i] != path[j]
    requires forall v :: v in visited ==> Safe(defs, v)
    ensures r.Ok? ==> Safe(defs, current) && current in visitedOut
    ensures r.Ok? ==> visited <= visitedOut && forall v :: v in visitedOut ==> Safe(defs, v)
    ensures r.Err? ==>
      r.error.CircularDependency? && IsCycleReport(defs, r.error.cycle)
        && r.error.cycle[0] == (if path == [] then current else path[0])
    decreases OffPath(defs, path), 1
  {
    visitedOut := visited;
    if current in path {
      var cycle := path + [current];
      WalkAppend(defs, path, current);
      assert cycle[..|cycle| - 1] == path;
      r := Err(CircularDependency(cycle));
      return;
    }
    if current in visited {
      r := Ok(Unit);
      return;
    }
    var newPath := path + [current];
    ExtendPath(defs, path, current);
    assert newPath[0] == (if path == [] then current else path[0]);
    r, visitedOut := ExplorePrerequisites(current, defs, visited, newPath);
    if r.Ok? {
      SafeFromPrerequisites(defs, current);
      visitedOut := visitedOut + {current};
    }
  }

  /** The loop of `detect_cycle` over the prerequisites of `current`, the last building of `path`:
    * a search from each in turn, stopping at the first cycle. */
  method ExplorePrerequisites(current: BuildingId, defs: map<BuildingId, BuildingDefinition>,
                              visited: set<BuildingId>, path: seq<BuildingId>)
    returns (r: Result<Unit, BuildingConfigError>, visitedOut: set<BuildingId>)
    requires PrerequisitesDefined(defs)
    requires current in defs && path != [] && path[|path| - 1] == current && IsWalk(defs, path)
    requires forall i, j :: 0 <= i < j < |path| ==> path[i] != path[j]
    requires forall v :: v in visited ==> Safe(defs, v)
    ensures r.Ok? ==> forall v :: v in PrereqIds(defs[current].prerequisites) ==> Safe(defs, v)
    ensures r.Ok? ==> visited <= visitedOut && forall v :: v in visitedOut ==> Safe(defs, v)
    ensures r.Err? ==> r.error.CircularDependency? && IsCycleReport(defs, r.error.cycle) && r.error.cycle[0] == path[0]
    decreases OffPath(defs, path), 2
  {
    var prereqs := defs[current].prerequisites;
    visitedOut := visited;
    var i := 0;
    while i < |prereqs|
      invariant 0 <= i <= |prereqs|
      invariant visited <= visitedOut && forall v :: v in visitedOut ==> Safe(defs, v)
      invariant forall k :: 0 <= k < i ==> prereqs[k].buildingId in visitedOut
    {
      var next := prereqs[i].buildingId;
      assert PrereqIds(prereqs)[i] == next;
      assert next in defs && Edge(defs, path[|path| - 1], next);
      var res;
      res, visitedOut := DetectCycle(next, defs, visitedOut, path);
      if res.Err? {
        r := res;
        return;
      }
      i := i + 1;
    }
    forall v | v in PrereqIds(prereqs)
      ensures Safe(defs, v)
    {
      var k :| 0 <= k < |prereqs| && PrereqIds(prereqs)[k] == v;
      assert v in visitedOut;
    }
    r := Ok(Unit);
  }

  /** `check_circular_dependencies`: a fresh search from every building, in the unspecified order
    * in which a `HashMap` yields its keys. It fails exactly when the prerequisite graph has a cycle,
    * and then reports one. */
  method CheckCircularDependencies(defs: map<BuildingId, BuildingDefinition>)
    returns (r: Result<Unit, BuildingConfigError>)
    requires PrerequisitesDefined(defs)
    ensures r.Ok? <==> !HasCycle(defs)
    ensures r.Err? ==> r.error.CircularDependency? && IsCycleReport(defs, r.error.cycle)
  {
    var remaining := defs.Keys;
    while remaining != {}
      invariant remaining <= defs.Keys
      invariant forall x :: x in defs.Keys - remaining ==> Safe(defs, x)
      decreases remaining
    {
      var id :| id in remaining;
      var res, _ := DetectCycle(id, defs, {}, []);
      if res.Err? {
        CycleReportIsCycle(defs, res.error.cycle);
        return res;
      }
      remaining := remaining - {id};
    }
    AcyclicIffAllSafe(defs);
    r := Ok(Unit);
  }

  // ---------------------------------------------------------------------------------------------
  // The registry

  datatype BuildingRegistry = BuildingRegistry(definitions: map<BuildingId, BuildingDefinition>) {
    /** `get`. */
    function Get(id: BuildingId): (r: Option<BuildingDefinition>)
      ensures r.Some? <==> id in definitions
      ensures r.Some? ==> r.value == definitions[id]
    {
      if id in definitions then Some(definitions[id]) else None
    }

    /** `len`. */
    function Len(): (n: nat)
      ensures n == |definitions.Keys|
    {
      |definitions.Keys|
    }
  }

  /** The ids of the records. */
  function Ids(config: seq<BuildingConfig>): set<BuildingId> {
    set k | 0 <= k < |config| :: config[k].id
  }

  predicate DistinctIds(config: seq<BuildingConfig>) {
    forall i, j :: 0 <= i < j < |config| ==> config[i].id != config[j].id
  }

  /** The map the first loop of `validate_and_build` fills, one insertion per record in order. */
  function Definitions(config: seq<BuildingConfig>): (m: map<BuildingId, BuildingDefinition>)
    ensures forall k :: 0 <= k < |config| ==> config[k].id in m
  {
    if config == [] then map[]
    else
      var init := config[..|config| - 1];
      var last := config[|config| - 1];
      assert forall k :: 0 <= k < |init| ==> init[k] == config[k];
      Definitions(init)[last.id := ConvertToDefinition(last)]
  }

  /** The map has an entry for exactly the records' ids. */
  lemma {:induction false} DefinitionsKeys(config: seq<BuildingConfig>)
    ensures Definitions(config).Keys == Ids(config)
  {
    if config != [] {
      var init := config[..|config| - 1];
      var last := config[|config| - 1];
      DefinitionsKeys(init);
      forall id | id in Ids(config) ensures id in Ids(init) + {last.id} {
        var k :| 0 <= k < |config| && config[k].id == id;
        if k < |config| - 1 { assert init[k] == config[k]; }
      }
      forall id | id in Ids(init) ensures id in Ids(config) {
        var k :| 0 <= k < |init| && init[k].id == id;
        assert config[k] == init[k];
      }
      assert config[|config| - 1].id in Ids(config);
    }
  }

  /** The first error of the first loop of `validate_and_build` over the records still to do, given
    * the ids already inserted: a repeated id, else the first array-length mismatch. */
  function FirstDefinitionError(config: seq<BuildingConfig>, seen: set<BuildingId>)
    : (r: Option<BuildingConfigError>)
    ensures r.Some? ==> r.value.DuplicateBuildingId? || r.value.InvalidArrayLength?
  {
    if config == [] then None
    else if config[0].id in seen then Some(DuplicateBuildingId(config[0].id))
    else
      match CheckArrayLengths(config[0])
      case Err(e) => Some(e)
      case Ok(_) => FirstDefinitionError(config[1..], seen + {config[0].id})
  }

  /** The first loop fails if and only if some id repeats, among the records or with an id already
    * inserted, or some record's arrays are not `max_level` long. */
  lemma {:induction false} FirstDefinitionErrorNone(config: seq<BuildingConfig>, seen: set<BuildingId>)
    ensures FirstDefinitionError(config, seen).None? <==>
      DistinctIds(config) && forall k :: 0 <= k < |config| ==> config[k].id !in seen && WellSized(config[k])
  {
    if config != [] && config[0].id !in seen && WellSized(config[0]) {
      var rest := config[1..];
      FirstDefinitionErrorNone(rest, seen + {config[0].id});
      assert forall k :: 0 <= k < |rest| ==> rest[k] == config[k + 1];
      if FirstDefinitionError(rest, seen + {config[0].id}).None? {
        forall i, j | 0 <= i < j < |config| ensures config[i].id != config[j].id {
          assert config[j] == rest[j - 1];
          if i > 0 { assert config[i] == rest[i - 1]; }
        }
      } else if DistinctIds(config) && forall k :: 0 <= k < |config| ==> config[k].id !in seen && WellSized(config[k]) {
        assert false;
      }
    }
  }

  /** The first error of the second loop: the first record, in order, whose prerequisites fail. */
  function FirstPrerequisiteError(config: seq<BuildingConfig>, defs: map<BuildingId, BuildingDefinition>)
    : (r: Option<BuildingConfigError>)
    requires forall k :: 0 <= k < |config| ==> config[k].id in defs
    ensures r.None? <==> forall k :: 0 <= k < |config| ==>
      ValidatePrerequisites(config[k].id, config[k].prerequisites, defs).Ok?
  {
    if config == [] then None
    else
      match ValidatePrerequisites(config[0].id, config[0].prerequisites, defs)
      case Err(e) => Some(e)
      case Ok(_) =>
        var r := FirstPrerequisiteError(config[1..], defs);
        assert forall k :: 1 <= k < |config| ==> config[k] == config[1..][k - 1];
        r
  }

  /** With unique ids, the registry maps each record's id to that record's definition, and holds
    * exactly one entry per record. */
  lemma {:induction false} DefinitionsOfDistinct(config: seq<BuildingConfig>)
    requires DistinctIds(config)
    ensures forall k :: 0 <= k < |config| ==> Definitions(config)[config[k].id] == ConvertToDefinition(config[k])
    ensures |Definitions(config).Keys| == |config|
  {
    if config != [] {
      var init := config[..|config| - 1];
      assert DistinctIds(init);
      DefinitionsOfDistinct(init);
      DefinitionsKeys(init);
      var last := config[|config| - 1];
      forall k | 0 <= k < |init|
        ensures init[k].id != last.id
      {
        assert init[k] == config[k];
      }
      assert last.id !in Ids(init);
      forall k | 0 <= k < |config| - 1
        ensures Definitions(config)[config[k].id] == ConvertToDefinition(config[k])
      {
        assert config[k] == init[k];
      }
    }
  }

  /** Loaded definitions only name defined buildings as prerequisites once every record's
    * prerequisites have been validated. */
  lemma PrerequisitesDefinedAfterValidation(config: seq<BuildingConfig>)
    requires DistinctIds(config)
    requires FirstPrerequisiteError(config, Definitions(config)).None?
    ensures PrerequisitesDefined(Definitions(config))
  {
    var defs := Definitions(config);
    DefinitionsOfDistinct(config);
    DefinitionsKeys(config);
    forall u, k | u in defs && 0 <= k < |defs[u].prerequisites|
      ensures defs[u].prerequisites[k].buildingId in defs
    {
      var i :| 0 <= i < |config| && config[i].id == u;
      assert ValidatePrerequisites(config[i].id, config[i].prerequisites, defs).Ok?;
      assert PrerequisiteOk(defs[u].maxLevel, config[i].prerequisites[k], defs);
    }
  }

  /** One insertion of the first loop of `validate_and_build`: the map for one more record is the
    * previous map with that record's definition stored under its id. */
  lemma DefinitionsStep(config: seq<BuildingConfig>, i: nat)
    requires i < |config|
    ensures Definitions(config[..i + 1]) == Definitions(config[..i])[config[i].id := ConvertToDefinition(config[i])]
  {
    ghost var next := config[..i + 1];
    assert next[..|next| - 1] == config[..i] && next[|next| - 1] == config[i];
  }

  /** One check of the first loop of `validate_and_build`: record `i` is either the first error or
    * is inserted, and the rest is checked against the grown set of ids. */
  lemma DefinitionErrorStep(config: seq<BuildingConfig>, i: nat, seen: set<BuildingId>)
    requires i < |config|
    ensures config[i].id in seen ==> FirstDefinitionError(config[i..], seen) == Some(DuplicateBuildingId(config[i].id))
    ensures config[i].id !in seen && CheckArrayLengths(config[i]).Err? ==>
      FirstDefinitionError(config[i..], seen) == Some(CheckArrayLengths(config[i]).error)
    ensures config[i].id !in seen && CheckArrayLengths(config[i]).Ok? ==>
      FirstDefinitionError(config[i..], seen) == FirstDefinitionError(config[i + 1..], seen + {config[i].id})
  {
    assert config[i..][0] == config[i] && config[i..][1..] == config[i + 1..];
  }

  /** The first loop of `validate_and_build`: each record is inserted after checking that its id is
    * new and that its arrays are `max_level` long. */
  method InsertDefinitions(config: seq<BuildingConfig>)
    returns (r: Result<map<BuildingId, BuildingDefinition>, BuildingConfigError>)
    ensures FirstDefinitionError(config, {}).Some? ==> r == Err(FirstDefinitionError(config, {}).value)
    ensures FirstDefinitionError(config, {}).None? ==> r == Ok(Definitions(config))
  {
    var defs: map<BuildingId, BuildingDefinition> := map[];
    ghost var seen: set<BuildingId> := {};
    var i := 0;
    assert config[i..] == config && config[..i] == [];
    while i < |config|
      invariant 0 <= i <= |config|
      invariant defs == Definitions(config[..i]) && defs.Keys == seen
      invariant FirstDefinitionError(config, {}) == FirstDefinitionError(config[i..], seen)
    {
      var b := config[i];
      DefinitionErrorStep(config, i, seen);
      if b.id in defs {
        return Err(DuplicateBuildingId(b.id));
      }
      var lengths := CheckArrayLengths(b);
      if lengths.Err? {
        return Err(lengths.error);
      }
      DefinitionsStep(config, i);
      defs := defs[b.id := ConvertToDefinition(b)];
      seen := seen + {b.id};
      i := i + 1;
    }
    assert config[..i] == config;
    r := Ok(defs);
  }

  /** The second loop of `validate_and_build`: every record's prerequisites, in record order. */
  method ValidateAllPrerequisites(config: seq<BuildingConfig>, defs: map<BuildingId, BuildingDefinition>)
    returns (r: Result<Unit, BuildingConfigError>)
    requires forall k :: 0 <= k < |config| ==> config[k].id in defs
    ensures FirstPrerequisiteError(config, defs).Some? ==> r == Err(FirstPrerequisiteError(config, defs).value)
    ensures FirstPrerequisiteError(config, defs).None? ==> r == Ok(Unit)
  {
    var i := 0;
    assert config[i..] == config;
    while i < |config|
      invariant 0 <= i <= |config|
      invariant FirstPrerequisiteError(config, defs) == FirstPrerequisiteError(config[i..], defs)
    {
      assert config[i..][0] == config[i] && config[i..][1..] == config[i + 1..];
      var v := ValidatePrerequisites(config[i].id, config[i].prerequisites, defs);
      if v.Err? {
        return Err(v.error);
      }
      i := i + 1;
    }
    r := Ok(Unit);
  }

  /** `validate_and_build`: the two loops over the records, then the cycle check. */
  method ValidateAndBuild(config: seq<BuildingConfig>) returns (r: Result<BuildingRegistry, BuildingConfigError>)
    ensures FirstDefinitionError(config, {}).Some? ==> r == Err(FirstDefinitionError(config, {}).value)
    ensures FirstDefinitionError(config, {}).None? ==>
      FirstPrerequisiteError(config, Definitions(config)).Some? ==>
        r == Err(FirstPrerequisiteError(config, Definitions(config)).value)
    ensures FirstDefinitionError(config, {}).None? ==>
      FirstPrerequisiteError(config, Definitions(config)).None? ==>
        (r.Ok? <==> !HasCycle(Definitions(config)))
        && (r.Ok? ==> r.value.definitions == Definitions(config))
        && (r.Err? ==> r.error.CircularDependency? && IsCycleReport(Definitions(config), r.error.cycle))
  {
    var inserted := InsertDefinitions(config);
    if inserted.Err? {
      return Err(inserted.error);
    }
    var defs := inserted.value;
    FirstDefinitionErrorNone(config, {});
    var prerequisites := ValidateAllPrerequisites(config, defs);
    if prerequisites.Err? {
      return Err(prerequisites.error);
    }
    PrerequisitesDefinedAfterValidation(config);
    var acyclic := CheckCircularDependencies(defs);
    if acyclic.Err? {
      return Err(acyclic.error);
    }
    r := Ok(BuildingRegistry(defs));
  }

  /** On success, `get` finds every record's definition under its id, and `len` is the number of
    * records. */
  lemma LoadedRegistry(config: seq<BuildingConfig>)
    requires FirstDefinitionError(config, {}).None?
    ensures forall k :: 0 <= k < |config| ==>
      BuildingRegistry(Definitions(config)).Get(config[k].id) == Some(ConvertToDefinition(config[k]))
    ensures BuildingRegistry(Definitions(config)).Len() == |config|
    ensures forall id :: BuildingRegistry(Definitions(config)).Get(id).Some? <==> id in Ids(config)
  {
    FirstDefinitionErrorNone(config, {});
    DefinitionsOfDistinct(config);
    DefinitionsKeys(config);
  }
}
