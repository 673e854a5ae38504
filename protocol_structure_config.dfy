/** The structure catalogue of the older crate (`colony_protocol::configs::structure_config`):
  * per-level tables of every structure type, validated record by record while they are loaded.
  * Only the validation of already-decoded records is modelled; reading and parsing the JSON file
  * is not. */
module ProtocolStructureConfig {
  import opened Ints
  import opened Wrappers
  import opened ProtocolResources
  import opened FirstFailure

  type StructureId = string

  /** A structure that must be built first, with the level of it required for each level of the
    * dependent structure. */
  datatype Prerequisity = Prerequisity(structureId: StructureId, requiredLevels: seq<U32>)

  /** One record of the catalogue. Each per-level table is indexed by `level - 1`. */
  datatype StructureDefinition = StructureDefinition(
    id: StructureId,
    name: string,
    description: string,
    maxLevel: U16,
    costs: seq<Resources>,
    upgradeTime: seq<U32>,
    energyConsumption: seq<U32>,
    hitpoints: seq<U32>,
    production: seq<Resources>,
    storageCapacity: seq<Resources>,
    prerequisites: seq<Prerequisity>,
    shieldRegenTurns: Option<U32>)

  /** The validation error of the catalogue (the I/O and JSON variants are not modelled). */
  datatype StructureConfigError =
    SizeMismatchError(structureName: string, fieldName: string, expected: nat, actual: nat)

  /** `Prerequisity::validate`: a prerequisite may list at most one required level per level of
    * the dependent structure. */
  function ValidatePrerequisity(p: Prerequisity, structureName: string, maxLevel: nat)
    : (r: Result<Unit, StructureConfigError>)
    ensures r.Ok? <==> |p.requiredLevels| <= maxLevel
    ensures r.Err? ==>
      r.error == SizeMismatchError(structureName, "prerequisity.required_levels", maxLevel, |p.requiredLevels|)
  {
    if |p.requiredLevels| > maxLevel then
      Err(SizeMismatchError(structureName, "prerequisity.required_levels", maxLevel, |p.requiredLevels|))
    else Ok(Unit)
  }

  /** The six tables `validate_arrays` checks, in the order it checks them. */
  function ArraySizes(d: StructureDefinition): seq<(string, nat)> {
    [ ("costs", |d.costs|),
      ("production", |d.production|),
      ("storage_capacity", |d.storageCapacity|),
      ("hitpoints", |d.hitpoints|),
      ("upgrade_time", |d.upgradeTime|),
      ("energy_consumption", |d.energyConsumption|) ]
  }

  /** No table has more entries than the structure has levels. Shorter tables, empty ones
    * included, are allowed. */
  predicate ArraysFit(d: StructureDefinition) {
    |d.costs| <= d.maxLevel && |d.production| <= d.maxLevel && |d.storageCapacity| <= d.maxLevel
    && |d.hitpoints| <= d.maxLevel && |d.upgradeTime| <= d.maxLevel && |d.energyConsumption| <= d.maxLevel
  }

  /** The loop of `validate_arrays` over `sizes`: the first table longer than `maxLevel`. */
  function FirstOversized(structureName: string, maxLevel: nat, sizes: seq<(string, nat)>)
    : (r: Result<Unit, StructureConfigError>)
    ensures r.Ok? <==> forall k :: 0 <= k < |sizes| ==> sizes[k].1 <= maxLevel
    ensures r.Err? ==>
      exists k :: 0 <= k < |sizes| && sizes[k].1 > maxLevel
        && (forall j :: 0 <= j < k ==> sizes[j].1 <= maxLevel)
        && r.error == SizeMismatchError(structureName, sizes[k].0, maxLevel, sizes[k].1)
  {
    var check := (size: (string, nat)) =>
      if size.1 > maxLevel then Err(SizeMismatchError(structureName, size.0, maxLevel, size.1)) else Ok(Unit);
    match FirstError(sizes, check)
    case None => Ok(Unit)
    case Some(e) =>
      var k :| 0 <= k < |sizes| && (forall j :: 0 <= j < k ==> check(sizes[j]).Ok?) && check(sizes[k]) == Err(e);
      Err(e)
  }


  /** `validate_arrays`: accepted exactly when every table fits; otherwise the error names the
    * structure and the first table, in checking order, that is too long. */
  function ValidateArrays(d: StructureDefinition): (r: Result<Unit, StructureConfigError>)
    ensures r.Ok? <==> ArraysFit(d)
    ensures r.Err? ==>
      exists k :: 0 <= k < 6 && ArraySizes(d)[k].1 > d.maxLevel
        && (forall j :: 0 <= j < k ==> ArraySizes(d)[j].1 <= d.maxLevel)
        && r.error == SizeMismatchError(d.name, ArraySizes(d)[k].0, d.maxLevel, ArraySizes(d)[k].1)
  {
    var sizes := ArraySizes(d);
    assert ArraysFit(d) <==> forall k :: 0 <= k < |sizes| ==> sizes[k].1 <= d.maxLevel by {
      if forall k :: 0 <= k < |sizes| ==> sizes[k].1 <= d.maxLevel {
        assert sizes[0].1 <= d.maxLevel && sizes[1].1 <= d.maxLevel && sizes[2].1 <= d.maxLevel;
        assert sizes[3].1 <= d.maxLevel && sizes[4].1 <= d.maxLevel && sizes[5].1 <= d.maxLevel;
      }
    }
    FirstOversized(d.name, d.maxLevel, sizes)
  }

  /** Every prerequisite of the structure passes `Prerequisity::validate`. */
  predicate PrerequisitiesFit(d: StructureDefinition) {
    forall k :: 0 <= k < |d.prerequisites| ==> |d.prerequisites[k].requiredLevels| <= d.maxLevel
  }

  /** The loop of `validate_prerequisities` over `ps`: the first prerequisite with too many required
    * levels. */
  function FirstOversizedPrerequisity(structureName: string, maxLevel: nat, ps: seq<Prerequisity>)
    : (r: Result<Unit, StructureConfigError>)
    ensures r.Ok? <==> forall k :: 0 <= k < |ps| ==> |ps[k].requiredLevels| <= maxLevel
    ensures r.Err? ==>
      exists k :: 0 <= k < |ps| && |ps[k].requiredLevels| > maxLevel
        && (forall j :: 0 <= j < k ==> |ps[j].requiredLevels| <= maxLevel)
        && r == ValidatePrerequisity(ps[k], structureName, maxLevel)
  {
    var check := (p: Prerequisity) => ValidatePrerequisity(p, structureName, maxLevel);
    match FirstError(ps, check)
    case None => Ok(Unit)
    case Some(e) =>
      var k :| 0 <= k < |ps| && (forall j :: 0 <= j < k ==> check(ps[j]).Ok?) && check(ps[k]) == Err(e);
      Err(e)
  }


  /** `validate_prerequisities`: accepted exactly when every prerequisite fits; otherwise the error
    * of the first one that does not. */
  function ValidatePrerequisities(d: StructureDefinition): (r: Result<Unit, StructureConfigError>)
    ensures r.Ok? <==> PrerequisitiesFit(d)
    ensures r.Err? ==>
      exists k :: 0 <= k < |d.prerequisites| && |d.prerequisites[k].requiredLevels| > d.maxLevel
        && (forall j :: 0 <= j < k ==> |d.prerequisites[j].requiredLevels| <= d.maxLevel)
        && r.error == SizeMismatchError(d.name, "prerequisity.required_levels", d.maxLevel,
                                        |d.prerequisites[k].requiredLevels|)
  {
    FirstOversizedPrerequisity(d.name, d.maxLevel, d.prerequisites)
  }

  /** A record the loader accepts. */
  predicate ValidDefinition(d: StructureDefinition) {
    ArraysFit(d) && PrerequisitiesFit(d)
  }

  /** Both validations of one record, tables first. */
  function ValidateDefinition(d: StructureDefinition): (r: Result<Unit, StructureConfigError>)
    ensures r.Ok? <==> ValidDefinition(d)
    ensures !ArraysFit(d) ==> r == ValidateArrays(d)
    ensures ArraysFit(d) ==> r == ValidatePrerequisities(d)
  {
    match ValidateArrays(d)
    case Err(e) => Err(e)
    case Ok(_) => ValidatePrerequisities(d)
  }

  /** The loaded catalogue. */
  datatype StructureConfig = StructureConfig(structures: map<StructureId, StructureDefinition>) {
    /** `get`. */
    function Get(id: StructureId): (r: Option<StructureDefinition>)
      ensures r.Some? <==> id in structures
      ensures r.Some? ==> r.value == structures[id]
    {
      if id in structures then Some(structures[id]) else None
    }
  }

  /** The map the loader builds from accepted records: inserted in order, so a later record with
    * the same id replaces an earlier one. */
  function Inserted(defs: seq<StructureDefinition>): (m: map<StructureId, StructureDefinition>)
    ensures m.Keys == set k | 0 <= k < |defs| :: defs[k].id
  {
    if defs == [] then map[]
    else
      var init := defs[..|defs| - 1];
      var m := Inserted(init)[defs[|defs| - 1].id := defs[|defs| - 1]];
      assert (set k | 0 <= k < |defs| :: defs[k].id) == (set k | 0 <= k < |init| :: init[k].id) + {defs[|defs| - 1].id}
      by {
        forall k | 0 <= k < |init| ensures defs[k].id == init[k].id { }
      }
      m
  }

  /** The first record the loader rejects, with its error. */
  function FirstInvalid(defs: seq<StructureDefinition>): Option<StructureConfigError> {
    FirstError(defs, ValidateDefinition)
  }

  /** The loader accepts a list of records exactly when every record is valid. */
  lemma LoadAcceptsValid(defs: seq<StructureDefinition>)
    ensures FirstInvalid(defs).None? <==> forall k :: 0 <= k < |defs| ==> ValidDefinition(defs[k])
  {
    assert forall k :: 0 <= k < |defs| ==> (ValidateDefinition(defs[k]).Ok? <==> ValidDefinition(defs[k]));
  }

  /** One insertion of the loader: the map for one more record is the previous map with that
    * record stored under its id. */
  lemma InsertedStep(defs: seq<StructureDefinition>, i: nat)
    requires i < |defs|
    ensures Inserted(defs[..i + 1]) == Inserted(defs[..i])[defs[i].id := defs[i]]
  {
    assert defs[..i + 1][..i] == defs[..i];
  }

  /** One validation of the loader: record `i` is the first rejected one, or the search goes on
    * with the records after it. */
  lemma FirstInvalidStep(defs: seq<StructureDefinition>, i: nat)
    requires i < |defs|
    ensures ValidateDefinition(defs[i]).Err? ==> FirstInvalid(defs[i..]) == Some(ValidateDefinition(defs[i]).error)
    ensures ValidateDefinition(defs[i]).Ok? ==> FirstInvalid(defs[i..]) == FirstInvalid(defs[i + 1..])
  {
    assert defs[i..][0] == defs[i] && defs[i..][1..] == defs[i + 1..];
  }

  /** The validation loop of `load_from_string`: each record is validated and then inserted; the
    * first invalid record aborts the whole load. */
  method Load(definitions: seq<StructureDefinition>) returns (r: Result<StructureConfig, StructureConfigError>)
    ensures FirstInvalid(definitions).Some? ==> r == Err(FirstInvalid(definitions).value)
    ensures FirstInvalid(definitions).None? ==> r == Ok(StructureConfig(Inserted(definitions)))
  {
    var structures: map<StructureId, StructureDefinition> := map[];
    var i := 0;
    assert definitions[i..] == definitions;
    while i < |definitions|
      invariant 0 <= i <= |definitions|
      invariant structures == Inserted(definitions[..i])
      invariant FirstInvalid(definitions) == FirstInvalid(definitions[i..])
    {
      var d := definitions[i];
      FirstInvalidStep(definitions, i);
      // `validate_arrays` and then `validate_prerequisities`.
      var valid := ValidateDefinition(d);
      if valid.Err? {
        return Err(valid.error);
      }
      InsertedStep(definitions, i);
      structures := structures[d.id := d];
      i := i + 1;
    }
    assert definitions[..i] == definitions;
    r := Ok(StructureConfig(structures));
  }

  /** After a successful load, `get(id)` finds exactly the ids that were loaded, and for each the
    * last record carrying it. */
  lemma {:induction false} InsertedLookup(defs: seq<StructureDefinition>, k: nat)
    requires k < |defs|
    requires forall j :: k < j < |defs| ==> defs[j].id != defs[k].id
    ensures StructureConfig(Inserted(defs)).Get(defs[k].id) == Some(defs[k])
    decreases |defs|
  {
    var init := defs[..|defs| - 1];
    if k < |defs| - 1 {
      forall j | k < j < |init| ensures init[j].id != init[k].id {
        assert init[j] == defs[j];
      }
      InsertedLookup(init, k);
      assert init[k] == defs[k];
    }
  }

  /** An id that no record carries is not found. */
  lemma InsertedMissing(defs: seq<StructureDefinition>, id: StructureId)
    requires forall k :: 0 <= k < |defs| ==> defs[k].id != id
    ensures StructureConfig(Inserted(defs)).Get(id) == None
  {
  }

  /** A map built from valid records holds only valid records, each under its own id. */
  lemma {:induction false} InsertedOfValid(defs: seq<StructureDefinition>)
    requires forall k :: 0 <= k < |defs| ==> ValidDefinition(defs[k])
    ensures forall id :: id in Inserted(defs) ==> ValidDefinition(Inserted(defs)[id]) && Inserted(defs)[id].id == id
    decreases |defs|
  {
    if defs != [] {
      var init := defs[..|defs| - 1];
      assert forall k :: 0 <= k < |init| ==> init[k] == defs[k];
      InsertedOfValid(init);
    }
  }

  /** Everything the loader accepts is valid: every stored record passed both validations. */
  lemma InsertedAreValid(defs: seq<StructureDefinition>)
    requires FirstInvalid(defs).None?
    ensures forall id :: id in Inserted(defs) ==> ValidateDefinition(Inserted(defs)[id]).Ok? && Inserted(defs)[id].id == id
  {
    LoadAcceptsValid(defs);
    InsertedOfValid(defs);
  }
}
