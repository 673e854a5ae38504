/** The resource ledger of the newer crate (`colony_core::game::building::resource`): addition is
  * the plain (panicking) `+` of `u32`, subtraction is checked and returns `None` when short. */
module CoreResources {
  import opened Ints
  import opened Wrappers

  /** `Resources::new(minerals, gas, energy)` is this constructor. */
  datatype Resources = Resources(minerals: U32, gas: U32, energy: U32)

  /** `Resources::zero()`, also the `Default`. */
  const Zero := Resources(0, 0, 0)

  /** `can_afford`: `self` covers `cost` on every axis. */
  predicate CanAfford(self: Resources, cost: Resources) {
    self.minerals >= cost.minerals && self.gas >= cost.gas && self.energy >= cost.energy
  }

  /** The sum `add` computes fits in `u32` on every axis; otherwise `u32 +` panics. */
  predicate AddFits(a: Resources, b: Resources) {
    a.minerals + b.minerals <= U32_MAX && a.gas + b.gas <= U32_MAX && a.energy + b.energy <= U32_MAX
  }

  /** `add`: per-axis sum. */
  function Add(a: Resources, b: Resources): (r: Resources)
    requires AddFits(a, b)
    ensures CanAfford(r, a) && CanAfford(r, b)
    ensures r.minerals - b.minerals == a.minerals
    ensures r.gas - b.gas == a.gas
    ensures r.energy - b.energy == a.energy
  {
    Resources(a.minerals + b.minerals, a.gas + b.gas, a.energy + b.energy)
  }

  /** `subtract`: `None` exactly when the cost is not affordable; otherwise the balance that, with
    * the cost added back, gives `a` again. */
  function Subtract(a: Resources, cost: Resources): (r: Option<Resources>)
    ensures r.None? <==> !CanAfford(a, cost)
    ensures r.Some? ==> AddFits(r.value, cost) && Add(r.value, cost) == a
  {
    if !CanAfford(a, cost) then None
    else Some(Resources(a.minerals - cost.minerals, a.gas - cost.gas, a.energy - cost.energy))
  }

  /** Adding an amount and then subtracting it gives the original balance back. */
  lemma AddThenSubtract(a: Resources, b: Resources)
    requires AddFits(a, b)
    ensures Subtract(Add(a, b), b) == Some(a)
  {
  }

  /** `zero()` is `new(0, 0, 0)`, and every balance can afford it. */
  lemma EverythingCanAffordZero(a: Resources)
    ensures Zero == Resources(0, 0, 0)
    ensures CanAfford(a, Zero)
    ensures Subtract(a, Zero) == Some(a)
  {
  }
}
