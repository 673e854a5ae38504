/** The three-axis resource ledger of the older crate (`colony_protocol::resources`): every
  * arithmetic operation saturates instead of overflowing or underflowing. */
module ProtocolResources {
  import opened Ints

  datatype Resources = Resources(minerals: U32, gas: U32, energy: U32)

  /** `Resources::default()`. */
  const Zero := Resources(0, 0, 0)

  /** `has_enough`: `self` covers `cost` on every axis. */
  predicate HasEnough(self: Resources, cost: Resources) {
    self.minerals >= cost.minerals && self.gas >= cost.gas && self.energy >= cost.energy
  }

  /** `impl Add`: per-axis sum, clamped at `u32::MAX`. */
  function Add(a: Resources, b: Resources): (r: Resources)
    ensures r.minerals == Min(a.minerals + b.minerals, U32_MAX)
    ensures r.gas == Min(a.gas + b.gas, U32_MAX)
    ensures r.energy == Min(a.energy + b.energy, U32_MAX)
  {
    Resources(
      SaturatingAdd(a.minerals, b.minerals),
      SaturatingAdd(a.gas, b.gas),
      SaturatingAdd(a.energy, b.energy))
  }

  /** `impl Sub`: per-axis difference, clamped at 0. */
  function Sub(a: Resources, b: Resources): (r: Resources)
    ensures r.minerals == a.minerals - Min(a.minerals, b.minerals)
    ensures r.gas == a.gas - Min(a.gas, b.gas)
    ensures r.energy == a.energy - Min(a.energy, b.energy)
  {
    Resources(
      SaturatingSub(a.minerals, b.minerals),
      SaturatingSub(a.gas, b.gas),
      SaturatingSub(a.energy, b.energy))
  }

  /** `impl AddAssign` (by value and by reference): overwrites the three fields of `self`. */
  function AddAssign(self: Resources, other: Resources): (r: Resources)
    ensures r == Add(self, other)
  {
    self.(minerals := SaturatingAdd(self.minerals, other.minerals))
        .(gas := SaturatingAdd(self.gas, other.gas))
        .(energy := SaturatingAdd(self.energy, other.energy))
  }

  /** `impl SubAssign` (by value and by reference): overwrites the three fields of `self`. */
  function SubAssign(self: Resources, other: Resources): (r: Resources)
    ensures r == Sub(self, other)
  {
    self.(minerals := SaturatingSub(self.minerals, other.minerals))
        .(gas := SaturatingSub(self.gas, other.gas))
        .(energy := SaturatingSub(self.energy, other.energy))
  }

  /** Per-axis minimum with a capacity, the `capped_at` that `Planet::produce_resources` calls. */
  function CappedAt(self: Resources, cap: Resources): (r: Resources)
    ensures HasEnough(cap, r) && HasEnough(self, r)
    ensures r.minerals == self.minerals || r.minerals == cap.minerals
    ensures r.gas == self.gas || r.gas == cap.gas
    ensures r.energy == self.energy || r.energy == cap.energy
  {
    Resources(Min(self.minerals, cap.minerals), Min(self.gas, cap.gas), Min(self.energy, cap.energy))
  }

  /** Paying a cost and getting it back is lossless exactly when the cost was affordable: only then
    * does neither the subtraction nor the addition clamp. */
  lemma SubThenAddRestores(a: Resources, cost: Resources)
    ensures HasEnough(a, cost) <==> Add(Sub(a, cost), cost) == a
  {
    if !HasEnough(a, cost) {
      var r := Add(Sub(a, cost), cost);
      if a.minerals < cost.minerals {
        assert r.minerals == cost.minerals;
      } else if a.gas < cost.gas {
        assert r.gas == cost.gas;
      } else {
        assert r.energy == cost.energy;
      }
    }
  }

  /** The default, all-zero value is affordable from any balance. */
  lemma EverythingHasEnoughOfZero(a: Resources)
    ensures HasEnough(a, Zero)
    ensures Add(a, Zero) == a && Sub(a, Zero) == a
  {
  }

  /** Adding never lowers a balance, and subtracting never raises one. */
  lemma AddSubMonotone(a: Resources, b: Resources)
    ensures HasEnough(Add(a, b), a) && HasEnough(Add(a, b), b)
    ensures HasEnough(a, Sub(a, b))
  {
  }

  /** Exact amounts, without the `u32` ceiling: what a sum of `Resources` would be in unbounded
    * integers. */
  datatype Amount = Amount(minerals: nat, gas: nat, energy: nat)

  const NoAmount := Amount(0, 0, 0)

  function Exact(r: Resources): Amount {
    Amount(r.minerals, r.gas, r.energy)
  }

  function Plus(a: Amount, b: Amount): Amount {
    Amount(a.minerals + b.minerals, a.gas + b.gas, a.energy + b.energy)
  }

  /** Every axis of `a`, cut at `u32::MAX`. */
  function Clamped(a: Amount): Resources {
    Resources(Min(a.minerals, U32_MAX), Min(a.gas, U32_MAX), Min(a.energy, U32_MAX))
  }

  /** Saturating accumulation loses only the excess: adding `b` with `+=` to a clamped exact sum
    * gives the clamped exact sum that includes `b`. So a chain of `+=` from zero is the true
    * total, cut at `u32::MAX`. */
  lemma AccumulateClamped(a: Amount, b: Resources)
    ensures AddAssign(Clamped(a), b) == Clamped(Plus(a, Exact(b)))
  {
  }
}
