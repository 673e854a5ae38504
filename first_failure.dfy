/** Scanning a list for the first element a check rejects or a predicate picks: the shape of every
  * validation loop that returns the first error it meets (`for x in xs { check(x)?; }`) and of
  * `iter().position` and `iter().find`. */
module FirstFailure {
  import opened Wrappers

  /** The error of the first element of `xs` that `check` rejects, if any. */
  function FirstError<T, E>(xs: seq<T>, check: T -> Result<Unit, E>): (r: Option<E>)
    ensures r.None? <==> forall k :: 0 <= k < |xs| ==> check(xs[k]).Ok?
    ensures r.Some? ==>
      exists k :: 0 <= k < |xs| && (forall j :: 0 <= j < k ==> check(xs[j]).Ok?) && check(xs[k]) == Err(r.value)
  {
    if xs == [] then None
    else if check(xs[0]).Err? then Some(check(xs[0]).error)
    else
      var r := FirstError(xs[1..], check);
      assert r.Some? ==>
        exists k :: 1 <= k < |xs| && (forall j :: 0 <= j < k ==> check(xs[j]).Ok?) && check(xs[k]) == Err(r.value)
      by {
        if r.Some? {
          var k :| 0 <= k < |xs[1..]| && (forall j :: 0 <= j < k ==> check(xs[1..][j]).Ok?)
            && check(xs[1..][k]) == Err(r.value);
          assert xs[k + 1] == xs[1..][k];
          assert forall j :: 1 <= j < k + 1 ==> xs[j] == xs[1..][j - 1];
        }
      }
      r
  }

  /** The position of the first element of `xs` that satisfies `p`, if any: `iter().position(p)`,
    * and the search behind `iter().find(p)`. */
  function FirstIndex<T>(xs: seq<T>, p: T -> bool): (r: Option<nat>)
    ensures r.None? <==> forall k :: 0 <= k < |xs| ==> !p(xs[k])
    ensures r.Some? ==> r.value < |xs| && p(xs[r.value]) && forall j :: 0 <= j < r.value ==> !p(xs[j])
  {
    if xs == [] then None
    else if p(xs[0]) then Some(0)
    else
      var r := FirstIndex(xs[1..], p);
      if r.None? then None
      else
        assert forall j :: 1 <= j < r.value + 1 ==> xs[j] == xs[1..][j - 1];
        Some(r.value + 1)
  }
}
