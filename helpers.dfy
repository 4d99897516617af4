/** The unsigned-integer argument validators: `assert_uint` in helpers.py and
    the `uint` argument type nested in the generator's constructor. */
module Helpers {
  import opened Wrappers

  /** The exception both validators raise. */
  datatype ValueError = ValueError

  /** Python truthiness of an optional integer bound: `None` and `0` are false. */
  predicate Truthy(bound: Option<int>) {
    bound.Some? && bound.value != 0
  }

  /** Whether `x` lies inside the bounds that are in force. A bound that is
      not truthy is not in force. */
  predicate WithinBounds(x: int, lowerBound: Option<int>, upperBound: Option<int>) {
    && 0 <= x
    && (Truthy(lowerBound) ==> lowerBound.value <= x)
    && (Truthy(upperBound) ==> x <= upperBound.value)
  }

  /** `assert_uint`: one combined test, then the value itself. */
  function AssertUint(x: int, lowerBound: Option<int>, upperBound: Option<int>): (r: Result<int, ValueError>)
    ensures r.Ok? <==> WithinBounds(x, lowerBound, upperBound)
    ensures r.Ok? ==> r.value == x
  {
    if x < 0 || (Truthy(lowerBound) && x < lowerBound.value) || (Truthy(upperBound) && x > upperBound.value) then
      Err(ValueError)
    else
      Ok(x)
  }

  /** The nested `uint`: the same rule written as a chain of separate tests. */
  function Uint(x: int, lowerBound: Option<int>, upperBound: Option<int>): (r: Result<int, ValueError>)
    ensures r == AssertUint(x, lowerBound, upperBound)
  {
    if x < 0 then Err(ValueError)
    else if Truthy(lowerBound) && x < lowerBound.value then Err(ValueError)
    else if Truthy(upperBound) && x > upperBound.value then Err(ValueError)
    else Ok(x)
  }

  /** Every negative integer is rejected, whatever the bounds. */
  lemma NegativeRejected(x: int, lowerBound: Option<int>, upperBound: Option<int>)
    requires x < 0
    ensures AssertUint(x, lowerBound, upperBound) == Err(ValueError)
  {
  }

  /** A bound of zero is falsy, so it is ignored: `upper_bound=0` lets any
      non-negative value through, and so does `lower_bound=0`. */
  lemma ZeroBoundIgnored(x: int)
    requires 0 <= x
    ensures AssertUint(x, Some(0), Some(0)) == Ok(x)
    ensures AssertUint(x, None, None) == Ok(x)
  {
  }
}
