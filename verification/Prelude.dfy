/** Failure-compatible wrappers and machine-integer bounds shared by every module. */
module Prelude {

  datatype Option<+T> = None | Some(value: T)

  datatype Result<+T, +E> = Ok(value: T) | Err(error: E) {
    predicate IsFailure() {
      Err?
    }

    function PropagateFailure<U>(): Result<U, E>
      requires Err?
    {
      Err(error)
    }

    function Extract(): T
      requires Ok?
    {
      value
    }
  }

  const U64_MAX: nat := 0xFFFF_FFFF_FFFF_FFFF
  const U128_MAX: nat := 0xFFFF_FFFF_FFFF_FFFF_FFFF_FFFF_FFFF_FFFF

  type u64 = n: nat | n <= U64_MAX
  type u128 = n: nat | n <= U128_MAX

  function Min(a: nat, b: nat): nat {
    if a <= b then a else b
  }

  /** A requested page size, or the default, brought between one and the maximum. */
  function PageLimit(requested: Option<nat>, default: nat, max: nat): (r: nat)
    requires 1 <= max
    ensures 1 <= r <= max
    ensures requested.Some? && 1 <= requested.value <= max ==> r == requested.value
    ensures requested.Some? && requested.value > max ==> r == max
    ensures requested.Some? && requested.value == 0 ==> r == 1
    ensures requested.None? && 1 <= default <= max ==> r == default
  {
    var wanted := Min(if requested.Some? then requested.value else default, max);
    if wanted < 1 then 1 else wanted
  }
}
