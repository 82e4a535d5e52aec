/** Failure-carrying results, machine-integer bounds and small arithmetic facts. */
module Prelude {

  datatype Option<+T> = None | Some(value: T)

  datatype Result<+T, +E> = Ok(value: T) | Err(error: E) {
    predicate IsFailure() { Err? }

    function PropagateFailure<U>(): Result<U, E>
      requires Err?
    {
      Err(error)
    }

    function Extract(): T
      requires Ok?
    {
      value
    }
  }

  const U64 := 0x1_0000_0000_0000_0000
  const U128 := 0x1_0000_0000_0000_0000_0000_0000_0000_0000
  const I64 := 0x8000_0000_0000_0000

  /** Equal as 64-bit numbers. */
  predicate Same64(a: int, b: int) {
    (a - b) % U64 == 0
  }

  lemma Same64Add(a: int, b: int, c: int, d: int)
    requires Same64(a, b) && Same64(c, d)
    ensures Same64(a + c, b + d)
  {}

  /** A product that may stand on either side of an inequality. */
  lemma MulMono(x: nat, y: nat, z: nat)
    requires x <= y
    ensures x * z <= y * z
    ensures z * x <= z * y
  {}

  predicate Distinct<T(==)>(s: seq<T>) {
    forall i, j :: 0 <= i < j < |s| ==> s[i] != s[j]
  }
}
