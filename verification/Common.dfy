/** Small value types shared by every part of the model. */
module Common {

  datatype Option<+T> = None | Some(value: T)

  datatype Result<+T, +E> = Ok(value: T) | Err(error: E)

  const MAX_U32: int := 0xFFFF_FFFF
  const MAX_U64: int := 0xFFFF_FFFF_FFFF_FFFF

  type U32 = x: int | 0 <= x <= MAX_U32 witness 0
  type U64 = x: int | 0 <= x <= MAX_U64 witness 0

  function Min(a: int, b: int): int {
    if a <= b then a else b
  }

  function Max(a: int, b: int): int {
    if a <= b then b else a
  }

  /** u64::saturating_add */
  function SatAdd(a: U64, b: U64): (r: U64) {
    Min(a + b, MAX_U64)
  }

  /** The members 0, ..., n - 1 of a committee of n. */
  function Below(n: nat): (s: set<nat>)
    ensures |s| == n
    ensures forall i: nat :: i in s <==> i < n
  {
    if n == 0 then {} else Below(n - 1) + {n - 1}
  }

  lemma {:induction false} SubsetSize<T>(a: set<T>, b: set<T>)
    requires a <= b
    ensures |a| <= |b|
  {
    if a != {} {
      var x :| x in a;
      SubsetSize(a - {x}, b - {x});
    }
  }

  /** Two sets whose sizes add up to more than their universe have a common element. */
  lemma Overlap<T>(a: set<T>, b: set<T>, universe: set<T>) returns (x: T)
    requires a <= universe && b <= universe
    requires |a| + |b| > |universe|
    ensures x in a && x in b
  {
    SubsetSize(a + b, universe);
    assert |a + b| == |a| + |b| - |a * b|;
    x :| x in a * b;
  }
}
