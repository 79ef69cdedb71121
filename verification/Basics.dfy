/** Machine integers, optional values and fallible results shared by every component. */
module Basics {

  const U64_MAX: int := 0xFFFF_FFFF_FFFF_FFFF
  const U32_MAX: int := 0xFFFF_FFFF

  type u64 = n: int | 0 <= n <= U64_MAX
  type u32 = n: int | 0 <= n <= U32_MAX

  datatype Option<+T> = None | Some(value: T)

  /** Why an operation gave up. The messages of the original errors are not modelled. */
  datatype Fault =
    | Transport
    | Malformed
    | Missing(number: u64)
    | LinkageMismatch(number: u64)
    | EmptyWindow
    | TipMoved

  datatype Result<+T> = Ok(value: T) | Err(fault: Fault)

  /** `saturating_add(1)` on a 64-bit unsigned integer. */
  function SatSucc(n: u64): u64 {
    if n == U64_MAX then U64_MAX else n + 1
  }

  /** `saturating_sub` on 64-bit unsigned integers. */
  function SatSub(a: u64, b: u64): u64 {
    if a < b then 0 else a - b
  }

  function Min(a: int, b: int): int {
    if a <= b then a else b
  }

  function Max(a: int, b: int): int {
    if a >= b then a else b
  }

  lemma {:induction false} SubsetSize<T>(a: set<T>, b: set<T>)
    requires a <= b
    ensures |a| <= |b|
  {
    assert b == a + (b - a);
  }

  lemma {:induction false} MulMonotone(a: nat, b: nat, p: nat)
    ensures a <= b ==> a * p <= b * p
  {
  }

  lemma {:induction false} QuotientOrder(q: nat, r: nat, q': nat, r': nat, p: nat)
    requires q * p + r <= q' * p + r' && r' < p
    ensures q <= q'
  {
    if q' < q {
      MulMonotone(q' + 1, q, p);
    }
  }
}
