/** What several of the models share: an optional value, and u64 arithmetic that saturates. */
module Basics {
  datatype Option<+T> = None | Some(value: T)

  const U64_MAX: nat := 0xffff_ffff_ffff_ffff

  function Min(a: nat, b: nat): nat {
    if a <= b then a else b
  }

  function Max(a: nat, b: nat): nat {
    if a <= b then b else a
  }

  /** `u64::saturating_add`. */
  function SatAdd(a: nat, b: nat): (r: nat)
    ensures a + b < 0x1_0000_0000_0000_0000 ==> r == a + b
    ensures a + b >= 0x1_0000_0000_0000_0000 ==> r == 0xffff_ffff_ffff_ffff
  {
    Min(a + b, U64_MAX)
  }
}
