/** Small shared vocabulary: optional values, minima, and machine-word limits. */
module Prelude {

  datatype Option<+T> = None | Some(value: T)

  /** One past the largest `usize` and `u64` (both 64 bits wide here). */
  const TWO_64: nat := 0x1_0000_0000_0000_0000
  const USIZE_MAX: nat := TWO_64 - 1
  const TWO_32: nat := 0x1_0000_0000

  function Min(a: nat, b: nat): nat {
    if a <= b then a else b
  }

  function Max(a: nat, b: nat): nat {
    if a >= b then a else b
  }

  /** A sum that stops at the largest word. */
  function SaturatingAdd(a: nat, b: nat): nat {
    Min(a + b, USIZE_MAX)
  }

  /** A sum and a difference that come round. */
  function WrappingAdd(a: nat, b: nat): nat
    requires a < TWO_64 && b < TWO_64
  {
    if a + b < TWO_64 then a + b else a + b - TWO_64
  }

  function WrappingSub(a: nat, b: nat): nat
    requires a < TWO_64 && b < TWO_64
  {
    if b <= a then a - b else a + TWO_64 - b
  }

  function Bit(b: bool): nat {
    if b then 1 else 0
  }
}
