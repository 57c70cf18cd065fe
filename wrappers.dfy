/** Shared value types: optional values and unsigned machine integers. */
module Wrappers {
  datatype Option<T> = None | Some(value: T)

  /** A Rust `u8`, used for every byte on the wire and every key byte. */
  type byte = x: int | 0 <= x < 0x100

  /** A Rust `u16`. */
  type u16 = x: int | 0 <= x < 0x1_0000

  /** A Rust `u32`. */
  type u32 = x: int | 0 <= x < 0x1_0000_0000

  /** A Rust `u64`. */
  type u64 = x: int | 0 <= x < 0x1_0000_0000_0000_0000

  /** `u64::saturating_sub`: the difference, or 0 where it would go below zero. */
  function SaturatingSub(a: u64, b: u64): (r: u64)
    ensures r <= a
    ensures a >= b ==> r + b == a
    ensures a < b ==> r == 0
  {
    if a >= b then a - b else 0
  }
}

/** Whether a computation returns or panics; used where Rust code can index out of bounds. */
module Outcomes {
  datatype Outcome<T> = Returns(value: T) | Panics
}
