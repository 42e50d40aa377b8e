/** Small value types shared by the sound manager model. */
module Common {

  datatype Option<T> = None | Some(value: T)

  /** The number of values of the source's 32-bit `uint`. */
  const UINT32_MOD: nat := 0x1_0000_0000

  /** Reduces an exact result to what a 32-bit unsigned `uint` holds. */
  function Wrap32(x: nat): (r: nat)
    ensures r < UINT32_MOD
    ensures x < UINT32_MOD ==> r == x
    ensures x >= UINT32_MOD ==> r < x
  {
    x % UINT32_MOD
  }
}
