/** The 32-bit numbers of the source and the conversions between them. */
module Numbers {

  const UINT_SIZE := 0x1_0000_0000
  const INT_SIZE := 0x8000_0000

  type Uint32 = x: int | 0 <= x < UINT_SIZE
  type Int32 = x: int | -INT_SIZE <= x < INT_SIZE

  function ToUint(n: Int32): (u: Uint32)
    ensures (u - n) % UINT_SIZE == 0
  {
    if n < 0 then n + UINT_SIZE else n
  }

  function ToInt(n: Uint32): (i: Int32)
    ensures (i - n) % UINT_SIZE == 0
  {
    if n < INT_SIZE then n else n - UINT_SIZE
  }
}
