/** Small types shared by the whole project. */
module Common {

  datatype Option<+T> = None | Some(value: T)

  /** One byte of memory. */
  type byte = b: int | 0 <= b < 256

  /** Unsigned 32-bit machine words; arithmetic on them is reduced explicitly. */
  const WORD: int := 0x1_0000_0000
  type u32 = w: int | 0 <= w < 0x1_0000_0000

  const PAGE_SIZE: nat := 4096

  function Min(a: nat, b: nat): (n: nat)
    ensures n <= a && n <= b && (n == a || n == b)
  {
    if a < b then a else b
  }

  function Max(a: nat, b: nat): (n: nat)
    ensures n >= a && n >= b && (n == a || n == b)
  {
    if a > b then a else b
  }
}
