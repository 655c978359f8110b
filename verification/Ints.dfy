/** Machine integers of the Go source, and the Option type. */
module Ints {

  const TWO16: int := 0x1_0000
  const TWO32: int := 0x1_0000_0000
  const TWO63: int := 0x8000_0000_0000_0000
  const TWO64: int := 0x1_0000_0000_0000_0000

  type Byte = x: int | 0 <= x < 256
  type UInt16 = x: int | 0 <= x < TWO16
  type UInt64 = x: int | 0 <= x < TWO64
  type Int64 = x: int | -TWO63 <= x < TWO63

  /** Two's complement truncation to 64 bits, what int64 `+` and `-` do on overflow. */
  function Wrap64(x: int): Int64 {
    (x + TWO63) % TWO64 - TWO63
  }

  /** uint16 `-`. */
  function Sub16(a: UInt16, b: UInt16): UInt16 {
    (a - b) % TWO16
  }

  function Pow256(n: nat): nat {
    if n == 0 then 1 else 256 * Pow256(n - 1)
  }

  datatype Option<+T> = None | Some(value: T)

  /** A wrapped difference added back with wrap-around restores the minuend. */
  lemma WrapDeltaCancels(prev: Int64, ts: Int64)
    ensures Wrap64(prev + Wrap64(ts - prev)) == ts
  {
    var d := ts - prev;
    var q := (d + TWO63) / TWO64;
    assert Wrap64(d) == d - q * TWO64;
    assert prev + Wrap64(d) + TWO63 == ts + TWO63 + (-q) * TWO64;
    assert (ts + TWO63 + (-q) * TWO64) % TWO64 == (ts + TWO63) % TWO64;
  }
}
