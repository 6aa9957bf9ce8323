/** Go's 64-bit integers, written out where the source depends on their width. */
module GoInts {

  const MinInt64: int := -0x8000_0000_0000_0000
  const MaxInt64: int := 0x7fff_ffff_ffff_ffff
  const MaxUint64: int := 0xffff_ffff_ffff_ffff

  predicate IsInt64(x: int)
  {
    MinInt64 <= x <= MaxInt64
  }

  /** The `int64` a Go addition or subtraction yields: the exact result, wrapped around modulo 2^64. */
  function Wrap64(x: int): (r: int)
    ensures IsInt64(r)
    ensures IsInt64(x) ==> r == x
    ensures (x - r) % 0x1_0000_0000_0000_0000 == 0
  {
    (x - MinInt64) % 0x1_0000_0000_0000_0000 + MinInt64
  }
}
