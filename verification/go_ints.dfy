/** Go's fixed-width integers, written out over Dafny's unbounded `int`. */
module GoInts {

  const TwoTo63: int := 0x8000_0000_0000_0000
  const TwoTo64: int := 0x1_0000_0000_0000_0000

  /** Go `int64`. */
  type Int64 = x: int | -0x8000_0000_0000_0000 <= x < 0x8000_0000_0000_0000

  /** Go `uint64`. */
  type Uint64 = x: int | 0 <= x < 0x1_0000_0000_0000_0000

  /** Two's-complement reduction to `int64`: the result of Go's wrapping `int64`
      arithmetic and of the conversion `int64(x)` for any integer `x`. */
  function WrapInt64(x: int): (r: Int64)
    ensures (r - x) % TwoTo64 == 0
    ensures -TwoTo63 <= x < TwoTo63 ==> r == x
    ensures TwoTo63 <= x < TwoTo64 ==> r == x - TwoTo64
  {
    var m := x % TwoTo64;
    if m >= TwoTo63 then m - TwoTo64 else m
  }
}
