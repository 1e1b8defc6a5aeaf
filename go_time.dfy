/** Go's `time.Duration` arithmetic: nanoseconds in a signed 64-bit
    integer, where a product wraps around and `time.Time.Sub` saturates. */
module GoTime {
  const SecondNs := 1000000000
  const MaxInt64 := 0x7fff_ffff_ffff_ffff
  const MinInt64 := -0x8000_0000_0000_0000

  /** Two's-complement wrap-around of a 64-bit product. */
  function Wrap64(x: int): (r: int)
    ensures MinInt64 <= r <= MaxInt64
    ensures (r - x) % 0x1_0000_0000_0000_0000 == 0
    ensures MinInt64 <= x <= MaxInt64 ==> r == x
  {
    (x - MinInt64) % 0x1_0000_0000_0000_0000 + MinInt64
  }

  /** `time.Time.Sub`: a difference outside the 64-bit range becomes the
      nearest bound. */
  function Saturate64(x: int): (r: int)
    ensures MinInt64 <= r <= MaxInt64
    ensures MinInt64 <= x <= MaxInt64 ==> r == x
    ensures x > MaxInt64 ==> r == MaxInt64
    ensures x < MinInt64 ==> r == MinInt64
  {
    if x > MaxInt64 then MaxInt64 else if x < MinInt64 then MinInt64 else x
  }
}
