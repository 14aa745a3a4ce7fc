/**
 * The wrap-aware elapsed-time helper of utils.cpp, in 32-bit unsigned
 * (`unsigned long` on AVR) arithmetic.
 */
module Utils {
  import opened Geometry

  const TWO_POW_32: int := 0x1_0000_0000
  const ULONG_MAX: uint32 := 0xFFFF_FFFF

  /** `a - b` in 32-bit unsigned arithmetic. */
  function Sub32(a: uint32, b: uint32): uint32 {
    (a - b) % TWO_POW_32
  }

  /** `a + b` in 32-bit unsigned arithmetic. */
  function Add32(a: uint32, b: uint32): uint32 {
    (a + b) % TWO_POW_32
  }

  /**
   * `getTimeDifference(time1, time2)`: the time from `time1` to the later
   * clock reading `time2`. Without a wrap of the clock it is the plain
   * difference; across a wrap it is `4294967295 - time1 + time2`, one less
   * than the elapsed time modulo 2^32, and neither unsigned operation on
   * that path wraps.
   */
  function GetTimeDifference(time1: uint32, time2: uint32): (r: uint32)
    ensures time1 <= time2 ==> r == time2 - time1
    ensures time1 > time2 ==> r == time2 - time1 + TWO_POW_32 - 1
    ensures time1 > time2 ==> Sub32(ULONG_MAX, time1) == ULONG_MAX - time1
    ensures time1 > time2 ==> r <= ULONG_MAX - 1
    ensures time1 <= time2 ==> r == (time2 - time1) % TWO_POW_32
    ensures time1 > time2 ==> (r + 1) % TWO_POW_32 == (time2 - time1) % TWO_POW_32
    ensures time1 == time2 ==> r == 0
  {
    if time1 > time2 then
      Add32(Sub32(ULONG_MAX, time1), time2)
    else
      Sub32(time2, time1)
  }
}
