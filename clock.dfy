/** Wraparound-safe time arithmetic over the 32-bit millisecond counter. */
module Clock {

  /** The width of `uint32_t` and of `unsigned long` on 32-bit Arduino targets. */
  const TWO_32: int := 0x1_0000_0000
  const ULONG_MAX: int := 0xFFFF_FFFF

  type u32 = x: int | 0 <= x < 0x1_0000_0000

  /** The hold interval and the repeat window, in clock ticks. */
  const HOLD_INTERVAL: u32 := 1000
  const REPEAT_INTERVAL: u32 := 500

  /** `elapsed(startMillis, currentMillis)`: the ticks from `start` to `current`, counting across one
      wrap of the counter. */
  function Elapsed(start: u32, current: u32): u32
  {
    if current >= start then current - start else (ULONG_MAX - start) + current + 1
  }

  /** Both branches of `elapsed` are the difference modulo 2^32, which is zero only for equal ticks. */
  lemma ElapsedModular(start: u32, current: u32)
    ensures Elapsed(start, current) == (current - start) % TWO_32
    ensures Elapsed(start, current) == 0 <==> start == current
  {
  }

  /** The C++ `a - b` on two `unsigned long` values: the difference, plus 2^32 when it would be negative. */
  function Sub(a: u32, b: u32): u32
  {
    if a >= b then a - b else a - b + TWO_32
  }

  /** Unsigned subtraction is subtraction modulo 2^32. */
  lemma SubModular(a: u32, b: u32)
    ensures Sub(a, b) == (a - b) % TWO_32
  {
  }

  /** The plain unsigned subtraction of the sequence-free variant measures the same duration as
      `elapsed`. */
  lemma ElapsedIsSub(start: u32, current: u32)
    ensures Elapsed(start, current) == Sub(current, start)
  {
  }

  /** Advancing the counter by `d` ticks (wrapping) and measuring from the start gives back `d`. */
  lemma ElapsedAfterAdvance(start: u32, d: u32)
    ensures Elapsed(start, (start + d) % TWO_32) == d
  {
    var c := (start + d) % TWO_32;
    if start + d < TWO_32 {
      assert c == start + d;
    } else {
      assert c == start + d - TWO_32;
    }
  }

  /** Measuring across the wrap: from 16 ticks before the wrap to 16 ticks after it is 32 ticks. */
  lemma ElapsedAcrossWrap()
    ensures Elapsed(0xFFFF_FFF0, 0x10) == 0x20
  {
  }
}
