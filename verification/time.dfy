/**
 Millisecond timestamps as the engine stores them: C++ `uint32_t` values.

 The engine reads its clock as the number of milliseconds since the epoch
 truncated to 32 bits, and measures elapsed time with an unsigned 32-bit
 subtraction, which wraps around modulo 2^32. Both are written out here.
 */
module Time {

  const TWO_TO_THE_32: int := 0x1_0000_0000

  /** A value of C++ type `uint32_t`. */
  type u32 = x: int | 0 <= x < TWO_TO_THE_32

  /** The clock reading `millis()` returns for a true millisecond count. */
  function Millis(clockMs: nat): u32 {
    clockMs % TWO_TO_THE_32
  }

  /**
   `now - since` evaluated in `uint32_t` arithmetic: the true difference when
   the clock has not wrapped since `since`, else the difference plus 2^32.
   */
  function Elapsed(now: u32, since: u32): u32 {
    if since <= now then now - since else now + TWO_TO_THE_32 - since
  }

  /**
   `Elapsed` is subtraction modulo 2^32: it is the residue of the
   mathematical difference, and adding it back to `since` wraps to `now`.
   */
  lemma ElapsedIsModularDifference(now: u32, since: u32)
    ensures Elapsed(now, since) == (now - since) % TWO_TO_THE_32
    ensures (since + Elapsed(now, since)) % TWO_TO_THE_32 == now
  {
  }

  /**
   Wrap-around is harmless: as long as fewer than 2^32 milliseconds pass
   between two clock readings, the 32-bit difference of the truncated
   readings is the true elapsed time, even when the counter wrapped in between.
   */
  lemma ElapsedAcrossWrap(earlier: nat, later: nat)
    requires earlier <= later < earlier + TWO_TO_THE_32
    ensures Elapsed(Millis(later), Millis(earlier)) == later - earlier
  {
  }
}
