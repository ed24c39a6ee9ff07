/** The interval timer (src/multitasker.h), over the 32-bit unsigned
    millisecond counter that wraps around. */
module MultiTasking {

  const UINT32_MODULUS: int := 0x1_0000_0000

  /** unsigned long on the target: 32 bits. */
  newtype uint32 = x: int | 0 <= x < 0x1_0000_0000

  /** currentMillis - lastMillis in unsigned 32-bit arithmetic: the time that
      must be added to `last` to reach `now` on the wrapping counter. */
  function Elapsed(now: uint32, last: uint32): (d: uint32)
    ensures (last as int + d as int) % UINT32_MODULUS == now as int
    ensures last <= now ==> d == now - last
  {
    ((now as int - last as int) % UINT32_MODULUS) as uint32
  }

  /** When the counter advanced by fewer than 2^32 ms since `last`, the
      elapsed time is that advance, whether or not the counter wrapped. */
  lemma ElapsedAcrossWrap(last: uint32, advance: nat)
    requires advance < UINT32_MODULUS
    ensures Elapsed(((last as int + advance) % UINT32_MODULUS) as uint32, last) as int == advance
  {
  }

  /** class multiTasker: fires when at least `interval` ms passed since it
      last fired. */
  class MultiTasker {
    var lastMillis: uint32
    var interval: uint32

    constructor (interval: uint32)
      ensures this.interval == interval && lastMillis == 0
    {
      this.interval := interval;
      lastMillis := 0;
    }

    /** isTime(), with the reading of millis() as `currentMillis`: true when
        the wrapping difference reaches the interval, and then the reference
        moves to now; on false the reference is left alone. */
    method IsTime(currentMillis: uint32) returns (fired: bool)
      modifies this`lastMillis
      ensures fired <==> Elapsed(currentMillis, old(lastMillis)) >= interval
      ensures lastMillis == if fired then currentMillis else old(lastMillis)
    {
      if Elapsed(currentMillis, lastMillis) >= interval {
        lastMillis := currentMillis;
        fired := true;
      } else {
        fired := false;
      }
    }
  }

  /** Two calls of isTime() at the same instant on a fresh timer: the first
      fires once `now` reaches the interval; with a zero interval both fire,
      and otherwise a call right after one that fired does not fire. */
  method TwoCallsAtOneInstant(interval: uint32, now: uint32) returns (first: bool, second: bool)
    ensures first <==> now >= interval
    ensures interval == 0 ==> first && second
    ensures first && interval > 0 ==> !second
  {
    var tasker := new MultiTasker(interval);
    first := tasker.IsTime(now);
    second := tasker.IsTime(now);
  }
}
