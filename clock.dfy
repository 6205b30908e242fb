/**
 * The ESP32 millisecond clock. `millis()` returns an `unsigned long`, which is
 * 32 bits wide on that target, so it wraps to 0 about every 49.7 days, and the
 * difference of two readings is taken modulo 2^32.
 */
module Clock {

  /** Number of distinct values of a 32-bit `unsigned long`. */
  const WRAP: int := 0x1_0000_0000

  /** A reading of `millis()`. */
  type Millis = x: int | 0 <= x < WRAP

  /**
   * `now - since` on `unsigned long`: the milliseconds that separate two
   * readings, correct across one rollover of the counter.
   */
  function Elapsed(now: Millis, since: Millis): (d: Millis)
    ensures (since + d) % WRAP == now
    ensures since <= now ==> d == now - since
    ensures now < since ==> d == now + (WRAP - since)
  {
    (now - since) % WRAP
  }

  /** The reading of the counter `d` milliseconds after it read `t`. */
  function Advance(t: Millis, d: nat): (r: Millis)
    ensures (r - t - d) % WRAP == 0
  {
    (t + d) % WRAP
  }

  /**
   * The modular difference recovers every delay shorter than a full turn of
   * the counter, whether or not the counter wrapped in between.
   */
  lemma ElapsedAdvance(t: Millis, d: nat)
    requires d < WRAP
    ensures Elapsed(Advance(t, d), t) == d
  {
    if t + d < WRAP {
      assert Advance(t, d) == t + d;
    } else {
      assert Advance(t, d) == t + d - WRAP;
    }
  }

  /** `Elapsed` is the only 32-bit value that carries `since` to `now`. */
  lemma ElapsedUnique(now: Millis, since: Millis, d: Millis)
    requires (since + d) % WRAP == now
    ensures Elapsed(now, since) == d
  {
    if since + d < WRAP {
      assert since + d == now;
    } else {
      assert since + d - WRAP == now;
    }
  }
}
