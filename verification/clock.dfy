/** The Arduino millisecond clock as seen by the controller: `millis()` returns an
    `unsigned long`, so timestamps live in [0, 2^32) and every "time since" is an
    unsigned subtraction that wraps around. */
module Clock {

  /** Modulus of the 32-bit `unsigned long` counter. */
  const MOD: int := 0x1_0000_0000

  /** A value of `millis()` or of one of the stored timestamps. */
  type Millis = t: int | 0 <= t < MOD

  /** The clock reading `k` milliseconds after `t`, wrapping past 2^32 - 1 to 0. */
  function Advance(t: Millis, k: nat): Millis
  {
    (t + k) % MOD
  }

  /** `now - since` in `unsigned long` arithmetic: the number of milliseconds
      the clock has to advance from `since` to show `now`. */
  function Elapsed(now: Millis, since: Millis): (d: Millis)
    ensures now >= since ==> d == now - since
    ensures now < since ==> d == MOD - (since - now)
    ensures Advance(since, d) == now
  {
    (now - since) % MOD
  }

  /** Advancing by less than one full wrap and measuring back gives the advance:
      the elapsed time is exact across the 2^32 rollover. */
  lemma ElapsedAdvance(t: Millis, k: nat)
    requires k < MOD
    ensures Elapsed(Advance(t, k), t) == k
  {
    if t + k < MOD {
      assert Advance(t, k) == t + k;
    } else {
      assert Advance(t, k) == t + k - MOD;
    }
  }
}
