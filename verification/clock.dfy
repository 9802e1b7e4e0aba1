/**
 The firmware's notion of time. `millis()` returns an `unsigned long`, which is 32 bits
 wide on the ESP32: it counts milliseconds since boot modulo 2^32 and rolls over about every
 49.7 days. Subtraction of two such values is also taken modulo 2^32, which is what makes
 "elapsed time" computations robust across a rollover.
 */
module Clock {

  /** 2^32: the number of distinct `unsigned long` values. */
  const Modulus: nat := 0x1_0000_0000

  /** A 32-bit unsigned value. */
  type U32 = x: int | 0 <= x < Modulus

  /** `millis()` read at true time `t` (milliseconds since boot, unbounded). */
  function Millis(t: nat): (m: U32)
    ensures t < Modulus ==> m == t
    ensures (t - m) % Modulus == 0
  {
    t % Modulus
  }

  /** The counter value `d` milliseconds after reading `a`, with wrap-around. */
  function Advance(a: U32, d: nat): (r: U32)
    ensures a + d < Modulus ==> r == a + d
    ensures Modulus <= a + d < 2 * Modulus ==> r == a + d - Modulus
  {
    (a + d) % Modulus
  }

  /**
   The unsigned difference `now - since` of two `unsigned long` values: the forward
   distance from `since` to `now` around the 32-bit circle.
   */
  function Elapsed(now: U32, since: U32): (d: U32)
    ensures Advance(since, d) == now
    ensures since <= now ==> d == now - since
    ensures now < since ==> d == Modulus - since + now
  {
    (now - since) % Modulus
  }

  /** Reading the counter `d` later and subtracting recovers `d`, as long as `d` fits in 32 bits. */
  lemma ElapsedAfterAdvance(since: U32, d: U32)
    ensures Elapsed(Advance(since, d), since) == d
  {
    if since + d >= Modulus {
      assert Advance(since, d) == since + d - Modulus;
    }
  }

  /** Sampling true time `t` and then `t + d` moves the counter by exactly `d` (mod 2^32). */
  lemma MillisAdvances(t: nat, d: nat)
    ensures Millis(t + d) == Advance(Millis(t), d)
  {
    var q := t / Modulus;
    var m := t % Modulus;
    assert t == q * Modulus + m;
    ModShift(q, m + d);
  }

  /** Adding whole multiples of the modulus does not change a residue. */
  lemma {:induction false} ModShift(q: nat, x: nat)
    ensures (q * Modulus + x) % Modulus == x % Modulus
  {
    if q > 0 {
      ModShift(q - 1, x);
      assert q * Modulus + x == (q - 1) * Modulus + (x + Modulus);
      ModShift(q - 1, x + Modulus);
    }
  }

  /**
   Rollover safety of unsigned subtraction: for two samples of `millis()` less than 2^32 ms
   apart in true time, the unsigned difference is the true elapsed time, whether or not the
   counter wrapped in between.
   */
  lemma ElapsedTracksTrueTime(t0: nat, t1: nat)
    requires t0 <= t1 < t0 + Modulus
    ensures Elapsed(Millis(t1), Millis(t0)) == t1 - t0
  {
    MillisAdvances(t0, t1 - t0);
    ElapsedAfterAdvance(Millis(t0), t1 - t0);
  }
}
