/**
 Per-node liveness: a node counts as connected while the unsigned time since its last
 bus message is strictly below the bus timeout (`CAN_TIMEOUT`).
 */
module Staleness {
  import opened Clock

  /** `(now - last) < timeout` on `unsigned long` operands. */
  predicate IsConnected(now: U32, last: U32, timeout: U32) {
    Elapsed(now, last) < timeout
  }

  /** Connected exactly when `now` lies fewer than `timeout` counter ticks after `last`. */
  lemma ConnectedIffHeardWithin(now: U32, last: U32, timeout: U32)
    ensures IsConnected(now, last, timeout) <==> exists d: U32 :: d < timeout && Advance(last, d) == now
  {
    if IsConnected(now, last, timeout) {
      var d := Elapsed(now, last);
      assert d < timeout && Advance(last, d) == now;
    }
    if exists d: U32 :: d < timeout && Advance(last, d) == now {
      var d: U32 :| d < timeout && Advance(last, d) == now;
      ElapsedAfterAdvance(last, d);
    }
  }

  /** The comparison is strict: one tick before the timeout the node is connected, at the timeout it is not. */
  lemma TimeoutBoundary(last: U32, timeout: U32)
    requires 0 < timeout
    ensures IsConnected(Advance(last, timeout - 1), last, timeout)
    ensures !IsConnected(Advance(last, timeout), last, timeout)
  {
    ElapsedAfterAdvance(last, timeout - 1);
    ElapsedAfterAdvance(last, timeout);
  }

  /**
   Connectivity judged from two `millis()` samples agrees with true elapsed time whenever the
   samples are less than 2^32 ms apart, even if the counter rolled over in between.
   */
  lemma ConnectedAcrossRollover(tLast: nat, tNow: nat, timeout: U32)
    requires tLast <= tNow < tLast + Modulus
    ensures IsConnected(Millis(tNow), Millis(tLast), timeout) <==> tNow - tLast < timeout
  {
    ElapsedTracksTrueTime(tLast, tNow);
  }

  /**
   The limit of that guarantee: after exactly 2^32 ms of silence the counter has returned to the
   same value, so a node silent that long is reported connected again.
   */
  lemma SilenceAliasesAfterFullWrap(tLast: nat, timeout: U32)
    requires 0 < timeout
    ensures IsConnected(Millis(tLast + Modulus), Millis(tLast), timeout)
  {
    MillisAdvances(tLast, Modulus);
  }
}
