/**
 The reconnect backoff of `TuyaDevice._make_connection`: before every
 connection attempt the device waits `min(randrange(2 ** attempts), 300)`
 seconds. The random draw is the parameter `r`, any value the draw can
 produce: `0 <= r < 2 ** attempts`.
 */
module Backoff {

  /** Upper bound of one backoff wait, in seconds (five minutes). */
  const BACKOFF_TIME_UPPER_LIMIT: nat := 300

  function Pow2(n: nat): (p: nat)
    ensures p >= 1
  {
    if n == 0 then 1 else 2 * Pow2(n - 1)
  }

  /** The wait before an attempt, given the failed-attempt count and the random draw `r`. */
  function Delay(attempts: nat, r: nat): (d: nat)
    requires r < Pow2(attempts)
    ensures d <= BACKOFF_TIME_UPPER_LIMIT
    ensures d < Pow2(attempts)
    ensures d <= r
    ensures d == r || d == BACKOFF_TIME_UPPER_LIMIT
    ensures attempts == 0 ==> d == 0
  {
    if r <= BACKOFF_TIME_UPPER_LIMIT then r else BACKOFF_TIME_UPPER_LIMIT
  }

  lemma {:induction false} Pow2Monotone(m: nat, n: nat)
    requires m <= n
    ensures Pow2(m) <= Pow2(n)
    decreases n
  {
    if m < n {
      Pow2Monotone(m, n - 1);
    }
  }

  /**
   The cap only bites once the device has failed at least nine times in a
   row: up to eight failures every draw is used as it is.
   */
  lemma CapUnreachableBeforeNineFailures(attempts: nat, r: nat)
    requires attempts <= 8 && r < Pow2(attempts)
    ensures Delay(attempts, r) == r
  {
    Pow2Monotone(attempts, 8);
    assert Pow2(8) == 256;
  }

  /** From nine failures on, a draw can hit the five-minute cap. */
  lemma CapReachedAfterNineFailures(attempts: nat)
    requires attempts >= 9
    ensures BACKOFF_TIME_UPPER_LIMIT < Pow2(attempts)
    ensures Delay(attempts, BACKOFF_TIME_UPPER_LIMIT) == BACKOFF_TIME_UPPER_LIMIT
    ensures forall r :: BACKOFF_TIME_UPPER_LIMIT <= r < Pow2(attempts) ==> Delay(attempts, r) == BACKOFF_TIME_UPPER_LIMIT
  {
    Pow2Monotone(9, attempts);
    assert Pow2(9) == 512;
  }
}
