/** Truncated exponential backoff (backoff.rs). Durations are milliseconds. */
module Backoff {
  import opened Wrappers

  const MAX_BACKOFF_SECS := 64

  function Pow2(n: nat): (r: nat)
    ensures r >= 1
  {
    if n == 0 then 1 else 2 * Pow2(n - 1)
  }

  // `2u64.checked_pow(attempts)`: the overflow case saturates.
  function BaseSecs(attempts: nat): nat {
    if attempts < 64 then Min(Pow2(attempts), MAX_BACKOFF_SECS) else MAX_BACKOFF_SECS
  }

  function DelayMillis(attempts: nat, jitterMs: nat): nat {
    Min(BaseSecs(attempts) * 1000 + jitterMs, MAX_BACKOFF_SECS * 1000)
  }

  function DelaySecs(attempts: nat, jitterMs: nat): nat {
    (DelayMillis(attempts, jitterMs) + 999) / 1000
  }

  lemma {:induction false} Pow2Least(n: nat)
    ensures n >= 6 ==> Pow2(n) >= 64
    decreases n
  {
    if n > 6 {
      Pow2Least(n - 1);
    } else {
      assert Pow2(5) == 32;
    }
  }

  // A retry is always scheduled strictly in the future, never beyond the cap,
  // and the base doubles until it reaches the cap.
  lemma {:induction false} DelayBounds(attempts: nat, jitterMs: nat)
    requires attempts >= 1
    ensures 2 <= DelaySecs(attempts, jitterMs) <= MAX_BACKOFF_SECS
    ensures attempts >= 6 ==> DelaySecs(attempts, jitterMs) == MAX_BACKOFF_SECS
    ensures attempts < 6 && jitterMs == 0 ==> DelaySecs(attempts, 0) == Pow2(attempts)
  {
    Pow2Least(attempts);
    assert Pow2(attempts) == 2 * Pow2(attempts - 1);
    assert attempts < 6 ==> Pow2(attempts) <= 32 by {
      assert Pow2(5) == 32 && Pow2(4) == 16 && Pow2(3) == 8 && Pow2(2) == 4 && Pow2(1) == 2;
    }
  }
}
