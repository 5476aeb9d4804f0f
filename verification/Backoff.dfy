/** The waits between attempts: doubling from 50 ms, capped at one second. */
module Backoff {
  /** time.Duration: a signed 64-bit count of nanoseconds. */
  newtype Duration = d: int | -0x8000_0000_0000_0000 <= d < 0x8000_0000_0000_0000

  const MILLISECOND: Duration := 1_000_000
  const SECOND: Duration := 1_000_000_000

  function Pow2(n: nat): nat {
    if n == 0 then 1 else 2 * Pow2(n - 1)
  }

  lemma {:induction false} Pow2Monotone(m: nat, n: nat)
    requires m <= n
    ensures Pow2(m) <= Pow2(n)
  {
    if m < n {
      Pow2Monotone(m, n - 1);
    }
  }

  /** min(50 ms * 2^attempt, 1 s), in milliseconds. */
  function WaitMillis(attempt: nat): nat {
    if 50 * Pow2(attempt) < 1000 then 50 * Pow2(attempt) else 1000
  }

  /** The loop stays inside its type and computes the capped power. */
  method RetryWait(attempt: nat) returns (base: Duration)
    ensures base as int == WaitMillis(attempt) * 1_000_000
  {
    base := 50 * MILLISECOND;
    var i := 0;
    while i < attempt
      invariant i <= attempt
      invariant base as int == 50 * Pow2(i) * 1_000_000
      invariant base < SECOND
    {
      base := base * 2;
      if base >= SECOND {
        Pow2Monotone(i + 1, attempt);
        return SECOND;
      }
      i := i + 1;
    }
  }

  lemma WaitsNeverShrink(m: nat, n: nat)
    requires m <= n
    ensures WaitMillis(m) <= WaitMillis(n) <= 1000
  {
    Pow2Monotone(m, n);
  }

  /** All the waits before attempts 1, 2, ... , n. */
  function TotalMillis(n: nat): nat {
    if n == 0 then 0 else TotalMillis(n - 1) + WaitMillis(n - 1)
  }

  /** Closed form of the sum. */
  lemma {:induction false} TotalMillisClosedForm(n: nat)
    ensures n <= 5 ==> TotalMillis(n) == 50 * (Pow2(n) - 1)
    ensures n >= 5 ==> TotalMillis(n) == 1550 + 1000 * (n - 5)
  {
    assert Pow2(5) == 32;
    if n > 0 {
      TotalMillisClosedForm(n - 1);
      if n <= 5 {
        Pow2Monotone(n - 1, 4);
      } else {
        Pow2Monotone(5, n - 1);
      }
    }
  }

  /** Ten attempts wait at most 5550 ms in all. */
  lemma TenAttemptsWait()
    ensures TotalMillis(9) == 5550
  {
    TotalMillisClosedForm(9);
  }
}
