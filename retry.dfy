/** The retry policy the page's query client is created with (src/App.tsx). */
module QueryRetry {

  /** `retry: 1`: a failed query is retried once. */
  const RetryCount: nat := 1

  const BaseDelay: nat := 1000
  const MaxDelay: nat := 30000

  function Pow2(n: nat): (r: nat)
    ensures r >= 1
  {
    if n == 0 then 1 else 2 * Pow2(n - 1)
  }

  lemma {:induction false} Pow2Monotone(a: nat, b: nat)
    requires a <= b
    ensures Pow2(a) <= Pow2(b)
    decreases b
  {
    if a < b {
      Pow2Monotone(a, b - 1);
    }
  }

  /** `Math.min(1000 * 2 ** attemptIndex, 30000)`, in milliseconds. */
  function RetryDelay(attemptIndex: nat): (d: nat)
    ensures BaseDelay <= d <= MaxDelay
  {
    var backoff := BaseDelay * Pow2(attemptIndex);
    if backoff < MaxDelay then backoff else MaxDelay
  }

  /** The first retry waits one second. */
  lemma RetryDelayFirst()
    ensures RetryDelay(0) == 1000
  {
  }

  /** Up to the fifth attempt the delay doubles from one second; from then on
      it is the 30-second cap. */
  lemma RetryDelayPhases(a: nat)
    ensures a <= 4 ==> RetryDelay(a) == 1000 * Pow2(a)
    ensures a >= 5 ==> RetryDelay(a) == 30000
  {
    if a <= 4 {
      Pow2Monotone(a, 4);
    } else {
      Pow2Monotone(5, a);
    }
  }

  /** Later attempts never wait less. */
  lemma RetryDelayMonotone(a: nat, b: nat)
    requires a <= b
    ensures RetryDelay(a) <= RetryDelay(b)
  {
    Pow2Monotone(a, b);
  }
}
