// The bounded retry loops of the pipeline: `for attempt := 0; attempt <= maxRetries; attempt++`,
// stopping at the first attempt that succeeds, with a wait before (or after) each failed attempt.
module Retry {
  import opened Numbers

  /** How many attempts a loop bounded by `attempt <= maxRetries` can make. */
  function MaxAttempts(maxRetries: int): (n: nat)
    ensures maxRetries >= 0 ==> n == maxRetries + 1
    ensures maxRetries < 0 ==> n == 0
  {
    if maxRetries >= 0 then maxRetries + 1 else 0
  }

  /** Outcomes of a foreign call seen from the call numbered `from` on. */
  function Shifted(outcomes: nat -> bool, from: nat): nat -> bool {
    (n: nat) => outcomes(from + n)
  }

  /** The attempts a retry loop made and whether its last attempt succeeded. */
  datatype Run = Run(attempts: nat, succeeded: bool)

  /**
   * The run of a loop trying attempts k, k + 1, ... below `limit`, where attempt j succeeds
   * exactly when ok(j), stopping at the first success.
   */
  function FirstSuccess(ok: nat -> bool, k: nat, limit: nat): (r: Run)
    requires k <= limit
    ensures k <= r.attempts <= limit
    ensures r.succeeded ==> r.attempts > k && ok(r.attempts - 1)
    ensures !r.succeeded ==> r.attempts == limit
    ensures forall j :: k <= j < r.attempts && !(r.succeeded && j == r.attempts - 1) ==> !ok(j)
    decreases limit - k
  {
    if k == limit then Run(limit, false)
    else if ok(k) then Run(k + 1, true)
    else FirstSuccess(ok, k + 1, limit)
  }

  /** One turn of a retry loop over shifted outcomes: stop on a success, go on otherwise. */
  lemma FirstSuccessStep(outcomes: nat -> bool, from: nat, k: nat, limit: nat)
    requires k < limit
    ensures FirstSuccess(Shifted(outcomes, from), k, limit)
      == if outcomes(from + k) then Run(k + 1, true) else FirstSuccess(Shifted(outcomes, from), k + 1, limit)
  {
  }

  /** A loop with room for an attempt that would succeed does succeed, no later than that attempt. */
  lemma SucceedsWhenSomeAttemptCan(ok: nat -> bool, limit: nat, j: nat)
    requires j < limit && ok(j)
    ensures FirstSuccess(ok, 0, limit).succeeded
    ensures FirstSuccess(ok, 0, limit).attempts <= j + 1
  {
  }

  /** A loop fails only when every attempt it was allowed failed. */
  lemma FailsOnlyWhenAllFail(ok: nat -> bool, limit: nat)
    requires !FirstSuccess(ok, 0, limit).succeeded
    ensures forall j :: 0 <= j < limit ==> !ok(j)
  {
  }

  /** The waits of the linear back-off: `attempt * backoff` before each attempt after the first. */
  function LinearWaits(attempts: nat, backoff: int): (w: seq<int>)
    ensures |w| == if attempts == 0 then 0 else attempts - 1
  {
    if attempts <= 1 then [] else LinearWaits(attempts - 1, backoff) + [(attempts - 1) * backoff]
  }

  /** The waits of the exponential back-off: `backoff * 2^attempt` after each failed attempt but the last. */
  function ExponentialWaits(attempts: nat, backoff: int): (w: seq<int>)
    ensures |w| == if attempts == 0 then 0 else attempts - 1
  {
    if attempts <= 1 then [] else ExponentialWaits(attempts - 1, backoff) + [backoff * Pow2(attempts - 2)]
  }

  function Sum(s: seq<int>): int {
    if s == [] then 0 else Sum(s[..|s| - 1]) + s[|s| - 1]
  }

  lemma {:induction false} LinearWaitAt(attempts: nat, backoff: int, k: nat)
    requires k < |LinearWaits(attempts, backoff)|
    ensures LinearWaits(attempts, backoff)[k] == (k + 1) * backoff
    decreases attempts
  {
    if k < attempts - 2 {
      LinearWaitAt(attempts - 1, backoff, k);
    }
  }

  lemma {:induction false} ExponentialWaitAt(attempts: nat, backoff: int, k: nat)
    requires k < |ExponentialWaits(attempts, backoff)|
    ensures ExponentialWaits(attempts, backoff)[k] == backoff * Pow2(k)
    decreases attempts
  {
    if k < attempts - 2 {
      ExponentialWaitAt(attempts - 1, backoff, k);
    }
  }

  /** In all, the linear back-off waits `backoff * n(n-1)/2` over n attempts. */
  lemma {:induction false} LinearWaitsTotal(attempts: nat, backoff: int)
    ensures 2 * Sum(LinearWaits(attempts, backoff)) == backoff * attempts * (if attempts == 0 then 0 else attempts - 1)
    decreases attempts
  {
    if attempts > 1 {
      var n := attempts - 1;
      var v := LinearWaits(n, backoff);
      var w := LinearWaits(attempts, backoff);
      LinearWaitsTotal(n, backoff);
      assert w == v + [n * backoff];
      assert w[..|w| - 1] == v;
      assert Sum(w) == Sum(v) + n * backoff;
      TriangleStep(backoff, n);
    }
  }

  lemma TriangleStep(b: int, n: nat)
    requires n >= 1
    ensures b * n * (n - 1) + 2 * (n * b) == b * (n + 1) * n
  {
    assert b * n * (n - 1) == b * n * n - b * n;
    assert b * (n + 1) * n == b * n * n + b * n;
  }

  /** In all, the exponential back-off waits `backoff * (2^(n-1) - 1)` over n attempts. */
  lemma {:induction false} ExponentialWaitsTotal(attempts: nat, backoff: int)
    requires attempts >= 1
    ensures Sum(ExponentialWaits(attempts, backoff)) == backoff * (Pow2(attempts - 1) - 1)
    decreases attempts
  {
    if attempts > 1 {
      var p := Pow2(attempts - 2);
      var v := ExponentialWaits(attempts - 1, backoff);
      var w := ExponentialWaits(attempts, backoff);
      ExponentialWaitsTotal(attempts - 1, backoff);
      assert w == v + [backoff * p];
      assert w[..|w| - 1] == v;
      assert Sum(w) == Sum(v) + backoff * p;
      assert Pow2(attempts - 1) == 2 * p;
      DoublingStep(backoff, p);
    }
  }

  lemma DoublingStep(b: int, p: int)
    ensures b * (p - 1) + b * p == b * (2 * p - 1)
  {
  }
}
