/** How long an execution waits before its next attempt. */
module RetryDelay {
  import opened WorkflowTypes
  import opened Powers

  /** The delay before jitter, in milliseconds. */
  function BaseDelay(policy: RetryPolicy, attempt: nat): nat
    requires attempt >= 1
  {
    if policy.backoff.Exponential? then 1000 * Pow2(attempt - 1) else 1000
  }

  /** To the nearest integer, halves up. */
  function Round(x: real): int {
    (x + 0.5).Floor
  }

  /** The delay after the failure of `attempt`, where `rng` is the random number drawn. */
  function BackoffMs(policy: RetryPolicy, attempt: nat, rng: real): int
    requires attempt >= 1 && 0.0 <= rng < 1.0
  {
    var delay := BaseDelay(policy, attempt);
    if policy.jitter then Jittered(delay, rng) else delay
  }

  function Scaled(delay: real, rng: real): real {
    delay * (0.5 + rng * 0.5)
  }

  /** Between half and all of the delay, to spread retries out. */
  function Jittered(delay: nat, rng: real): int {
    Round(Scaled(delay as real, rng))
  }

  lemma {:induction false} ProductNotNegative(a: real, b: real)
    requires a >= 0.0 && b >= 0.0
    ensures a * b >= 0.0
  {}

  lemma {:induction false} ScaledSplits(d: real, rng: real)
    ensures Scaled(d, rng) == d * 0.5 + 0.5 * (d * rng)
    ensures d - Scaled(d, rng) == 0.5 * (d * (1.0 - rng))
  {}

  lemma {:induction false} ScaledWithin(d: real, rng: real)
    requires d >= 0.0 && 0.0 <= rng < 1.0
    ensures d * 0.5 <= Scaled(d, rng) <= d
  {
    hide Scaled;
    ScaledSplits(d, rng);
    ProductNotNegative(d, rng);
    ProductNotNegative(d, 1.0 - rng);
  }

  lemma {:induction false} RoundWithin(x: real, lo: int, hi: int)
    requires lo as real <= x <= hi as real
    ensures lo <= Round(x) <= hi
  {}

  lemma {:induction false} JitterBounds(half: nat, rng: real)
    requires 0.0 <= rng < 1.0
    ensures half <= Jittered(2 * half, rng) <= 2 * half
  {
    hide Round, Scaled;
    ScaledWithin((2 * half) as real, rng);
    RoundWithin(Scaled((2 * half) as real, rng), half, 2 * half);
  }

  function HalfDelay(policy: RetryPolicy, attempt: nat): nat
    requires attempt >= 1
  {
    if policy.backoff.Exponential? then 500 * Pow2(attempt - 1) else 500
  }

  lemma {:induction false} DelayHalves(policy: RetryPolicy, attempt: nat)
    requires attempt >= 1
    ensures BaseDelay(policy, attempt) == 2 * HalfDelay(policy, attempt)
  {
    hide Pow2;
  }

  /** Jitter keeps a delay between half of its base and its base. */
  lemma {:induction false} BackoffBounds(policy: RetryPolicy, attempt: nat, rng: real)
    requires attempt >= 1 && 0.0 <= rng < 1.0
    ensures BaseDelay(policy, attempt) <= 2 * BackoffMs(policy, attempt, rng) <= 2 * BaseDelay(policy, attempt)
  {
    hide BaseDelay, HalfDelay, Jittered;
    DelayHalves(policy, attempt);
    JitterBounds(HalfDelay(policy, attempt), rng);
  }

  /** All delays of an execution that starts at attempt `start` and fails once per random number drawn. */
  function TotalBackoff(policy: RetryPolicy, start: nat, draws: seq<real>): int
    requires start >= 1 && forall i | 0 <= i < |draws| :: 0.0 <= draws[i] < 1.0
  {
    if draws == [] then 0
    else TotalBackoff(policy, start, draws[..|draws| - 1]) + BackoffMs(policy, start + |draws| - 1, draws[|draws| - 1])
  }

  /** Exponential delays double, so all of them together stay below the next one. */
  lemma {:induction false} TotalBackoffBounds(policy: RetryPolicy, start: nat, draws: seq<real>)
    requires policy.backoff.Exponential? && start >= 1 && forall i | 0 <= i < |draws| :: 0.0 <= draws[i] < 1.0
    ensures var all := 1000 * (Pow2(start - 1 + |draws|) - Pow2(start - 1));
            && all <= 2 * TotalBackoff(policy, start, draws) <= 2 * all
            && (!policy.jitter ==> TotalBackoff(policy, start, draws) == all)
  {
    if draws != [] {
      TotalBackoffBounds(policy, start, draws[..|draws| - 1]);
      BackoffBounds(policy, start + |draws| - 1, draws[|draws| - 1]);
    }
  }
}
