/** Retry policies: which errors are retried. */
module Retry {
  import opened Wrappers
  import opened WorkflowTypes

  const DEFAULT_RETRY := RetryPolicy(1, Fixed, [], false)

  function PolicyOf(n: Node): RetryPolicy {
    if n.retry.Some? then n.retry.value else DEFAULT_RETRY
  }

  predicate Includes(text: string, part: string) {
    exists i :: 0 <= i <= |text| && OccursAt(text, part, i)
  }

  predicate OccursAt(text: string, part: string, i: int) {
    0 <= i <= |text| - |part| && text[i..i + |part|] == part
  }

  predicate IsRetryable(policy: RetryPolicy, error: string) {
    "*" in policy.retryableErrors || exists r :: r in policy.retryableErrors && Includes(error, r)
  }
}
