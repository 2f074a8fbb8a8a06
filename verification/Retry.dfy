/** Failure classifications (collectors/core/errors.py) and the bounded retry policy
    (collectors/core/retry.py). */
module Retry {
  import opened Basics

  datatype Classification =
    | Pass
    | AuthFailure
    | PermissionRequired
    | Throttled
    | ApiError
    | NetworkError
    | Unknown
    | EntityIdentityUnavailable
    | PersistenceFailure
    | SourceFailure
    | RetryExhausted
    | SchemaContractFailure
    | SubscriptionUnavailable
    | TenantMismatch
    | MalformedData
    | ThrottledRetryExhausted    // "THROTTLED/RETRY_EXHAUSTED", only from usage reports
    | ReportSchemaInvalid        // only from usage reports

  // The closed vocabulary the control tables accept.
  predicate Storable(c: Classification) {
    c in {Pass, AuthFailure, PermissionRequired, Throttled, ApiError, NetworkError, Unknown,
          EntityIdentityUnavailable, PersistenceFailure}
  }

  function ClassifyHttpStatus(status: Option<int>): Classification {
    match status
    case None => NetworkError
    case Some(code) =>
      if 200 <= code < 300 then Pass
      else if code == 401 then AuthFailure
      else if code == 403 then PermissionRequired
      else if code == 429 then Throttled
      else ApiError
  }

  predicate IsRetryable(c: Classification) {
    c in {Throttled, ApiError, NetworkError, SourceFailure}
  }

  datatype RetryReason = Passed | NonRetryable | BudgetSpent | Backoff | HonorRetryAfter

  datatype RetryDecision = RetryDecision(retry: bool, sleepSeconds: real, reason: RetryReason)

  /** `parse` is int() applied to a Retry-After header: None when it raises. */
  datatype RetryPolicy = RetryPolicy(
    maxRetries: int,
    baseDelay: real,
    factor: real,
    maxDelay: real,
    maxRetryAfter: real,
    useJitter: bool,
    parse: string -> Option<int>)
  {
    // Settings the documentation bounds sleeping for.
    predicate NonNegative() {
      baseDelay >= 0.0 && factor >= 0.0 && maxDelay >= 0.0 && maxRetryAfter >= 0.0
    }

    function Ceiling(): real {
      MaxReal(baseDelay, MaxReal(maxDelay, maxRetryAfter))
    }

    // At most this many attempts, the first included.
    function Budget(): nat { Max(0, maxRetries) + 1 }
  }

  function MinReal(a: real, b: real): real { if a < b then a else b }

  function MaxReal(a: real, b: real): real { if a < b then b else a }

  function Power(x: real, k: nat): real {
    if k == 0 then 1.0 else x * Power(x, k - 1)
  }

  function RetriesDone(attempts: int): nat { Max(0, attempts - 1) }

  function ShouldRetry(policy: RetryPolicy, classification: Classification, retryAfter: Option<string>,
                       attempts: int, jitter: real): RetryDecision
  {
    if classification == Pass then RetryDecision(false, 0.0, Passed)
    else if !IsRetryable(classification) then RetryDecision(false, 0.0, NonRetryable)
    else if RetriesDone(attempts) >= policy.maxRetries then RetryDecision(false, 0.0, BudgetSpent)
    else if classification == Throttled && retryAfter.Some? then
      match policy.parse(retryAfter.value)
      case Some(seconds) => RetryDecision(true, MinReal(seconds as real, policy.maxRetryAfter), HonorRetryAfter)
      case None => RetryDecision(true, policy.baseDelay, Backoff)
    else if policy.baseDelay > 0.0 then
      RetryDecision(true, Delay(policy, RetriesDone(attempts), jitter), Backoff)
    else RetryDecision(true, policy.baseDelay, Backoff)
  }

  function Delay(policy: RetryPolicy, retriesDone: nat, jitter: real): real {
    var computed := MinReal(policy.baseDelay * Power(policy.factor, retriesDone), policy.maxDelay);
    if policy.useJitter then MinReal(computed + jitter * (computed * 0.25), policy.maxDelay) else computed
  }

  /** A retry is granted exactly for the four transient classifications while fewer than
      `maxRetries` retries are done. */
  lemma RetryGrantedIff(policy: RetryPolicy, c: Classification, retryAfter: Option<string>, attempts: int, jitter: real)
    ensures ShouldRetry(policy, c, retryAfter, attempts, jitter).retry <==>
            c in {Throttled, ApiError, NetworkError, SourceFailure} && Max(0, attempts - 1) < policy.maxRetries
  {
  }

  lemma {:induction false} PowerNonNegative(x: real, k: nat)
    requires x >= 0.0
    ensures Power(x, k) >= 0.0
  {
    if k > 0 { PowerNonNegative(x, k - 1); }
  }

  lemma {:induction false} PowerMonotone(x: real, k: nat, m: nat)
    requires x >= 1.0 && k <= m
    ensures 1.0 <= Power(x, k) <= Power(x, m)
    decreases m
  {
    if m == 0 {
    } else if k == m {
      PowerMonotone(x, m - 1, m - 1);
      assert Power(x, m) == x * Power(x, m - 1) >= 1.0 * Power(x, m - 1);
    } else {
      PowerMonotone(x, k, m - 1);
      assert Power(x, m) == x * Power(x, m - 1) >= 1.0 * Power(x, m - 1);
    }
  }

  /** No decision asks for a longer sleep than the largest of the three configured delays. */
  lemma SleepWithinCeiling(policy: RetryPolicy, c: Classification, retryAfter: Option<string>, attempts: int,
                           jitter: real)
    ensures ShouldRetry(policy, c, retryAfter, attempts, jitter).retry ==>
              ShouldRetry(policy, c, retryAfter, attempts, jitter).sleepSeconds <= policy.Ceiling()
  {
  }

  /** Without jitter, and with a factor of at least 1, a later retry never waits less. */
  lemma BackoffNeverShrinks(policy: RetryPolicy, c: Classification, earlier: nat, later: nat, j0: real, j1: real)
    requires policy.NonNegative() && policy.factor >= 1.0 && !policy.useJitter
    requires earlier <= later
    requires ShouldRetry(policy, c, None, later, j1).retry
    ensures ShouldRetry(policy, c, None, earlier, j0).retry
    ensures ShouldRetry(policy, c, None, earlier, j0).sleepSeconds
              <= ShouldRetry(policy, c, None, later, j1).sleepSeconds
  {
    var k, m := RetriesDone(earlier), RetriesDone(later);
    PowerMonotone(policy.factor, k, m);
    assert policy.baseDelay * Power(policy.factor, k) <= policy.baseDelay * Power(policy.factor, m);
  }

  /** An integer Retry-After (RFC 9110, section 10.2.3) on a throttled reply: the retry comes no earlier than the
      server asked for exactly if what it asked for is within the configured ceiling, and never later than the
      ceiling. */
  lemma RetryAfterHonouredIff(policy: RetryPolicy, header: string, seconds: int, attempts: int, jitter: real)
    requires policy.parse(header) == Some(seconds)
    requires ShouldRetry(policy, Throttled, Some(header), attempts, jitter).retry
    ensures var sleep := ShouldRetry(policy, Throttled, Some(header), attempts, jitter).sleepSeconds;
            && (sleep >= seconds as real <==> seconds as real <= policy.maxRetryAfter)
            && sleep <= policy.maxRetryAfter && sleep <= seconds as real
  {
  }
}
