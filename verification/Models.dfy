/** The rows, tasks and settings shared by every part of the model.
    Times and durations are nanoseconds, as in Go's time.Duration. */
module Models {

  datatype Option<+T> = None | Some(value: T)

  type Id = nat

  predicate NoRepeats<T(==)>(ts: seq<T>) {
    forall a, b :: 0 <= a < b < |ts| ==> ts[a] != ts[b]
  }

  const SECOND: nat := 1_000_000_000

  /** A `processing` row older than this is claimable again. */
  const LEASE: nat := 300 * SECOND

  /** Deadline of one claim, one revert, and one completion call with both its writes. */
  const DB_TIMEOUT: nat := 5 * SECOND
  const LIMITER_TIMEOUT: nat := 10 * SECOND
  const HTTP_TIMEOUT: nat := 30 * SECOND

  datatype Status = Pending | Processing | Delivered | Failed | DeadLetter

  predicate Terminal(s: Status) {
    s.Delivered? || s.Failed? || s.DeadLetter?
  }

  /** A row of delivery_attempts. */
  datatype Attempt = Attempt(
    event: Id,
    endpoint: Id,
    status: Status,
    number: int,
    nextRetryAt: Option<nat>,
    httpStatus: Option<int>,
    createdAt: nat,
    updatedAt: nat)

  /** What a claim hands to the dispatcher. `claimedAt` is the updated_at the claim wrote. */
  datatype Task = Task(id: Id, event: Id, endpoint: Id, number: int, claimedAt: nat)

  /** What `Deliver`, an aborted limiter wait or a recovered panic reports. */
  datatype DeliveryResult = DeliveryResult(success: bool, httpStatus: Option<int>)

  datatype EndpointStatus = Active | Inactive

  datatype Endpoint = Endpoint(app: Id, recipient: string, rateLimit: int, status: EndpointStatus, failures: int)

  datatype RetryConfig = RetryConfig(baseDelay: int, maxDelay: int, maxRetries: int)

  /** `limiterWait` is not a setting: it is the longest the rate limiter makes any task of the workload
      wait before it lets it through or gives up. Ten seconds is always enough; with limits that are
      never reached it is zero. */
  datatype Config = Config(
    workers: nat,
    queueSize: nat,
    batchSize: nat,
    enqueueTimeout: nat,
    pollInterval: nat,
    limiterWait: nat,
    retry: RetryConfig,
    maxFailures: int)
  {
    /** What `Validate` accepts, together with the int64 range of a Go Duration. */
    predicate Valid() {
      && 0 < workers && 0 < queueSize && 0 < batchSize && 0 < enqueueTimeout && 0 < pollInterval
      && limiterWait <= LIMITER_TIMEOUT
      && 0 <= retry.maxRetries
      && 0 < retry.baseDelay <= retry.maxDelay
      && 0 < maxFailures
    }

    /** The longest a worker is busy with one task. */
    function TaskTimeout(): nat {
      limiterWait + HTTP_TIMEOUT + DB_TIMEOUT
    }

    /** Attempts a row can make: a zero retry budget still allows the first one. */
    function AttemptBudget(): int {
      Max(1, retry.maxRetries)
    }
  }

  /** What main and the configuration loader use when nothing is set. */
  function Defaults(limiterWait: nat): Config {
    Config(5, 100, 50, 2 * SECOND, 2 * SECOND, limiterWait, RetryConfig(30 * SECOND, 4 * 3600 * SECOND, 5), 20)
  }

  function Max(a: int, b: int): int {
    if a < b then b else a
  }

  function Min(a: int, b: int): int {
    if a < b then a else b
  }

  /** The WHERE clause of the claim query. */
  predicate Claimable(row: Attempt, endpoints: map<Id, Endpoint>, now: nat) {
    && row.endpoint in endpoints
    && endpoints[row.endpoint].status.Active?
    && (|| (row.status.Pending? && (row.nextRetryAt.None? || row.nextRetryAt.value <= now))
        || (row.status.Processing? && row.updatedAt + LEASE < now))
  }

  function Claim(row: Attempt, now: nat): Attempt {
    row.(status := Processing, updatedAt := now)
  }

  function TaskOf(id: Id, row: Attempt, now: nat): Task {
    Task(id, row.event, row.endpoint, row.number, now)
  }
}
