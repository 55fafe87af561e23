/** internal/engine/recorder.go: what one completed delivery means for its row. */
module Recording {
  import opened Models
  import Backoff

  /** internal/engine/retry.go, IsRetryable. */
  predicate IsRetryable(httpStatus: Option<int>) {
    match httpStatus
    case None => true
    case Some(code) => code == 429 || code >= 500
  }

  /** The columns RecordOutcome writes. */
  datatype Outcome = Outcome(id: Id, status: Status, number: int, nextRetryAt: Option<nat>, httpStatus: Option<int>)

  /** The random draw of one call, and the value of an out-of-range conversion. */
  datatype Chance = Chance(draw: Option<real>, wild: int)

  function Delay(number: int, cfg: RetryConfig, chance: Chance): (d: nat) {
    Backoff.DelayBounds(number, cfg, chance.draw, chance.wild);
    Backoff.NextRetry(number, cfg, chance.draw, chance.wild)
  }

  function Decide(task: Task, result: DeliveryResult, cfg: RetryConfig, now: nat, chance: Chance): Outcome {
    if result.success then Outcome(task.id, Delivered, task.number, None, result.httpStatus)
    else if !IsRetryable(result.httpStatus) then Outcome(task.id, Failed, task.number, None, result.httpStatus)
    else if task.number >= cfg.maxRetries then Outcome(task.id, DeadLetter, task.number, None, result.httpStatus)
    else Outcome(task.id, Pending, task.number + 1, Some(now + Delay(task.number, cfg, chance)), result.httpStatus)
  }

  /** The row after RecordOutcome: no condition on the status it had. */
  function Write(row: Attempt, o: Outcome, now: nat): Attempt {
    row.(status := o.status, number := o.number, nextRetryAt := o.nextRetryAt, httpStatus := o.httpStatus, updatedAt := now)
  }

  /** A retry is scheduled exactly on a retryable failure with budget left, and then the next
      number stays within the budget and the wait within (0, maxDelay]. */
  lemma DecideStaysInBudget(task: Task, result: DeliveryResult, cfg: RetryConfig, now: nat, chance: Chance)
    requires 1 <= task.number <= Max(1, cfg.maxRetries)
    requires 0 < cfg.baseDelay <= cfg.maxDelay
    ensures var o := Decide(task, result, cfg, now, chance);
            && 1 <= o.number <= Max(1, cfg.maxRetries)
            && !o.status.Processing?
            && (o.status.Pending? <==> !result.success && IsRetryable(result.httpStatus) && task.number < cfg.maxRetries)
            && (o.status.Pending? ==> o.number == task.number + 1 && o.nextRetryAt.Some?
                                      && now < o.nextRetryAt.value <= now + cfg.maxDelay)
            && (!o.status.Pending? ==> o.number == task.number && Terminal(o.status))
  {
    Backoff.DelayBounds(task.number, cfg, chance.draw, chance.wild);
  }

  // ---------- the outcome, case by case ----------

  /** What a failed attempt may still get. */
  predicate WorthRetrying(code: Option<int>) {
    code.None? || code.value == 429 || 500 <= code.value
  }

  /** When the retry after a failed attempt is due: within a fifth of its step, under the cap; with the
      default settings in its published band. */
  ghost predicate DueInBand(number: int, cfg: RetryConfig, now: nat, due: nat) {
    && now < due <= now + cfg.maxDelay
    && (Backoff.InRange(cfg) ==> Backoff.InBand(number, cfg, due - now))
    && (cfg == Defaults(0).retry ==> Backoff.Published(number, due - now))
  }

  lemma OutcomeByCase(task: Task, result: DeliveryResult, cfg: RetryConfig, now: nat, chance: Chance)
    requires 0 < cfg.baseDelay <= cfg.maxDelay
    ensures var o := Decide(task, result, cfg, now, chance);
            && o.id == task.id && o.httpStatus == result.httpStatus
            && (o.status.Delivered? <==> result.success)
            && (o.status.Failed? <==> !result.success && !WorthRetrying(result.httpStatus))
            && (o.status.DeadLetter? <==> !result.success && WorthRetrying(result.httpStatus) && cfg.maxRetries <= task.number)
            && (o.status.Pending? <==> !result.success && WorthRetrying(result.httpStatus) && task.number < cfg.maxRetries)
            && (if o.status.Pending?
                then o.number == task.number + 1 && o.nextRetryAt.Some? && DueInBand(task.number, cfg, now, o.nextRetryAt.value)
                else o.number == task.number && o.nextRetryAt.None?)
  {
    Backoff.DelayBounds(task.number, cfg, chance.draw, chance.wild);
    if Backoff.InRange(cfg) {
      Backoff.NextRetryInBand(task.number, cfg, chance.draw, chance.wild);
    }
    if cfg == Defaults(0).retry {
      Backoff.DocumentedSchedule(task.number, chance.draw, chance.wild);
    }
    hide Backoff.NextRetry, Backoff.InBand, Backoff.Published, Backoff.InRange;
  }

  /** internal/engine/deliverer.go, Deliver: the status code of the response, or none at all. */
  function Deliver(response: Option<int>): DeliveryResult {
    DeliveryResult(response.Some? && 200 <= response.value < 300, response)
  }

  /** What the endpoint's answer means for the row. */
  lemma AnswerDecides(task: Task, response: Option<int>, cfg: RetryConfig, now: nat, chance: Chance)
    requires 0 < cfg.baseDelay <= cfg.maxDelay
    ensures var status := Decide(task, Deliver(response), cfg, now, chance).status;
            match response
            case None => status == if task.number < cfg.maxRetries then Pending else DeadLetter
            case Some(code) =>
              && (200 <= code <= 299 ==> status.Delivered?)
              && (code == 429 || 500 <= code ==> status == if task.number < cfg.maxRetries then Pending else DeadLetter)
              && (400 <= code <= 428 || 430 <= code <= 499 ==> status.Failed?)
              && (code < 200 || 300 <= code <= 399 ==> status.Failed?)
  {
    OutcomeByCase(task, Deliver(response), cfg, now, chance);
    hide Decide;
  }
}
