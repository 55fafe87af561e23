/** internal/engine/recorder.go: the completion handler, two writes in order. */
module ResultRecorder {
  import opened Models
  import opened Recording
  import opened Table
  import opened DeliveryRepository
  import opened EndpointService
  import Breaker

  class ResultRecorder {
    const deliveries: DeliveryRepository
    const endpoints: EndpointRepository
    const cfg: Config

    constructor (deliveries: DeliveryRepository, endpoints: EndpointRepository, cfg: Config)
      requires cfg.Valid()
      ensures this.deliveries == deliveries && this.endpoints == endpoints && this.cfg == cfg
    {
      this.deliveries, this.endpoints, this.cfg := deliveries, endpoints, cfg;
    }

    /** The outcome goes first. Health is only recorded once the outcome is stored: a failed or
        missing outcome row leaves the endpoint's counter alone. */
    method OnComplete(task: Task, result: DeliveryResult, now: nat, chance: Chance, outcomeStored: bool, healthStored: bool)
      requires cfg.Valid() && deliveries.Valid() && endpoints.Valid(cfg.maxFailures)
      modifies deliveries`rows, endpoints`endpoints
      ensures deliveries.Valid() && endpoints.Valid(cfg.maxFailures)
      ensures deliveries.rows ==
              if outcomeStored then RecordRow(old(deliveries.rows), Decide(task, result, cfg.retry, now, chance), now)
              else old(deliveries.rows)
      ensures outcomeStored && task.id in old(deliveries.rows) ==>
                && deliveries.rows.Keys == old(deliveries.rows).Keys
                && (forall id <- deliveries.rows :: id != task.id ==> deliveries.rows[id] == old(deliveries.rows)[id])
                && var was, row := old(deliveries.rows)[task.id], deliveries.rows[task.id];
                && row.event == was.event && row.endpoint == was.endpoint && row.createdAt == was.createdAt
                && row.httpStatus == result.httpStatus && row.updatedAt == now
                && (row.status.Delivered? <==> result.success)
                && (row.status.Failed? <==> !result.success && !WorthRetrying(result.httpStatus))
                && (row.status.DeadLetter? <==>
                      !result.success && WorthRetrying(result.httpStatus) && cfg.retry.maxRetries <= task.number)
                && (row.status.Pending? <==>
                      !result.success && WorthRetrying(result.httpStatus) && task.number < cfg.retry.maxRetries)
                && (if row.status.Pending?
                    then row.number == task.number + 1 && row.nextRetryAt.Some?
                         && DueInBand(task.number, cfg.retry, now, row.nextRetryAt.value)
                    else row.number == task.number && row.nextRetryAt.None?)
      ensures endpoints.endpoints ==
              if outcomeStored && task.id in old(deliveries.rows) && healthStored && task.endpoint in old(endpoints.endpoints)
              then old(endpoints.endpoints)[task.endpoint :=
                     Breaker.RecordResult(old(endpoints.endpoints)[task.endpoint], result.success, cfg.maxFailures).0]
              else old(endpoints.endpoints)
    {
      OutcomeByCase(task, result, cfg.retry, now, chance);
      hide DueInBand;
      var status := Delivered;
      var nextNumber := task.number;
      var nextRetryAt: Option<nat> := None;
      if !result.success {
        if !IsRetryable(result.httpStatus) {
          status := Failed;
        } else if task.number >= cfg.retry.maxRetries {
          status := DeadLetter;
        } else {
          status := Pending;
          nextNumber := task.number + 1;
          var delay := Delay(task.number, cfg.retry, chance);
          nextRetryAt := Some(now + delay);
        }
      }
      var outcome := Outcome(task.id, status, nextNumber, nextRetryAt, result.httpStatus);
      if !outcomeStored {
        return;
      }
      var found := deliveries.RecordOutcome(outcome, now);
      if !found {
        return;
      }
      if healthStored {
        var tripped := endpoints.RecordDeliveryResult(task.endpoint, result.success, cfg.maxFailures);
      }
    }
  }
}
