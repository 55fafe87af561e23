# HookOps delivery engine: a Dafny model

HookOps accepts events over HTTP, turns each into one delivery attempt per subscribed endpoint, and
delivers the attempts as webhooks. The `delivery_attempts` table doubles as a lease queue: a dispatcher
claims a batch by marking rows `processing`, hands the tasks to a bounded worker pool, and workers write
the outcome back. A `processing` row older than five minutes is claimable again. The two statements that
end a hold, the outcome write and the revert, check no status, so everything below `delivered stays
delivered` rests on timeouts spread over four files.

The project models that engine and proves what holds in every interleaving of its parts. Check it with
`dafny verify dfyconfig.toml`.

## Layers

- `Models`, `Table`, `Recording`, `Backoff`, `Breaker`: the rows, and each statement and decision as a
  function of the row or the table.
- `Process`: one process as a state machine with one step per atomic action of the dispatcher, a worker
  or `main`. The closed check and the send of `Enqueue` are separate steps, and so are the outcome write
  and the health update. After a partial batch the dispatcher waits for its ticker.
- `Lease`: deadlines, and how long a process can hold a claimed row.
- `Engine`: tables, a clock, any number of processes, crashes, manual retries, replays, ingest, and
  operator updates between whose read and write anything may happen. A claim takes the oldest eligible rows
  except any it skips because another claim has them locked.
- `Ownership`, `Starvation`, `RetryTimes`, `Traffic`, `Shutdown`, `Reactivation`, `Polling`, `Integrity`: the
  theorems about runs of the engine.
- `Reachability`, `Schedule`, `Backlog`, `Decision`: runs built step by step, the slowest one a
  configuration allows, and what that decides.
- `Claims`, `Ingest`, `FanOut`, `Replay`: the database protocols, statement by statement; `Ingest` runs on top
  of `FanOut`.
- `DeliveryRepository`, `Dispatcher`, `WorkerPool`, `ResultRecorder`, `EventService`, `EndpointService`
  and `FanOut.SubscriptionService`: the imperative code, each method proved against the functions the
  state machines use.

Times are nanoseconds. `NOW()` of a statement is the clock of its step. What the code cannot decide itself
(which sends time out, whether a statement fails, the random draw, an HTTP response) is a parameter or a
free choice of the step. `limiterWait` is the longest the rate limiter makes any task of the workload wait:
zero when no limit is reached, and never more than ten seconds. In a timed run no deadline and
no tick passes unnoticed, a send waits only while the queue is full, and no worker is idle beside a queued task.

## What turned out

With T = `limiterWait` + 30s + 5s, R = ceil(QueueSize / WorkerCount), slack = R * WorkerCount - QueueSize
and E the enqueue timeout of 2s,

    sends(0)  = 0
    sends(n)  = min(max(5s, sends(n - 1)) + E, sends(max(0, n - WorkerCount)) + T)
    HoldBound = sends(max(0, BatchSize - slack)) + (R + 1) * T

- HoldBound decides whether a row can have two holders, and whether a delivered row can be taken back: for
  all settings the loader accepts, rows are owned singly in every timed run if and only if HoldBound is at
  most five minutes, and delivered is for good under exactly the same condition (`ConfigurationDecides`).
  sends(n) is the latest end of the n-th send of a batch: no send outlasts its timeout, and each worker that
  comes back makes room for one. With up to 15 workers it is 5s + n * E.
- What that says of the settings alone: if HoldBound fits with a `limiterWait` of ten seconds, every workload
  is safe; if it does not fit with a `limiterWait` of zero, ownership is lost in a run in which no limit is
  ever reached (`SettingsDecide`). The defaults are far on the losing side: 840s with no waits at all.
  Between the two it depends on how long the workload's own limits delay its tasks.
- A filter on `BatchReplay` is applied before the latest row of a pair is picked. A filter by status failed
  or dead_letter, or by end date without a status, can therefore replay a pair that was delivered since;
  every other filter is safe (`WhenFilterIsSafe`).
- A backoff delay can exceed the maximum exactly when the multiplication can overflow int64 and the base
  delay is above the maximum too, which configuration validation rules out (`WhenCapped`). From the fifth
  attempt on the schedule can fall, unless the maximum is at most 384 base delays (`WhenScheduleRises`).
- An operator update that says nothing about the status undoes a trip that happened after it read the
  endpoint (`WhenUpdateReactivates`, `TripsAreUndone`), but no interleaving leaves an active endpoint at or
  over the threshold (`ActiveStaysBelowThreshold`).

Where the repository's documents and its code disagree, the model follows the code. README.md:20 says
inactive endpoints are probed and re-enabled, and no code does. README.md:78 lists a four-hour delay after
the fifth failure; with five retries the recorder dead-letters at attempt five instead, so that band is a
value of the function and never a scheduled delay. `ReplayFailedAttemptsByEvent` returns columns of an alias
its INSERT does not declare; the model follows the intent its comment states.

## Model

The main results come first, hardest first; then the invariants and steps they rest on; then the code.

| member | source | states |
|---|---|---|
| Decision.ConfigurationDecides | internal/config/config.go:99-125 | For every valid configuration and every longest limiter wait: rows are owned singly in every timed run, in which a task may spend up to that wait in the limiter, if and only if HoldBound fits the five-minute lease; a delivered row is never taken back under exactly the same condition |
| Decision.SettingsDecide | internal/engine/worker_pool.go:133-150 | For settings alone, whatever limits and traffic there are: single ownership and no undone delivery if HoldBound fits with the limiter's own ten seconds, neither if it does not fit without any wait, by a run in which the limiter delays nothing |
| Ownership.FittingConfigurationOwnsSingly | internal/config/config.go:63-66 | A configuration whose hold bound fits the five-minute lease owns rows singly in every timed run |
| Ownership.DeliveredForGood | internal/repository/delivery_repo.go:152-185 | ... and a delivered row is never written again |
| Ownership.FittingConfigurationMovesLegally | internal/repository/delivery_repo.go:153-199 | ... and every event of every timed run moves every row legally |
| Decision.OverlongHoldLosesOwnership | internal/repository/delivery_repo.go:152-199 | When HoldBound exceeds the lease, a timed run, each slow task of which takes `limiterWait` in the limiter, outlives the lease, gives one row two holders, and has the stale holder's write take a delivered row out of delivered |
| Decision.DefaultsLoseOwnership | internal/config/config.go:63-70 | The default settings lose single ownership and undo a delivery, even if the limiter never delays a task |
| Lease.HoldIsBounded | internal/engine/dispatcher.go:144-198 | A process never holds a claimed row beyond HoldBound: claim, sends, rounds of the queue, and the three timeouts of a task, or else the revert |
| Lease.QueueWaitIsBounded | internal/engine/worker_pool.go:107-113 | No task waits in the queue longer than ceil(QueueSize / WorkerCount) tasks take, counted from as many sends before its own as the last round has dequeues to spare |
| Backlog.LastOfBacklog | internal/engine/worker_pool.go:93-113 | For every configuration some timed run attains the bound: after a burst claimed in full batches, the last task of a batch, like each slow task before it `limiterWait` in the limiter, is still with its worker HoldBound after its claim |
| Schedule.LastBeat | internal/engine/dispatcher.go:158-184 | The slowest timetable, each send as late as its timeout or the worker that makes room for it allows, takes exactly HoldBound |
| Starvation.NoStarvation | internal/repository/delivery_repo.go:89-90 | In a single-owner run without crashes, reverts, lost statements or manual retries, a due row with k older unsettled rows is passed over (for any reason but another claim's lock) by at most floor(k * max(1, MaxRetries) / BatchSize) polls |
| RetryTimes.RetryWaitsItsDelay | internal/repository/delivery_repo.go:83-88 | In every run: after the n-th attempt failed in a way that may pass and left budget, no claim takes the row before the delay drawn for attempt n has passed, unless another outcome of the row is stored in between |
| RetryTimes.DefaultWaits | README.md:72-78 | With the default settings that is at least 24s after the first failure, 96s after the second, 8 minutes after the third and 48 after the fourth |
| Ownership.SingleOwnership | internal/repository/delivery_repo.go:78-100 | While every hold ends within five minutes of its claim, no row has two holders, no holder holds it twice, and every held row is processing exactly as its holder's claim left it |
| Ownership.LifeCycle | internal/repository/delivery_repo.go:153-199 | Then the unguarded outcome and revert writes move rows legally: delivered is never left, failed and dead_letter only by a manual retry of that row |
| Ownership.RetriesAreCounted | internal/repository/delivery_repo.go:153-164 | Then attempt number - 1 is the number of retries scheduled since creation or manual retry, and the scheduled delays total at most (max(1, MaxRetries) - 1) * MaxDelay |
| Ownership.ReachableBase | internal/repository/delivery_repo.go:83-100 | In every reachable state of the engine, stale holders included: attempt numbers of rows and held tasks stay in budget, active endpoints and stale snapshots stay below the breaker threshold, every process keeps its ledger and phase order, and a processing row is held by its last claimer unless that process crashed or lost a statement |
| Shutdown.CleanShutdownLeavesNoRows | cmd/api/main.go:162-188 | If Shutdown returned nil and no statement failed, every task ever claimed was reverted or completed exactly once, and no row the process claimed last is still processing |
| Shutdown.NeverSendsOnClosedQueue | internal/engine/worker_pool.go:93-104 | In no run does a process send on its closed queue, with the closed check and the send as separate steps |
| Ingest.OneEventPerKey | internal/service/event_service.go:73-141 | However SendEvent calls interleave, at most one event exists per application and key, and all successful calls return it |
| Ingest.OneAttemptPerWantedEndpoint | internal/service/event_service.go:97-121 | In every run, with endpoints, event types and subscriptions changing at any time: every event came with exactly one attempt for each endpoint wanted at the step at which its creator read the subscriptions, and none for any other |
| Ingest.LosersLeaveNothing | internal/service/event_service.go:121-135 | In every run, a call answered with another call's event, or not answered yet, created no event and so no attempts |
| Ingest.LosersAreServed | internal/service/event_service.go:121-133 | A call the unique index refuses can, whatever happens meanwhile, answer with the event of its key by its second lookup |
| Ingest.QueuedCountsAddUp | internal/service/event_service.go:80-141 | The queued counts of successful calls add up to at most the event's attempt rows, to exactly those once the creator's call is among them |
| FanOut.FanOutExactlyOnce | internal/repository/subscription_repo.go:124-171 | In every interleaving of subscribe, unsubscribe and endpoint or event type changes, the join yields exactly the matching endpoints, each once |
| Breaker.BreakerAgreesWithHistory | internal/repository/endpoint_repo.go:186-222 | With no operator update, inactive exactly when the history has maxFailures consecutive failures; until then the counter is the trailing failure run, after that it stays at maxFailures until a late success clears it; tripped is returned true exactly once |
| Ownership.ActiveStaysBelowThreshold | internal/service/endpoint_service.go:118-163 | However results and updates computed from stale reads interleave, an active endpoint has fewer than maxFailures consecutive failures |
| Reactivation.WhenUpdateReactivates | internal/service/endpoint_service.go:118-163 | Over any run, an operator's update turns an inactive endpoint on exactly when it asks for active, or is silent about the status and the endpoint was active when the update read it |
| Reactivation.OffUntilAsked | internal/service/endpoint_service.go:136-146 | Once an endpoint is off and no update in flight read it earlier, it stays off until an operator asks for active |
| Reactivation.TripsAreUndone | internal/service/endpoint_service.go:119-160 | For every configuration some timed run, with no other operator write, reads the endpoint active and without failures, has a failed delivery trip it at maxFailures, and then turns it on by the silent update |
| Reactivation.UpdateWritesWhatItRead | internal/service/endpoint_service.go:118-163 | Over any run, an update writes every column it does not name as it read it, over all that deliveries and other operators did since, and a fresh counter when it asks for active |
| Integrity.SettledRowsWereAnswered | internal/engine/worker_pool.go:117-165 | In every run, stale holders included, a row is delivered only after its endpoint answered a delivery of it with success, and failed only after it answered with a code other than 429 below 500: no aborted wait, panic, timeout or lost statement passes for either |
| Integrity.TablesStayConsistent | migrations/006_create_delivery_attempts_table.up.sql:1-4 | In every run every attempt has its endpoint, cascades included, and every rate limit, also in updates not yet written, is between 1 and 1000 |
| Integrity.DeletedStaysDeleted | internal/repository/endpoint_repo.go:155-182 | In every run a deleted endpoint stays deleted, whatever results and updates of it are still under way |
| Traffic.TrafficAfterTrip | internal/engine/worker_pool.go:64-89 | From a trip until an operator update each process begins at most QueueSize + WorkerCount + BatchSize deliveries to it |
| Claims.CommittedClaimIsAClaim | internal/repository/delivery_repo.go:74-115 | Beside other claims, outcomes, reverts, retries, cascades and endpoint updates, a claim taken row by row has by its commit done one claim of the rows as they are then: the oldest claimable ones but for those it passed over, each because it was locked or not claimable when visited, or not claimable when the claim began |
| Claims.ConcurrentClaimsAreDisjoint | internal/repository/delivery_repo.go:79-100 | Among all those, a row that one claim returned goes to another only if somebody wrote it in between, or the second NOW() is more than a lease after the first |
| Replay.ReplayAgreement | internal/repository/delivery_repo.go:466-528 | Replaying every event of an application one by one inserts the pairs of an unfiltered batch replay |
| Replay.WhenFilterIsSafe | internal/repository/delivery_repo.go:514-526 | A BatchReplay filter inserts only what the unfiltered replay would, on every table, ties in created_at aside, exactly when it lets nothing through, or names a status that is never replayed, or names none and sets no end date; exactly then it also spares every pair delivered since |
| Replay.BatchReplaysFailed | internal/repository/delivery_repo.go:505-528 | Without reference to how it is computed: every pair replayed is of the application and the endpoint asked for and has a failed attempt, within all conditions given, that none of its attempts within them is newer than; and no such pair is left out |
| Replay.RepeatInsertsNone | internal/repository/delivery_repo.go:505-528 | An immediate repeat inserts nothing |
| Polling.AtMostOneSendAfterStop | internal/engine/dispatcher.go:158-171 | In every run, once the stop signal is given a process sends at most the one task it had begun to offer |
| Polling.RevertedTookTime | internal/engine/dispatcher.go:172-184 | In every run, a process not told to stop that gives n claimed tasks back has spent n whole enqueue timeouts since their claim |
| Polling.OnePollPerTick | internal/engine/dispatcher.go:125-133 | In every run, between two polls of a process that no full batch preceded lies a tick of its ticker |
| Process.BatchConservation | internal/engine/dispatcher.go:144-198 | In every interleaving, when a batch is done or abandoned at a stop signal it has split into sent and to-be-reverted, each task once and in order |
| Dispatcher.Dispatcher.DrainUntilWait | internal/engine/dispatcher.go:108-136 | With n eligible rows and no failures the loop waits after exactly n / BatchSize + 1 polls, having handed over every eligible row once |
| Backoff.WhenScheduleRises | internal/engine/retry.go:53-95 | No draw is longer than any draw at the next attempt exactly up to attempt 4, or when the maximum is at most 384 base delays |
| Backoff.BandsAreDisjoint | internal/engine/retry.go:53-82 | For attempts 1 to 4 any uncapped draw is strictly shorter than any uncapped draw at the next attempt, truncation and zero fallback included |
| Backoff.WhenCapped | internal/engine/retry.go:41-95 | No draw exceeds the maximum, on any platform, exactly when every product fits int64 or the base delay is within the maximum |
| Ownership.HoldersAreSingle | internal/repository/delivery_repo.go:78-100 | ... so two live holds of one row, in any processes, are one and the same |
| Ownership.HeldRowsAreCurrent | internal/repository/delivery_repo.go:93-99 | ... and a held row is processing, with the claim time and attempt number its holder was given |
| Ownership.BudgetHolds | internal/engine/recorder.go:47-78 | No row and no held task ever goes beyond max(1, MaxRetries), stale holders included |
| Ownership.HoldsEndInTime | internal/engine/worker_pool.go:107-165 | In every timed run a hold is at most HoldBound old |
| Ownership.EventKeepsOwn | internal/repository/delivery_repo.go:78-100 | Any one event keeps single ownership while every hold is at most five minutes old |
| Engine.EventKeepsBase | internal/repository/delivery_repo.go:73-207 | Every event of the engine keeps the invariant of ReachableBase |
| Engine.LocalKeepsClaimer | internal/repository/delivery_repo.go:93-99 | A row left processing is still held by its last claimer, unless that process crashed or lost a statement |
| Engine.DropSettlesRow | internal/engine/recorder.go:102-108 | A step that lets go of a task rewrites its row or counts as a fault |
| Process.StepKeepsOk | internal/engine/worker_pool.go:107-194 | Every step keeps the process invariant: split, capacity, phases, ledger, no panic |
| Process.StepMovesTasks | internal/engine/dispatcher.go:158-195 | Every step moves tasks between batch, queue and workers without losing or duplicating any, but for what it claims and settles |
| Process.SplitConserves | internal/engine/dispatcher.go:156-184 | A split has the tasks of its batch, as multisets |
| Process.TickIsNext | internal/engine/dispatcher.go:104-131 | The next tick is the first one after now on the grid the ticker was started with |
| RetryTimes.HistoryCountsWhatIsStored | internal/engine/recorder.go:72-78 | The retries and delays that RetriesAreCounted adds up are the ones written to the row |
| Process.CleanShutdown | internal/engine/worker_pool.go:170-194 | After a nil Shutdown nothing is held, and claimed = reverted + completed + lost |
| Process.NoSendOnClosedQueue | internal/engine/dispatcher.go:89-96 | A closed pool implies that the only sender has exited |
| Lease.StepKeepsOnTime | internal/engine/worker_pool.go:117-165 | Every step of dispatcher, worker and main keeps the timing invariant behind the bound |
| Lease.TickKeepsOnTime | internal/engine/dispatcher.go:174-176 | Time passing up to the next deadline keeps it too |
| Lease.DefaultsExceedLease | cmd/api/main.go:119-123 | The default settings bound a hold by 840s plus 21 limiter waits, above the 300s lease |
| Lease.SendMakesProgress | internal/engine/worker_pool.go:93-104 | A send that waits on a full queue is at most one longest task behind the end of the send WorkerCount before it, or the claim |
| Lease.SendsTakeTheirTime | internal/engine/dispatcher.go:174-176 | While WorkerCount enqueue timeouts and a claim fit into the longest task, the n-th send of a batch can end 5s + n * EnqueueTimeout after the claim |
| Starvation.PassSpendsUnits | internal/engine/recorder.go:63-75 | Such a poll spends a batch of the older rows' remaining claims, and no event adds to them |
| Starvation.PassingOverTakesOlder | internal/repository/delivery_repo.go:89-90 | A poll that passes over a due row takes a full batch, all from older rows |
| Table.LeavingOut | internal/repository/delivery_repo.go:89-91 | A claim that leaves out a candidate row is full, and none of its rows is younger |
| Traffic.OffEndpointGainsNoHolds | internal/repository/delivery_repo.go:83-88 | While an endpoint is inactive no event raises the number of tasks any process holds for it |
| Traffic.OffStaysOff | internal/repository/endpoint_repo.go:186-222 | Only an operator's write turns an inactive endpoint on |
| Traffic.LoadIsBounded | internal/engine/worker_pool.go:74-87 | A process holds at most a batch, a full queue and one task per worker for an endpoint |
| Claims.EventKeeps | internal/repository/delivery_repo.go:90-99 | Every event keeps the locked rows of open claims apart, claimable, and no younger than the rows still to be visited |
| Claims.LockedRowStays | internal/repository/delivery_repo.go:91 | No event but its own commit writes or deletes a row a claim has locked |
| Ingest.AttemptsHadEndpoints | internal/repository/event_repo.go:73-98 | Every attempt of a committed event was inserted, by its creator, while its endpoint existed; a transaction whose endpoint is gone commits nothing |
| Ingest.StepKeepsIndex | migrations/005_create_events_table.up.sql:15-17 | Every step keeps the unique index over committed and uncommitted rows |
| FanOut.JoinIsExact | internal/repository/subscription_repo.go:125-135 | Whenever subscriptions keep to one application, the join yields exactly the wanted endpoints, each once |
| FanOut.StepKeepsSubscriptions | internal/service/subscription_service.go:45-82 | Every subscription links an endpoint and an event type of one application |
| FanOut.JoinAloneCanRepeat | internal/repository/subscription_repo.go:125-135 | Without that invariant the join, which ignores the event type's owner, can return an endpoint twice |
| Replay.ScopeFiltersNarrow | internal/repository/delivery_repo.go:514-518 | Filters by endpoint and start date replay exactly the unfiltered pairs of that endpoint that have an attempt from that date on |
| Replay.BatchRestricts | internal/repository/delivery_repo.go:505-528 | Restricted to one event, a batch replay is that event's replay, ties included |
| Replay.AnswerIsUnique | internal/repository/delivery_repo.go:467-482 | Without ties in created_at a pair is replayed exactly when its latest row failed |
| Replay.FilterAgreesOnLatest | internal/repository/delivery_repo.go:514-518 | A filter decides a pair as no filter would when the pair's latest row passes it |
| Dispatcher.WhoIsHanded | internal/engine/dispatcher.go:156-184 | Of a batch the pool gets exactly the tasks before the stop signal whose send goes through, and nothing once it is closed |
| Dispatcher.HandedSplits | internal/engine/dispatcher.go:156-184 | For every pattern of failures and every moment of the stop signal, a poll splits its batch |
| Dispatcher.EverySplitHappens | internal/engine/dispatcher.go:156-184 | Conversely some pattern of failures produces any given split |
| Dispatcher.StopAbandonsRest | internal/engine/dispatcher.go:161-169 | Once the stop signal is seen, the rest of the batch is abandoned in order |
| Recording.OutcomeByCase | internal/engine/recorder.go:47-105 | Delivered, failed, dead-lettered and pending each hold exactly when the result, its code and the budget say so; a retry is due in the band of the attempt that failed, with the next number |
| Recording.AnswerDecides | internal/engine/deliverer.go:149-158 | What each response code means for the row: 2xx delivered, 429, 5xx and no response retried while the budget lasts, everything else failed |
| Recording.DecideStaysInBudget | internal/engine/recorder.go:47-78 | A retry is scheduled exactly on a retryable failure with budget left, then with the next number and a wait in (0, MaxDelay]; otherwise the row settles with its number kept |
| Backoff.ScheduleNeverDecreases | internal/engine/retry.go:41-95 | So the capped schedule never decreases, whatever the jitter |
| Backoff.DelayBounds | internal/engine/retry.go:41-95 | Every delay is positive, and at most the maximum unless the product overflows and the base exceeds the maximum |
| Backoff.NextRetryInBand | internal/engine/retry.go:53-95 | Every delay is within a fifth of base * multiplier of its attempt, in whole nanoseconds and under the cap |
| Backoff.LongerDrawsWaitLonger | internal/engine/retry.go:70-82 | A longer draw never means a shorter wait, and draws outside [0, 1] count as its ends |
| Backoff.WithoutJitter | internal/engine/retry.go:67-82 | Without a random source the delay is the step itself, under the cap |
| Backoff.UnsetMeansDefault | internal/engine/retry.go:42-47 | A base or maximum that is not positive stands for 30s or 4h |
| Backoff.DocumentedSchedule | README.md:72-78 | With the default settings every draw of every attempt lies in its published band, the last one capped at four hours |
| Breaker.ResultKeepsSound | internal/repository/endpoint_repo.go:200-208 | A delivery result keeps an active endpoint below the threshold and never reactivates one |
| Breaker.UpdateKeepsSound | internal/service/endpoint_service.go:136-160 | Writing back a stale snapshot keeps an active endpoint below the threshold |
| Table.ClaimThenRevert | internal/repository/delivery_repo.go:189-207 | A claimed and reverted row keeps its attempt number and next_retry_at, and a pending row is still due |
| Table.InsertedAreDue | internal/repository/delivery_repo.go:427-463 | They are first attempts without a retry time, claimable at once when their endpoint is active |
| Table.InsertedRows | internal/repository/delivery_repo.go:427-463 | Inserted attempts are fresh pending rows with new ids, one per target in order, and old rows are untouched |
| Table.DistinctIdsByCount | internal/repository/delivery_repo.go:100 | Distinct ids are a matter of count, so reordering keeps an answer an answer |
| Dispatcher.Dispatcher.PollAndDispatch | internal/engine/dispatcher.go:144-198 | The claimed batch splits into what the pool accepted and what went back to pending; a failed claim changes nothing |
| Dispatcher.Dispatcher.HandOver | internal/engine/dispatcher.go:158-184 | The loop offers every task once, in order, until a stop signal |
| DeliveryRepository.DeliveryRepository.FetchAndClaimPending | internal/repository/delivery_repo.go:73-149 | Run alone, a claim takes exactly the oldest min(BatchSize, due) rows, sorted by attempt number, where due is spelled out column by column: an active endpoint, and pending with no retry time ahead or processing for over five minutes; each task carries its row and each row becomes processing, otherwise unchanged |
| DeliveryRepository.AnswerIsDue | internal/repository/delivery_repo.go:79-90 | A claim answer has only due rows, and all of them unless it is full |
| DeliveryRepository.DeliveryRepository.SelectClaimable | internal/repository/delivery_repo.go:79-92 | Distinct eligible rows, the oldest first, none left out that is older |
| DeliveryRepository.SortByNumber | internal/repository/delivery_repo.go:115 | A sorted permutation |
| DeliveryRepository.ReorderedAnswer | internal/repository/delivery_repo.go:101-115 | Sorting the returned rows leaves a valid claim answer |
| DeliveryRepository.DeliveryRepository.RecordOutcome | internal/repository/delivery_repo.go:152-185 | Writes the outcome over whatever status the row has; not found leaves the table alone |
| DeliveryRepository.DeliveryRepository.RevertToPending | internal/repository/delivery_repo.go:189-207 | Every listed row that exists becomes pending with its number and retry time kept, and no other row changes |
| DeliveryRepository.DeliveryRepository.ManualRetry | internal/repository/delivery_repo.go:379-424 | Resets a failed or dead-lettered row of the application to a first attempt due at once; otherwise changes nothing and tells missing from wrong status |
| DeliveryRepository.DeliveryRepository.CreateAttempts | internal/repository/delivery_repo.go:427-463 | All attempts or none |
| DeliveryRepository.DeliveryRepository.LatestPerPair | internal/repository/delivery_repo.go:505-520 | One latest row for every pair of the scope |
| DeliveryRepository.DeliveryRepository.ReplayFailedAttemptsByEvent | internal/repository/delivery_repo.go:466-496 | Inserts each pair of the event whose latest attempt failed, once, and no other; another application's event has none |
| DeliveryRepository.DeliveryRepository.BatchReplay | internal/repository/delivery_repo.go:499-552 | Inserts each pair once whose latest attempt within the application and all conditions given failed, and no other, with their count; only pairs of the endpoint asked for |
| ResultRecorder.ResultRecorder.OnComplete | internal/engine/recorder.go:43-135 | What it leaves in the row, column by column: status by result, code and budget, the retry due in the band of the attempt that failed, nothing else changed; health only after a stored outcome |
| EventService.EventService.SendEvent | internal/service/event_service.go:61-142 | With other sessions at work between statements: this call creates the event, with exactly one fresh attempt per wanted endpoint, only if the event type and subscriptions were read, every endpoint exists and the commit went through; otherwise it inserts nothing, and answers with an event only if a lookup found the key |
| EventService.EventRepository.CreateWithAttempts | internal/repository/event_repo.go:38-100 | The event and all its attempts, or nothing; succeeds exactly when the key is free, the endpoints exist and the commit goes through |
| EventService.EventRepository.GetByIdempotencyKey | internal/repository/event_repo.go:131-156 | Finds the event of the key exactly when there is one |
| EventService.RowsReach | internal/service/event_service.go:114-121 | One row per joined endpoint is one attempt per wanted endpoint |
| EventService.EventService.ReplayEvent | internal/service/event_service.go:160-200 | Failed pairs of the event or one attempt per subscribed endpoint; errors insert nothing |
| FanOut.GetSubscribedEndpoints | internal/repository/subscription_repo.go:124-171 | The loop over the result rows returns the join, one row per matching subscription |
| FanOut.SubscriptionService.Subscribe | internal/service/subscription_service.go:45-82 | The two ownership checks survive whatever runs before the insert; each refusal has its reason |
| EndpointService.EndpointService.UpdateEndpoint | internal/service/endpoint_service.go:118-163 | Each column of the stored endpoint is the value given, or else the one read; asking for active clears the counter; each refusal exactly for its range; the breaker invariant is kept |
| EndpointService.EndpointRepository.RecordDeliveryResult | internal/repository/endpoint_repo.go:186-222 | Success clears the counter, failure counts only while active and trips at maxFailures, all else unchanged; tripped exactly when this call turned an active endpoint inactive |
| EndpointService.EndpointRepository.Update | internal/repository/endpoint_repo.go:155-182 | Overwrites every mutable column, or reports a missing row |
| EndpointService.EndpointRepository.Create | internal/repository/endpoint_repo.go:40-73 | A new endpoint is active with a clean counter |
| EndpointService.EndpointService.CreateEndpoint | internal/service/endpoint_service.go:62-96 | Refuses exactly a rate limit outside 1 to 1000 |
| WorkerPool.WorkerPool.WorkerLoop | internal/engine/worker_pool.go:107-113 | Drains a closed queue: every queued task completed once, in order |
| WorkerPool.WorkerPool.Shutdown | internal/engine/worker_pool.go:170-188 | A Shutdown that does not time out leaves the pool closed and every accepted task taken, those still queued completed once each, in order |
| WorkerPool.WorkerPool.ProcessTaskSafely | internal/engine/worker_pool.go:117-165 | Whatever happens to a task, the handler is called exactly once for it: with a failure without status code after an aborted wait or a panic, with the delivery's own result otherwise |
| WorkerPool.WorkerPool.Enqueue | internal/engine/worker_pool.go:93-104 | Refuses when closed; an accepted task goes to the end of the queue, behind all the others or behind all but the one a worker takes to make room; a timeout leaves the queue alone |

## Left out

- HTTP transport, headers, signatures and response bodies: a delivery is a success flag and an optional status code, within the 30s client timeout.
- The token bucket: the limiter lets a task through or aborts within 10s.
- PostgreSQL itself: statements are atomic at one instant, row locks, unique indexes and cascades work, and the clock is monotone. A statement whose deadline passes is taken as not applied, except that a claim or outcome reply may be lost after the claim was applied.
- Handlers, routing, tenancy of API keys, validation of URLs, names and payloads, trimming, statistics and pagination.
- Columns other than status, attempt number, next_retry_at, http_status, created_at and updated_at.
- The order in which the fan-out join returns endpoints.
- The length of the 15s drain deadline: the drain may end by completing or by timing out at any moment.
- Goroutine scheduling: in timed runs a dispatcher between two blocking calls takes no time, polls at its tick, and no worker stays idle beside a queued task. The claim statement of a poll may start any time later.
- Float rounding of the backoff: jitter is computed over the reals and truncated toward zero, and a result outside int64 is arbitrary.
- Decision.ConfigurationDecides: which limits and traffic make the token bucket delay a task is not modelled. With `limiterWait` zero the losing run delivers to every endpoint once and needs no bucket; with a positive one each of its slow tasks waits that long, which some workload may never see. `SettingsDecide` is free of that.
- Decision.OverlongHoldLosesOwnership: the same, for a positive `limiterWait`.
- Backlog.LastOfBacklog: the same, for a positive `limiterWait`.
- EventService.EventService.SendEvent: which of several racing calls creates the event is settled in `Ingest`, where the calls are interleaved; this method sees the others only as arbitrary changes between its statements.
- WorkerPool.WorkerPool.WorkerLoop: one worker draining a closed queue; several workers, and workers beside a sender, are steps of `Process`.
- Dispatcher.Dispatcher.DrainUntilWait: the clock stands still and nothing else changes the table during the drain; runs with other writers are runs of `Engine`.
- Engine.EventKeepsBase: in `Engine` a claim is one step at its NOW() with the endpoints of that instant, free to skip rows; `Claims` shows what a claim spread over time amounts to, and the few milliseconds between its NOW() and its commit are not carried over.
- Ingest.OneAttemptPerWantedEndpoint: deleting an endpoint later takes its attempts away again; the rows meant are those the event was created with.
- WorkerPool.WorkerPool.ProcessTaskSafely: a panic inside the completion handler, after which the handler runs a second time for its task.
- WorkerPool.WorkerPool.Enqueue: whether the send goes through before the deadline is an input; when it does is a matter of `Process` and `Lease`.
- EndpointService.EndpointService.CreateEndpoint: URL checks, secret generation and failed inserts.
- EndpointService.EndpointService.UpdateEndpoint: URL checks and failed writes.
