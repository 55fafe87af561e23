/** When a failed attempt may be made again. The wait is chosen by the recorder, stored in the row, and
    kept only because every claim looks at it. */
module RetryTimes {
  import opened Models
  import opened Recording
  import opened Table
  import opened Process
  import opened Engine
  import opened Ownership
  import Backoff

  /** A worker stores the outcome of its attempt at the row. */
  predicate StoresOutcome(s: State, e: Event, id: Id) {
    && e.Local? && e.i in s.procs && e.st.ByWorker? && e.st.ws.RecordOk?
    && e.st.w < |s.procs[e.i].workers| && s.procs[e.i].workers[e.st.w].Recording?
    && s.procs[e.i].workers[e.st.w].task.id == id
  }

  /** It is the n-th attempt, it failed in a way that may pass, and there is budget left for another. */
  predicate SchedulesRetry(cfg: Config, s: State, e: Event, id: Id, n: int) {
    && StoresOutcome(s, e, id)
    && var k := s.procs[e.i].workers[e.st.w];
    && k.task.number == n && n < cfg.retry.maxRetries && !k.result.success
    && (k.result.httpStatus.None? || k.result.httpStatus.value == 429 || 500 <= k.result.httpStatus.value)
  }

  predicate ClaimsRow(e: Event, id: Id) {
    e.Local? && e.st.ByDispatcher? && e.st.d.ClaimBatch? && exists t <- e.st.d.batch :: t.id == id
  }

  /** The row, if it still exists, waits for its retry. */
  predicate WaitsUntil(s: State, id: Id, due: int) {
    id < s.nextId && (id in s.rows ==> s.rows[id].status.Pending? && s.rows[id].nextRetryAt.Some? && s.rows[id].nextRetryAt.value == due)
  }

  lemma RetryIsStored(cfg: Config, s: State, e: Event, id: Id, n: int)
    requires EventEnabled(cfg, s, e) && SchedulesRetry(cfg, s, e, id, n) && RowsBase(cfg, s)
    ensures var c := e.st.ws.chance;
            WaitsUntil(Next(cfg, s, e), id, s.now + Backoff.NextRetry(n, cfg.retry, c.draw, c.wild))
  {
    RowAfter(cfg, s, e.i, e.st, id);
    LocalRows(cfg, s, e.i, e.st);
    hide Next, RowsAfter, Enabled, Backoff.NextRetry;
  }

  /** Only rows whose time has come are claimed. */
  lemma ClaimedIsDue(cfg: Config, s: State, e: Event, id: Id, due: int)
    requires EventEnabled(cfg, s, e) && WaitsUntil(s, id, due) && ClaimsRow(e, id)
    ensures due <= s.now
  {
    var t :| t in e.st.d.batch && t.id == id;
    GainedIsClaimed(cfg, s, e.i, e.st, t);
  }

  lemma LocalKeepsWaiting(cfg: Config, s: State, i: Id, st: Step, id: Id, due: int)
    requires LocalEnabled(cfg, s, i, st) && WaitsUntil(s, id, due)
    requires !StoresOutcome(s, Local(i, st), id) && !ClaimsRow(Local(i, st), id)
    ensures WaitsUntil(Next(cfg, s, Local(i, st)), id, due)
  {
    RowAfter(cfg, s, i, st, id);
    LocalRows(cfg, s, i, st);
    hide Next, RowsAfter, SomeClaim, Decide;
  }

  lemma EventKeepsWaiting(cfg: Config, s: State, e: Event, id: Id, due: int)
    requires EventEnabled(cfg, s, e) && RowsBase(cfg, s) && WaitsUntil(s, id, due)
    requires !StoresOutcome(s, e, id) && !ClaimsRow(e, id)
    ensures WaitsUntil(Next(cfg, s, e), id, due)
  {
    if e.Local? {
      LocalKeepsWaiting(cfg, s, e.i, e.st, id, due);
    } else if e.Insert? {
      InsertedRows(s.rows, s.nextId, e.targets, s.now);
    }
    hide LocalEnabled, Apply, RowsAfter, EndpointsAfter, HistoryAfter, StoresOutcome, ClaimsRow, InsertRows;
  }

  lemma ClockRises(cfg: Config, s: State, e: Event)
    requires EventEnabled(cfg, s, e)
    ensures s.now <= Next(cfg, s, e).now
  {
  }

  /** Until then, and until somebody stores another outcome, the row waits. */
  lemma {:induction false} StaysWaiting(cfg: Config, states: seq<State>, events: seq<Event>, k: nat, m: nat, id: Id, due: int)
    requires cfg.Valid() && Run(cfg, states, events) && states[0] == Initial() && k <= m < |states|
    requires WaitsUntil(states[k], id, due)
    requires forall l :: k <= l < m ==> !StoresOutcome(states[l], events[l], id)
    ensures WaitsUntil(states[m], id, due) || due <= states[m].now
    decreases m - k
  {
    hide Run, Initial, Next, EventEnabled, WaitsUntil, StoresOutcome, ClaimsRow;
    hide RowsBase, ProcsBase, TasksBase, EndpointsBase, HistoryBase, ClaimersBase;
    RunLength(cfg, states, events);
    if k < m {
      ReachableBase(cfg, states, events, m - 1);
      RunStep(cfg, states, events, m - 1);
      StaysWaiting(cfg, states, events, k, m - 1, id, due);
      ClockRises(cfg, states[m - 1], events[m - 1]);
      if WaitsUntil(states[m - 1], id, due) {
        if ClaimsRow(events[m - 1], id) {
          ClaimedIsDue(cfg, states[m - 1], events[m - 1], id, due);
        } else {
          EventKeepsWaiting(cfg, states[m - 1], events[m - 1], id, due);
        }
      }
    }
  }

  /** After the n-th attempt failed and left budget for another, no claim takes the row before the delay
      drawn for n has passed since, unless another outcome of the row is stored in between. */
  lemma RetryWaitsItsDelay(cfg: Config, states: seq<State>, events: seq<Event>, k: nat, m: nat, id: Id, n: int)
    requires cfg.Valid() && Run(cfg, states, events) && states[0] == Initial() && k < m < |events|
    requires SchedulesRetry(cfg, states[k], events[k], id, n) && ClaimsRow(events[m], id)
    requires forall l :: k < l < m ==> !StoresOutcome(states[l], events[l], id)
    ensures var c := events[k].st.ws.chance;
            states[k].now + Backoff.NextRetry(n, cfg.retry, c.draw, c.wild) <= states[m].now
  {
    var c := events[k].st.ws.chance;
    var due := states[k].now + Backoff.NextRetry(n, cfg.retry, c.draw, c.wild);
    hide Run, Initial, Next, EventEnabled, WaitsUntil, StoresOutcome, ClaimsRow;
    hide RowsBase, ProcsBase, TasksBase, EndpointsBase, HistoryBase, ClaimersBase, Backoff.NextRetry;
    RunLength(cfg, states, events);
    RunStep(cfg, states, events, k);
    RunStep(cfg, states, events, m);
    ReachableBase(cfg, states, events, k);
    RetryIsStored(cfg, states[k], events[k], id, n);
    StaysWaiting(cfg, states, events, k + 1, m, id, due);
    if WaitsUntil(states[m], id, due) {
      ClaimedIsDue(cfg, states[m], events[m], id, due);
    }
  }

  /** The delays that the history of a row adds up are the ones its retries are stored with. */
  lemma HistoryCountsWhatIsStored(cfg: Config, s: State, e: Event, id: Id, n: int)
    requires EventEnabled(cfg, s, e) && SchedulesRetry(cfg, s, e, id, n)
    ensures var s' := Next(cfg, s, e);
            && id in s'.rows && s'.rows[id].nextRetryAt.Some? && id in s'.history.waited && id in s'.history.retries
            && s'.history.waited[id] - (if id in s.history.waited then s.history.waited[id] else 0) == s'.rows[id].nextRetryAt.value - s.now
            && s'.history.retries[id] == (if id in s.history.retries then s.history.retries[id] else 0) + 1
  {
    RowAfter(cfg, s, e.i, e.st, id);
    LocalRows(cfg, s, e.i, e.st);
    hide RowsAfter, Enabled, Apply, EndpointsAfter, Delay;
  }

  /** So with the default settings a row is not claimed again within 24s of its first failed attempt,
      96s of the second, 8 minutes of the third and 48 minutes of the fourth. */
  lemma DefaultWaits(limiterWait: nat, states: seq<State>, events: seq<Event>, k: nat, m: nat, id: Id, n: int)
    requires limiterWait <= LIMITER_TIMEOUT && var cfg := Defaults(limiterWait);
             && Run(cfg, states, events) && states[0] == Initial() && k < m < |events|
             && SchedulesRetry(cfg, states[k], events[k], id, n)
    requires ClaimsRow(events[m], id) && forall l :: k < l < m ==> !StoresOutcome(states[l], events[l], id)
    ensures states[k].now + (match n case 1 => 24 case 2 => 96 case 3 => 480 case 4 => 2880 case _ => 24) * SECOND <= states[m].now
  {
    var c := events[k].st.ws.chance;
    assert Defaults(limiterWait).Valid() && n < 5;
    hide Run, Initial, StoresOutcome, ClaimsRow, Backoff.NextRetry;
    RetryWaitsItsDelay(Defaults(limiterWait), states, events, k, m, id, n);
    Backoff.DocumentedSchedule(n, c.draw, c.wild);
  }
}
