/** Single ownership of claimed rows, and what it buys: RecordOutcome and RevertToPending check no
    status, so the life cycle of a row is only as good as the lease its claim rests on. */
module Ownership {
  import opened Arithmetic
  import opened Models
  import opened Recording
  import opened Table
  import opened Process
  import opened Lease
  import opened Engine

  // ---------- the ownership invariant ----------

  /** No process holds the same task twice. */
  ghost predicate Once(s: State) {
    forall i, t | i in s.procs && t in Tasks(s.procs[i]) :: Tasks(s.procs[i])[t] == 1
  }

  /** No two holds, in any processes, are of the same row. */
  ghost predicate Alone(s: State) {
    forall i, j, t, u | i in s.procs && j in s.procs && t in Tasks(s.procs[i]) && u in Tasks(s.procs[j]) && t.id == u.id ::
      i == j && t == u
  }

  predicate CurrentTask(s: State, t: Task) {
    t.id in s.rows ==>
      && s.rows[t.id].status.Processing?
      && s.rows[t.id].updatedAt == t.claimedAt
      && s.rows[t.id].number == t.number
  }

  /** Every held row is processing, as its holder's claim left it. */
  ghost predicate Current(s: State) {
    forall i, t | i in s.procs && t in Tasks(s.procs[i]) :: CurrentTask(s, t)
  }

  function Get(m: map<Id, nat>, id: Id): nat {
    if id in m then m[id] else 0
  }

  /** The attempt number counts the retries scheduled, and each waited at most the maximum delay. */
  predicate Counted(cfg: Config, s: State) {
    forall id <- s.rows :: CountedRow(cfg, s.rows[id], Get(s.history.retries, id), Get(s.history.waited, id))
  }

  ghost predicate Own(cfg: Config, s: State) {
    Once(s) && Alone(s) && Current(s) && Counted(cfg, s)
  }

  /** Every live hold is at most five minutes old. */
  ghost predicate LeaseHeld(s: State) {
    forall i, t | i in s.procs && t in Tasks(s.procs[i]) :: s.now <= t.claimedAt + LEASE
  }

  // ---------- process steps keep it ----------

  /** A held row is not claimable while the lease lasts. */
  lemma ClaimsAvoidHeldRows(cfg: Config, s: State, i: Id, st: Step, t: Task, j: Id, u: Task)
    requires Current(s) && LeaseHeld(s) && LocalEnabled(cfg, s, i, st) && t in Gained(st)
    requires j in s.procs && u in Tasks(s.procs[j])
    ensures t.id != u.id
  {
    GainedIsClaimed(cfg, s, i, st, t);
    hide Tasks, LocalEnabled, Enabled, SomeClaim;
    assert CurrentTask(s, u);
  }

  lemma DistinctIdsOnce(batch: seq<Task>, t: Task)
    requires DistinctIds(batch)
    ensures multiset(batch)[t] <= 1
  {
    if batch != [] {
      assert batch == [batch[0]] + batch[1..];
      DistinctIdsOnce(batch[1..], t);
      if t == batch[0] {
        assert t !in batch[1..];
      }
    }
  }

  lemma GainedOnce(cfg: Config, s: State, i: Id, st: Step)
    requires LocalEnabled(cfg, s, i, st)
    ensures forall t :: Gained(st)[t] <= 1
    ensures forall t, u | t in Gained(st) && u in Gained(st) && t.id == u.id :: t == u
  {
    forall t ensures Gained(st)[t] <= 1 {
      if st.ByDispatcher? && st.d.ClaimBatch? {
        DistinctIdsOnce(st.d.batch, t);
      }
    }
    forall t, u | t in Gained(st) && u in Gained(st) && t.id == u.id ensures t == u {
      GainedIsClaimed(cfg, s, i, st, t);
      GainedIsClaimed(cfg, s, i, st, u);
    }
  }

  lemma StaysOnce(cfg: Config, s: State, i: Id, st: Step, t: Task)
    requires Once(s) && Current(s) && LeaseHeld(s) && LocalEnabled(cfg, s, i, st)
    requires t in Tasks(Apply(cfg, s.procs[i], st, s.now))
    ensures Tasks(Apply(cfg, s.procs[i], st, s.now))[t] == 1
  {
    TasksAfter(cfg, s, i, st);
    GainedOnce(cfg, s, i, st);
    hide Tasks, Apply, Gained, Dropped, Enabled, SomeClaim, Current, LeaseHeld;
    var p, p' := s.procs[i], Apply(cfg, s.procs[i], st, s.now);
    assert Tasks(p')[t] + Dropped(cfg, p, st, s.now)[t] == Tasks(p)[t] + Gained(st)[t];
    if t in Gained(st) && t in Tasks(p) {
      ClaimsAvoidHeldRows(cfg, s, i, st, t, i, t);
    }
  }

  lemma LocalKeepsOnce(cfg: Config, s: State, i: Id, st: Step)
    requires Once(s) && Current(s) && LeaseHeld(s) && LocalEnabled(cfg, s, i, st)
    ensures Once(Next(cfg, s, Local(i, st)))
  {
    hide Tasks, Apply, LocalEnabled, RowsAfter, EndpointsAfter, HistoryAfter, Current, LeaseHeld;
    var s' := Next(cfg, s, Local(i, st));
    forall j, t | j in s'.procs && t in Tasks(s'.procs[j]) ensures Tasks(s'.procs[j])[t] == 1 {
      if j == i {
        StaysOnce(cfg, s, i, st, t);
      }
    }
  }

  /** What process `j` may hold after a step of process `i`. */
  ghost predicate MayHold(s: State, i: Id, st: Step, j: Id, t: Task)
    requires j in s.procs
  {
    t in Tasks(s.procs[j]) || (j == i && t in Gained(st))
  }

  lemma HeldAfter(cfg: Config, s: State, i: Id, st: Step, j: Id, t: Task)
    requires LocalEnabled(cfg, s, i, st)
    requires var s' := Next(cfg, s, Local(i, st)); j in s'.procs && t in Tasks(s'.procs[j])
    ensures j in s.procs && MayHold(s, i, st, j, t)
  {
    TasksAfter(cfg, s, i, st);
    hide Tasks, Apply, Gained, Dropped, Enabled, SomeClaim, RowsAfter, EndpointsAfter, HistoryAfter;
  }

  lemma StaysAlone(cfg: Config, s: State, i: Id, st: Step, j: Id, k: Id, t: Task, u: Task)
    requires Alone(s) && Current(s) && LeaseHeld(s) && LocalEnabled(cfg, s, i, st)
    requires j in s.procs && k in s.procs && MayHold(s, i, st, j, t) && MayHold(s, i, st, k, u) && t.id == u.id
    ensures j == k && t == u
  {
    GainedOnce(cfg, s, i, st);
    hide Tasks, Gained, LocalEnabled, Current, LeaseHeld;
    var newT, newU := j == i && t in Gained(st), k == i && u in Gained(st);
    if newT && !newU {
      ClaimsAvoidHeldRows(cfg, s, i, st, t, k, u);
    } else if newU && !newT {
      ClaimsAvoidHeldRows(cfg, s, i, st, u, j, t);
    }
  }

  lemma LocalKeepsAlone(cfg: Config, s: State, i: Id, st: Step)
    requires Alone(s) && Current(s) && LeaseHeld(s) && LocalEnabled(cfg, s, i, st)
    ensures Alone(Next(cfg, s, Local(i, st)))
  {
    hide Next, Tasks, LocalEnabled, Current, LeaseHeld, MayHold;
    var s' := Next(cfg, s, Local(i, st));
    forall j, k, t, u | j in s'.procs && k in s'.procs && t in Tasks(s'.procs[j]) && u in Tasks(s'.procs[k]) && t.id == u.id
      ensures j == k && t == u
    {
      HeldAfter(cfg, s, i, st, j, t);
      HeldAfter(cfg, s, i, st, k, u);
      StaysAlone(cfg, s, i, st, j, k, t, u);
    }
  }

  /** A write that is not a claim is made by a holder, which lets go of the row with it. */
  lemma WriteDrops(cfg: Config, s: State, i: Id, st: Step, id: Id)
    requires LocalEnabled(cfg, s, i, st)
    requires ChangeOf(cfg, s, i, st, id).Reverted? || ChangeOf(cfg, s, i, st, id).Recorded?
    ensures exists d :: d in Dropped(cfg, s.procs[i], st, s.now) && d.id == id && d in Tasks(s.procs[i])
  {
    var p := s.procs[i];
    if st.ByWorker? {
      RecordingIsHeld(cfg, s, i, st);
      assert p.workers[st.w].task in Dropped(cfg, p, st, s.now);
    } else {
      var d :| d in p.disp.failed && d.id == id;
      assert d in DispatcherTasks(p.disp);
      assert d in Dropped(cfg, p, st, s.now);
    }
  }

  lemma HeldRowIsNotClaimed(cfg: Config, s: State, i: Id, st: Step, j: Id, t: Task)
    requires Current(s) && LeaseHeld(s) && LocalEnabled(cfg, s, i, st)
    requires j in s.procs && t in Tasks(s.procs[j])
    ensures !ChangeOf(cfg, s, i, st, t.id).Claimed?
  {
    hide Tasks, Gained, Enabled, SomeClaim, ChangeOf, Current, LeaseHeld;
    forall g | g in Gained(st) ensures g.id != t.id {
      ClaimsAvoidHeldRows(cfg, s, i, st, g, j, t);
    }
    if ChangeOf(cfg, s, i, st, t.id).Claimed? {
      ClaimedIsGained(cfg, s, i, st, t.id);
    }
  }

  lemma OnlyTheHolderWrites(cfg: Config, s: State, i: Id, st: Step, j: Id, t: Task)
    requires Alone(s) && LocalEnabled(cfg, s, i, st)
    requires j in s.procs && t in Tasks(s.procs[j])
    ensures ChangeOf(cfg, s, i, st, t.id).Reverted? || ChangeOf(cfg, s, i, st, t.id).Recorded?
            ==> i == j && t in Dropped(cfg, s.procs[i], st, s.now)
  {
    hide Tasks, Dropped, Enabled, SomeClaim, ChangeOf;
    if ChangeOf(cfg, s, i, st, t.id).Reverted? || ChangeOf(cfg, s, i, st, t.id).Recorded? {
      WriteDrops(cfg, s, i, st, t.id);
    }
  }

  lemma LocalKeepsCurrentTask(cfg: Config, s: State, i: Id, st: Step, j: Id, t: Task)
    requires Once(s) && Alone(s) && Current(s) && LeaseHeld(s) && LocalEnabled(cfg, s, i, st)
    requires var s' := Next(cfg, s, Local(i, st)); j in s'.procs && t in Tasks(s'.procs[j])
    ensures CurrentTask(Next(cfg, s, Local(i, st)), t)
  {
    TasksAfter(cfg, s, i, st);
    RowAfter(cfg, s, i, st, t.id);
    hide Tasks, Apply, Gained, Dropped, Enabled, SomeClaim, RowsAfter, EndpointsAfter, HistoryAfter, ChangeOf, Alone, LeaseHeld;
    if j == i && t in Gained(st) {
      GainedIsClaimed(cfg, s, i, st, t);
    } else {
      HeldRowIsNotClaimed(cfg, s, i, st, j, t);
      OnlyTheHolderWrites(cfg, s, i, st, j, t);
      assert CurrentTask(s, t);
    }
  }

  lemma LocalKeepsCurrent(cfg: Config, s: State, i: Id, st: Step)
    requires Once(s) && Alone(s) && Current(s) && LeaseHeld(s) && LocalEnabled(cfg, s, i, st)
    ensures Current(Next(cfg, s, Local(i, st)))
  {
    hide Next, Tasks, LocalEnabled, Once, Alone, Current, LeaseHeld, CurrentTask;
    var s' := Next(cfg, s, Local(i, st));
    assert Current(s') by {
      forall j, t | j in s'.procs && t in Tasks(s'.procs[j]) ensures CurrentTask(s', t) {
        LocalKeepsCurrentTask(cfg, s, i, st, j, t);
      }
      CurrentIntro(s');
    }
  }

  lemma CurrentIntro(s: State)
    requires forall i, t | i in s.procs && t in Tasks(s.procs[i]) :: CurrentTask(s, t)
    ensures Current(s)
  {
  }

  lemma HistoryCounts(cfg: Config, s: State, i: Id, st: Step, id: Id)
    requires LocalEnabled(cfg, s, i, st)
    ensures var h, h' := s.history, HistoryAfter(cfg, s, i, st);
            if ChangeOf(cfg, s, i, st, id).Recorded? && RowsAfter(cfg, s, i, st)[id].status.Pending?
            then && Get(h'.retries, id) == Get(h.retries, id) + 1
                 && Get(h'.waited, id) == Get(h.waited, id) + Delay(s.procs[i].workers[st.w].task.number, cfg.retry, st.ws.chance)
            else Get(h'.retries, id) == Get(h.retries, id) && Get(h'.waited, id) == Get(h.waited, id)
  {
  }

  predicate CountedRow(cfg: Config, row: Attempt, retries: nat, waited: nat) {
    row.number - 1 == retries && waited <= retries * cfg.retry.maxDelay
  }

  lemma OneMoreRetry(cfg: Config, row: Attempt, row': Attempt, retries: nat, waited: nat, delay: nat)
    requires CountedRow(cfg, row, retries, waited) && row'.number == row.number + 1 && delay <= cfg.retry.maxDelay
    ensures CountedRow(cfg, row', retries + 1, waited + delay)
  {
  }

  lemma RecordKeepsCounted(cfg: Config, s: State, i: Id, st: Step, id: Id)
    requires cfg.Valid() && TasksBase(cfg, s) && Current(s) && Counted(cfg, s) && LocalEnabled(cfg, s, i, st)
    requires ChangeOf(cfg, s, i, st, id).Recorded?
    ensures st.ByWorker? && st.ws.RecordOk?
    ensures id in s.rows && s.rows[id].status.Processing? && s.procs[i].workers[st.w].task.number == s.rows[id].number
    ensures var row' := RowsAfter(cfg, s, i, st)[id];
            && (row'.status.Pending? ==> row'.number == s.rows[id].number + 1 && row'.nextRetryAt.Some?
                                         && Delay(s.rows[id].number, cfg.retry, st.ws.chance) <= cfg.retry.maxDelay)
            && (!row'.status.Pending? ==> row'.number == s.rows[id].number && Terminal(row'.status))
  {
    RecordingIsHeld(cfg, s, i, st);
    var k := s.procs[i].workers[st.w];
    assert CurrentTask(s, k.task);
    DecideStaysInBudget(k.task, k.result, cfg.retry, s.now, st.ws.chance);
    hide Delay, Tasks;
  }

  lemma LocalKeepsCountedRow(cfg: Config, s: State, i: Id, st: Step, id: Id)
    requires cfg.Valid() && TasksBase(cfg, s) && Current(s) && Counted(cfg, s) && LocalEnabled(cfg, s, i, st)
    requires id in s.rows
    ensures var h := HistoryAfter(cfg, s, i, st);
            CountedRow(cfg, RowsAfter(cfg, s, i, st)[id], Get(h.retries, id), Get(h.waited, id))
  {
    hide Tasks, Enabled, SomeClaim, RowsAfter, HistoryAfter, Delay, ChangeOf, Current, TasksBase, Get, Decide;
    RowAfter(cfg, s, i, st, id);
    HistoryCounts(cfg, s, i, st, id);
    if ChangeOf(cfg, s, i, st, id).Recorded? {
      RecordKeepsCounted(cfg, s, i, st, id);
      if RowsAfter(cfg, s, i, st)[id].status.Pending? {
        OneMoreRetry(cfg, s.rows[id], RowsAfter(cfg, s, i, st)[id], Get(s.history.retries, id), Get(s.history.waited, id),
                     Delay(s.rows[id].number, cfg.retry, st.ws.chance));
      }
    }
  }

  lemma LocalKeepsCounted(cfg: Config, s: State, i: Id, st: Step)
    requires cfg.Valid() && TasksBase(cfg, s) && Current(s) && Counted(cfg, s) && LocalEnabled(cfg, s, i, st)
    ensures Counted(cfg, Next(cfg, s, Local(i, st)))
  {
    hide Tasks, Apply, Enabled, SomeClaim, RowsAfter, EndpointsAfter, HistoryAfter, Get, Current, TasksBase;
    var s' := Next(cfg, s, Local(i, st));
    forall id | id in s'.rows ensures CountedRow(cfg, s'.rows[id], Get(s'.history.retries, id), Get(s'.history.waited, id)) {
      RowAfter(cfg, s, i, st, id);
      LocalKeepsCountedRow(cfg, s, i, st, id);
    }
  }

  lemma LocalKeepsOwn(cfg: Config, s: State, i: Id, st: Step)
    requires cfg.Valid() && Base(cfg, s) && Own(cfg, s) && LeaseHeld(s) && LocalEnabled(cfg, s, i, st)
    ensures Own(cfg, Next(cfg, s, Local(i, st)))
  {
    LocalKeepsOnce(cfg, s, i, st);
    LocalKeepsAlone(cfg, s, i, st);
    LocalKeepsCurrent(cfg, s, i, st);
    LocalKeepsCounted(cfg, s, i, st);
    hide Next, Once, Alone, Current, Counted;
  }

  // ---------- so does every other event ----------

  lemma InsertKeepsOwn(cfg: Config, s: State, targets: seq<(Id, Id)>)
    requires Base(cfg, s) && Own(cfg, s) && EventEnabled(cfg, s, Insert(targets))
    ensures Own(cfg, Next(cfg, s, Insert(targets)))
  {
    hide Tasks, Ok, HoldsRow, ClaimersBase, EndpointsBase;
    InsertedRows(s.rows, s.nextId, targets, s.now);
    var s' := Next(cfg, s, Insert(targets));
    forall id | id in s'.rows && id !in s.rows ensures s'.rows[id].number == 1 {
      assert s'.rows[s.nextId + (id - s.nextId)] == NewAttempt(targets[id - s.nextId].0, targets[id - s.nextId].1, s.now);
    }
    forall i, t | i in s'.procs && t in Tasks(s'.procs[i]) ensures CurrentTask(s', t) {
      assert CurrentTask(s, t);
    }
  }

  lemma ManualRetryKeepsOwn(cfg: Config, s: State, id: Id)
    requires Own(cfg, s)
    ensures Own(cfg, Next(cfg, s, ManualRetry(id)))
  {
    hide Tasks;
    var s' := Next(cfg, s, ManualRetry(id));
    forall i, t | i in s'.procs && t in Tasks(s'.procs[i]) ensures CurrentTask(s', t) {
      assert CurrentTask(s, t);
    }
  }

  /** No row is written, rows may go, processes may go, and new ones hold nothing. */
  lemma UntouchedKeepsOwn(cfg: Config, s: State, s': State)
    requires Own(cfg, s) && s'.history == s.history
    requires forall id <- s'.rows :: id in s.rows && s'.rows[id] == s.rows[id]
    requires forall i <- s'.procs :: (i in s.procs && s'.procs[i] == s.procs[i]) || Tasks(s'.procs[i]) == multiset{}
    ensures Own(cfg, s')
  {
    hide Tasks;
    forall i, t | i in s'.procs && t in Tasks(s'.procs[i]) ensures i in s.procs && s'.procs[i] == s.procs[i] && CurrentTask(s', t) {
      assert CurrentTask(s, t);
    }
  }

  lemma OtherEventsKeepOwn(cfg: Config, s: State, e: Event)
    requires cfg.Valid() && Own(cfg, s) && EventEnabled(cfg, s, e)
    requires !e.Local? && !e.Insert? && !e.ManualRetry?
    ensures Own(cfg, Next(cfg, s, e))
  {
    hide Tasks, LocalEnabled, Own;
    StartedOk(cfg, s.now);
    UntouchedKeepsOwn(cfg, s, Next(cfg, s, e));
  }

  lemma EventKeepsOwn(cfg: Config, s: State, e: Event)
    requires cfg.Valid() && Base(cfg, s) && Own(cfg, s) && LeaseHeld(s) && EventEnabled(cfg, s, e)
    ensures Own(cfg, Next(cfg, s, e))
  {
    hide Base, Own, LeaseHeld, Next;
    match e
    case Local(i, st) => LocalKeepsOwn(cfg, s, i, st);
    case Insert(targets) => InsertKeepsOwn(cfg, s, targets);
    case ManualRetry(id) => ManualRetryKeepsOwn(cfg, s, id);
    case _ => OtherEventsKeepOwn(cfg, s, e);
  }

  // ---------- the life cycle of a row ----------

  /** What one event may do to a row that stays in the table. */
  predicate LegalMove(before: Attempt, after: Attempt, e: Event, id: Id) {
    match before.status
    case Pending => after.status.Pending? || after.status.Processing?
    case Processing =>
      || after.number == before.number
      || (after.status.Pending? && after.number == before.number + 1 && after.nextRetryAt.Some?)
    case Delivered => after == before
    case _ => after == before || (e == ManualRetry(id) && after.status.Pending? && after.number == 1)
  }

  /** With the lease held, the unguarded writes only ever hit processing rows: delivered is never
      left, and failed or dead-lettered only by a manual retry of that row. */
  lemma LifeCycle(cfg: Config, s: State, e: Event, id: Id)
    requires cfg.Valid() && Base(cfg, s) && Own(cfg, s) && LeaseHeld(s) && EventEnabled(cfg, s, e)
    requires id in s.rows && id in Next(cfg, s, e).rows
    ensures LegalMove(s.rows[id], Next(cfg, s, e).rows[id], e, id)
  {
    if e.Local? {
      LocalLifeCycle(cfg, s, e.i, e.st, id);
    } else if e.Insert? {
      InsertedRows(s.rows, s.nextId, e.targets, s.now);
    }
    hide Tasks, LocalEnabled, Own, LeaseHeld, ProcsBase, TasksBase, ClaimersBase, EndpointsBase;
  }

  lemma LocalLifeCycle(cfg: Config, s: State, i: Id, st: Step, id: Id)
    requires cfg.Valid() && TasksBase(cfg, s) && Own(cfg, s) && LocalEnabled(cfg, s, i, st) && id in s.rows
    ensures LegalMove(s.rows[id], Next(cfg, s, Local(i, st)).rows[id], Local(i, st), id)
  {
    hide Tasks, Apply, Dropped, Enabled, RowsAfter, EndpointsAfter, HistoryAfter;
    RowAfter(cfg, s, i, st, id);
    if ChangeOf(cfg, s, i, st, id).Reverted? || ChangeOf(cfg, s, i, st, id).Recorded? {
      WriteDrops(cfg, s, i, st, id);
      var d :| d in Tasks(s.procs[i]) && d.id == id;
      assert CurrentTask(s, d);
    }
    if ChangeOf(cfg, s, i, st, id).Recorded? {
      RecordKeepsCounted(cfg, s, i, st, id);
    }
  }

  // ---------- over whole runs ----------

  /** In every reachable state, stale holders included: the attempt budget of every row and every
      held task, the breaker threshold of every endpoint and every stale snapshot, the ledger and
      phases of every process. */
  lemma {:induction false} ReachableBase(cfg: Config, states: seq<State>, events: seq<Event>, k: nat)
    requires cfg.Valid() && Run(cfg, states, events) && states[0] == Initial() && k < |states|
    ensures Base(cfg, states[k])
  {
    if k == 0 {
      InitialBase(cfg);
    } else {
      ReachableBase(cfg, states, events, k - 1);
      hide Base, Next;
      EventKeepsBase(cfg, states[k - 1], events[k - 1]);
    }
  }

  /** The attempt budget, in every run: no row and no held task goes beyond max(1, MaxRetries). */
  lemma BudgetHolds(cfg: Config, states: seq<State>, events: seq<Event>, k: nat)
    requires cfg.Valid() && Run(cfg, states, events) && states[0] == Initial() && k < |states|
    ensures forall id <- states[k].rows :: 1 <= states[k].rows[id].number <= Max(1, cfg.retry.maxRetries)
    ensures forall i, t | i in states[k].procs && t in Tasks(states[k].procs[i]) :: 1 <= t.number <= Max(1, cfg.retry.maxRetries)
  {
    ReachableBase(cfg, states, events, k);
    hide Tasks, ProcsBase, EndpointsBase, HistoryBase, ClaimersBase, Next;
  }

  /** The breaker threshold, in every run: results, stale updates and new endpoints interleave as
      they like, and an active endpoint stays below it. */
  lemma ActiveStaysBelowThreshold(cfg: Config, states: seq<State>, events: seq<Event>, k: nat, ep: Id)
    requires cfg.Valid() && Run(cfg, states, events) && states[0] == Initial() && k < |states|
    requires ep in states[k].endpoints && states[k].endpoints[ep].status.Active?
    ensures 0 <= states[k].endpoints[ep].failures < cfg.maxFailures
  {
    ReachableBase(cfg, states, events, k);
    hide ProcsBase, TasksBase, HistoryBase, ClaimersBase, RowsBase, Next;
  }

  /** If every hold ended within five minutes of its claim so far, ownership is single. */
  lemma {:induction false} SingleOwnership(cfg: Config, states: seq<State>, events: seq<Event>, k: nat)
    requires cfg.Valid() && Run(cfg, states, events) && states[0] == Initial() && k < |states|
    requires forall m :: 0 <= m < k ==> LeaseHeld(states[m])
    ensures Own(cfg, states[k])
  {
    if k > 0 {
      SingleOwnership(cfg, states, events, k - 1);
      ReachableBase(cfg, states, events, k - 1);
      hide Base, Own, LeaseHeld, Next;
      EventKeepsOwn(cfg, states[k - 1], events[k - 1]);
    }
  }

  /** Then two live holds of one row are the same hold of the same process. */
  lemma HoldersAreSingle(cfg: Config, states: seq<State>, events: seq<Event>, k: nat, i: Id, j: Id, t: Task, u: Task)
    requires cfg.Valid() && Run(cfg, states, events) && states[0] == Initial() && k < |states|
    requires forall m :: 0 <= m < k ==> LeaseHeld(states[m])
    requires i in states[k].procs && t in Tasks(states[k].procs[i])
    requires j in states[k].procs && u in Tasks(states[k].procs[j]) && u.id == t.id
    ensures i == j && t == u
  {
    SingleOwnership(cfg, states, events, k);
    hide Run, Initial, LeaseHeld, Once, Current, Counted, Tasks;
  }

  /** Then every held row is processing, claimed when its holder claimed it and with its number. */
  lemma HeldRowsAreCurrent(cfg: Config, states: seq<State>, events: seq<Event>, k: nat, i: Id, t: Task)
    requires cfg.Valid() && Run(cfg, states, events) && states[0] == Initial() && k < |states|
    requires forall m :: 0 <= m < k ==> LeaseHeld(states[m])
    requires i in states[k].procs && t in Tasks(states[k].procs[i])
    ensures CurrentTask(states[k], t)
  {
    SingleOwnership(cfg, states, events, k);
    hide Run, Initial, LeaseHeld, Once, Alone, Counted, Tasks;
  }

  /** Then the attempt number counts the retries scheduled since the row was created or manually
      retried, and the delays before them total at most (max(1, MaxRetries) - 1) * MaxDelay. */
  lemma RetriesAreCounted(cfg: Config, states: seq<State>, events: seq<Event>, k: nat, id: Id)
    requires cfg.Valid() && Run(cfg, states, events) && states[0] == Initial() && k < |states|
    requires forall m :: 0 <= m < k ==> LeaseHeld(states[m])
    requires id in states[k].rows
    ensures var h, row := states[k].history, states[k].rows[id];
            && row.number - 1 == Get(h.retries, id)
            && Get(h.waited, id) <= (Max(1, cfg.retry.maxRetries) - 1) * cfg.retry.maxDelay
  {
    SingleOwnership(cfg, states, events, k);
    BudgetHolds(cfg, states, events, k);
    hide Run, Initial, LeaseHeld, Once, Alone, Current, Tasks, Get;
    var h := states[k].history;
    assert CountedRow(cfg, states[k].rows[id], Get(h.retries, id), Get(h.waited, id));
    TimesMonotone(Get(h.retries, id), cfg.AttemptBudget() - 1, cfg.retry.maxDelay);
  }

  /** Time only passes as far as every process's deadlines allow. */
  ghost predicate Timely(cfg: Config, s: State, e: Event) {
    e.Tick? ==> forall i <- s.procs :: Due(cfg, s.procs[i], s.now + e.d)
  }

  ghost predicate TimedRun(cfg: Config, states: seq<State>, events: seq<Event>) {
    && Run(cfg, states, events)
    && forall k :: 0 <= k < |events| ==> Timely(cfg, states[k], events[k])
  }

  ghost predicate OnSchedule(cfg: Config, s: State)
    requires cfg.Valid()
  {
    forall i <- s.procs :: OnTime(cfg, s.procs[i], s.now)
  }

  lemma EventKeepsSchedule(cfg: Config, s: State, e: Event)
    requires cfg.Valid() && ProcsBase(cfg, s) && OnSchedule(cfg, s) && EventEnabled(cfg, s, e) && Timely(cfg, s, e)
    ensures OnSchedule(cfg, Next(cfg, s, e))
  {
    hide Ok, OnTime, Due, Apply, Enabled, RowsAfter, EndpointsAfter, HistoryAfter, Started, SomeClaim;
    var s' := Next(cfg, s, e);
    StartedOnTime(cfg, s.now, s.now);
    forall i | i in s'.procs ensures OnTime(cfg, s'.procs[i], s'.now) {
      if e.Local? && e.i == i {
        StepKeepsOnTime(cfg, s.procs[i], e.st, s.now);
      } else if e.Tick? {
        TickKeepsOnTime(cfg, s.procs[i], s.now, s'.now);
      }
    }
  }

  lemma {:induction false} ReachableSchedule(cfg: Config, states: seq<State>, events: seq<Event>, k: nat)
    requires cfg.Valid() && TimedRun(cfg, states, events) && states[0] == Initial() && k < |states|
    ensures OnSchedule(cfg, states[k])
  {
    if k == 0 {
      hide OnTime;
    } else {
      hide Next, OnSchedule, Timely, ProcsBase, EventEnabled, Initial;
      ReachableSchedule(cfg, states, events, k - 1);
      ReachableBase(cfg, states, events, k - 1);
      EventKeepsSchedule(cfg, states[k - 1], events[k - 1]);
    }
  }

  /** In a timed run no process ever holds a row beyond HoldBound. */
  lemma HoldsEndInTime(cfg: Config, states: seq<State>, events: seq<Event>, k: nat, i: Id, t: Task)
    requires cfg.Valid() && TimedRun(cfg, states, events) && states[0] == Initial() && k < |states|
    requires i in states[k].procs && t in Tasks(states[k].procs[i])
    ensures states[k].now <= t.claimedAt + HoldBound(cfg)
  {
    ReachableBase(cfg, states, events, k);
    ReachableSchedule(cfg, states, events, k);
    HoldIsBounded(cfg, states[k].procs[i], t, states[k].now);
  }

  /** A configuration whose hold bound fits the lease owns its rows singly, in every timed run. */
  lemma FittingConfigurationOwnsSingly(cfg: Config, states: seq<State>, events: seq<Event>, k: nat)
    requires cfg.Valid() && TimedRun(cfg, states, events) && states[0] == Initial() && k < |states|
    requires HoldBound(cfg) <= LEASE
    ensures LeaseHeld(states[k]) && Own(cfg, states[k])
  {
    forall m | 0 <= m <= k ensures LeaseHeld(states[m]) {
      forall i, t | i in states[m].procs && t in Tasks(states[m].procs[i]) ensures states[m].now <= t.claimedAt + LEASE {
        HoldsEndInTime(cfg, states, events, m, i, t);
      }
    }
    SingleOwnership(cfg, states, events, k);
  }

  /** Then every event of the run moves every row legally. */
  lemma FittingConfigurationMovesLegally(cfg: Config, states: seq<State>, events: seq<Event>, k: nat, id: Id)
    requires cfg.Valid() && TimedRun(cfg, states, events) && states[0] == Initial() && k < |events|
    requires HoldBound(cfg) <= LEASE
    requires id in states[k].rows && id in states[k + 1].rows
    ensures LegalMove(states[k].rows[id], states[k + 1].rows[id], events[k], id)
  {
    ReachableBase(cfg, states, events, k);
    FittingConfigurationOwnsSingly(cfg, states, events, k);
    hide Base, Own, LeaseHeld, Next;
    LifeCycle(cfg, states[k], events[k], id);
  }

  lemma RowStaysKnown(cfg: Config, states: seq<State>, events: seq<Event>, k: nat, id: Id)
    requires cfg.Valid() && Run(cfg, states, events) && states[0] == Initial() && k < |events|
    requires id < states[k].nextId && id !in states[k].rows
    ensures id !in states[k + 1].rows && id < states[k + 1].nextId
  {
    ReachableBase(cfg, states, events, k);
    assert states[k + 1] == Next(cfg, states[k], events[k]);
    hide Base, Next, Run, EventEnabled;
    GoneStaysGone(cfg, states[k], events[k], id);
  }

  lemma GoneStaysGone(cfg: Config, s: State, e: Event, id: Id)
    requires Base(cfg, s) && EventEnabled(cfg, s, e) && id < s.nextId && id !in s.rows
    ensures id !in Next(cfg, s, e).rows && id < Next(cfg, s, e).nextId
  {
    if e.Local? {
      RowAfter(cfg, s, e.i, e.st, id);
      LocalRows(cfg, s, e.i, e.st);
    } else if e.Insert? {
      InsertedRows(s.rows, s.nextId, e.targets, s.now);
    }
    hide RowsAfter, EndpointsAfter, HistoryAfter, Apply, LocalEnabled, ProcsBase, TasksBase, EndpointsBase, HistoryBase, ClaimersBase;
  }

  lemma LocalRows(cfg: Config, s: State, i: Id, st: Step)
    requires LocalEnabled(cfg, s, i, st)
    ensures Next(cfg, s, Local(i, st)).rows == RowsAfter(cfg, s, i, st)
    ensures Next(cfg, s, Local(i, st)).nextId == s.nextId
  {
  }

  predicate IsOrGone(s: State, id: Id, row: Attempt) {
    id < s.nextId && (id in s.rows ==> s.rows[id] == row)
  }

  lemma DeliveredStays(cfg: Config, states: seq<State>, events: seq<Event>, k: nat, id: Id, row: Attempt)
    requires cfg.Valid() && TimedRun(cfg, states, events) && states[0] == Initial() && k < |events|
    requires HoldBound(cfg) <= LEASE && row.status.Delivered? && IsOrGone(states[k], id, row)
    ensures IsOrGone(states[k + 1], id, row)
  {
    hide Base, Own, LeaseHeld, Next, Initial, Timely;
    if id !in states[k].rows {
      RowStaysKnown(cfg, states, events, k, id);
    } else {
      NextIdGrows(cfg, states[k], events[k]);
      if id in states[k + 1].rows {
        FittingConfigurationMovesLegally(cfg, states, events, k, id);
      }
    }
  }

  /** Delivered is for good: a delivered row is never written again, whoever still races for it. */
  lemma {:induction false} DeliveredForGood(cfg: Config, states: seq<State>, events: seq<Event>, k: nat, m: nat, id: Id)
    requires cfg.Valid() && TimedRun(cfg, states, events) && states[0] == Initial() && k <= m < |states|
    requires HoldBound(cfg) <= LEASE
    requires id in states[k].rows && states[k].rows[id].status.Delivered?
    ensures IsOrGone(states[m], id, states[k].rows[id])
  {
    if m == k {
      ReachableBase(cfg, states, events, k);
    } else {
      hide Run, TimedRun, Initial, HoldBound;
      DeliveredForGood(cfg, states, events, k, m - 1, id);
      RunLengths(cfg, states, events);
      DeliveredStays(cfg, states, events, m - 1, id, states[k].rows[id]);
    }
  }

  lemma RunLengths(cfg: Config, states: seq<State>, events: seq<Event>)
    requires TimedRun(cfg, states, events)
    ensures |states| == |events| + 1
  {
  }

  lemma NextIdGrows(cfg: Config, s: State, e: Event)
    requires EventEnabled(cfg, s, e)
    ensures s.nextId <= Next(cfg, s, e).nextId
  {
  }
}
