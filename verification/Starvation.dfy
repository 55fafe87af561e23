/** No starvation: a poll that passes over a due row spends a whole batch of the finite attempt
    budget of older rows, so it can be passed over only so often. */
module Starvation {
  import opened Arithmetic
  import opened Models
  import opened Recording
  import opened Table
  import opened Process
  import opened Engine
  import opened Ownership

  /** How many more claims a row can take before it settles. */
  function Unit(cfg: Config, rows: Rows, id: Id): int {
    if id !in rows || Terminal(rows[id].status) then 0
    else if rows[id].status.Pending? then cfg.AttemptBudget() - rows[id].number + 1
    else cfg.AttemptBudget() - rows[id].number
  }

  function Units(cfg: Config, rows: Rows, ids: seq<Id>): int {
    if ids == [] then 0 else Unit(cfg, rows, ids[0]) + Units(cfg, rows, ids[1..])
  }

  lemma UnitsBounds(cfg: Config, rows: Rows, ids: seq<Id>)
    requires forall id <- rows :: InBudget(cfg, rows[id].number)
    ensures 0 <= Units(cfg, rows, ids) <= |ids| * cfg.AttemptBudget()
  {
    if ids != [] {
      UnitsBounds(cfg, rows, ids[1..]);
      assert |ids| * cfg.AttemptBudget() == |ids[1..]| * cfg.AttemptBudget() + cfg.AttemptBudget();
    }
  }

  lemma UnitsDrop(cfg: Config, rows: Rows, rows': Rows, ids: seq<Id>, spent: set<Id>)
    requires forall id <- ids :: Unit(cfg, rows', id) + (if id in spent then 1 else 0) <= Unit(cfg, rows, id)
    requires forall id <- spent :: id in ids
    ensures Units(cfg, rows', ids) + |spent| <= Units(cfg, rows, ids)
  {
    if ids == [] {
      assert spent == {};
    } else {
      var rest := spent - {ids[0]};
      UnitsDrop(cfg, rows, rows', ids[1..], rest);
      assert |spent| <= |rest| + (if ids[0] in spent then 1 else 0);
    }
  }

  // ---------- quiet runs ----------

  /** No crash, no revert, no failed statement, no manual retry. */
  predicate Quiet(e: Event) {
    match e
    case Crash(_) => false
    case ManualRetry(_) => false
    case Local(_, ByDispatcher(d)) => !d.FetchLost? && !d.RevertOk? && !d.RevertFail?
    case Local(_, ByWorker(_, ws)) => !ws.RecordFail?
    case _ => true
  }

  /** No process has lost a statement and no claimer has crashed: every processing row is held. */
  predicate Intact(s: State) {
    && (forall i <- s.procs :: s.procs[i].ledger.faults == 0)
    && (forall id | id in s.rows && s.rows[id].status.Processing? && id in s.history.claimer :: s.history.claimer[id] in s.procs)
  }

  lemma QuietKeepsFaults(cfg: Config, s: State, i: Id, st: Step)
    requires LocalEnabled(cfg, s, i, st) && Quiet(Local(i, st))
    ensures Apply(cfg, s.procs[i], st, s.now).ledger.faults == s.procs[i].ledger.faults
  {
  }

  lemma LocalKeepsIntact(cfg: Config, s: State, i: Id, st: Step)
    requires Base(cfg, s) && Intact(s) && LocalEnabled(cfg, s, i, st) && Quiet(Local(i, st))
    ensures Intact(Next(cfg, s, Local(i, st)))
  {
    QuietKeepsFaults(cfg, s, i, st);
    hide Apply, Enabled, SomeClaim, RowsAfter, EndpointsAfter, HistoryAfter, ChangeOf, Ok, HoldsRow;
    hide TasksBase, EndpointsBase, HistoryBase;
    var s' := Next(cfg, s, Local(i, st));
    forall id | id in s'.rows && s'.rows[id].status.Processing? && id in s'.history.claimer
      ensures s'.history.claimer[id] in s'.procs
    {
      RowAfter(cfg, s, i, st, id);
      ClaimersAfter(cfg, s, i, st, id);
      if ChangeOf(cfg, s, i, st, id).Recorded? || ChangeOf(cfg, s, i, st, id).Reverted? {
        RecordedIsNotProcessing(cfg, s, i, st, id);
      }
    }
  }

  lemma QuietKeepsIntact(cfg: Config, s: State, e: Event)
    requires Base(cfg, s) && Intact(s) && EventEnabled(cfg, s, e) && Quiet(e)
    ensures Intact(Next(cfg, s, e))
  {
    if e.Local? {
      LocalKeepsIntact(cfg, s, e.i, e.st);
    } else if e.Insert? {
      InsertedRows(s.rows, s.nextId, e.targets, s.now);
      var s' := Next(cfg, s, e);
      forall id | id in s'.rows && id !in s.rows ensures s'.rows[id].status.Pending? {
        assert s'.rows[s.nextId + (id - s.nextId)] == NewAttempt(e.targets[id - s.nextId].0, e.targets[id - s.nextId].1, s.now);
      }
    }
    hide Apply, LocalEnabled, RowsAfter, EndpointsAfter, HistoryAfter, Ok, HoldsRow, TasksBase, EndpointsBase, HistoryBase;
  }

  lemma ProcessingIsFresh(cfg: Config, s: State, id: Id)
    requires Base(cfg, s) && Own(cfg, s) && LeaseHeld(s) && Intact(s)
    requires id in s.rows && s.rows[id].status.Processing?
    ensures s.now <= s.rows[id].updatedAt + LEASE
  {
    hide Tasks, Ok, RowsBase, EndpointsBase, TasksBase, HistoryBase;
    var p := s.procs[s.history.claimer[id]];
    var u :| u in Tasks(p) && u.id == id;
    assert CurrentTask(s, u);
  }

  /** Claims in such a state rescue nothing: every row they take was pending. */
  lemma ClaimsTakePending(cfg: Config, s: State, i: Id, st: Step, id: Id)
    requires Base(cfg, s) && Own(cfg, s) && LeaseHeld(s) && Intact(s) && LocalEnabled(cfg, s, i, st)
    requires id in s.rows && ChangeOf(cfg, s, i, st, id).Claimed?
    ensures s.rows[id].status.Pending?
  {
    ClaimedIsGained(cfg, s, i, st, id);
    var t :| t in Gained(st) && t.id == id;
    GainedIsClaimed(cfg, s, i, st, t);
    hide Gained, Enabled, SomeClaim, ChangeOf, LocalEnabled, Tasks, Base, Own, LeaseHeld, Intact;
    if s.rows[id].status.Processing? {
      ProcessingIsFresh(cfg, s, id);
    }
  }

  lemma RecordedUnit(cfg: Config, s: State, i: Id, st: Step, id: Id)
    requires cfg.Valid() && Base(cfg, s) && Own(cfg, s) && LocalEnabled(cfg, s, i, st)
    requires id in s.rows && ChangeOf(cfg, s, i, st, id).Recorded?
    ensures Unit(cfg, RowsAfter(cfg, s, i, st), id) <= Unit(cfg, s.rows, id)
  {
    hide ChangeOf, RowsAfter, Enabled, SomeClaim, Tasks, Ok, HoldsRow, Delay;
    RecordKeepsCounted(cfg, s, i, st, id);
    RowAfter(cfg, s, i, st, id);
  }

  /** No quiet event adds to a row's remaining claims, and a claim takes one off. */
  lemma LocalUnit(cfg: Config, s: State, i: Id, st: Step, id: Id)
    requires cfg.Valid() && Base(cfg, s) && Own(cfg, s) && LeaseHeld(s) && Intact(s)
    requires LocalEnabled(cfg, s, i, st) && Quiet(Local(i, st))
    ensures Unit(cfg, RowsAfter(cfg, s, i, st), id) + (if id in s.rows && ChangeOf(cfg, s, i, st, id).Claimed? then 1 else 0)
            <= Unit(cfg, s.rows, id)
  {
    hide ChangeOf, RowsAfter, Base, Own, LeaseHeld, Intact, Quiet, Enabled, SomeClaim;
    NoQuietRevert(cfg, s, i, st, id);
    RowAfter(cfg, s, i, st, id);
    if id in s.rows {
      if ChangeOf(cfg, s, i, st, id).Claimed? {
        ClaimsTakePending(cfg, s, i, st, id);
      } else if ChangeOf(cfg, s, i, st, id).Recorded? {
        RecordedUnit(cfg, s, i, st, id);
      }
    }
  }

  lemma NoQuietRevert(cfg: Config, s: State, i: Id, st: Step, id: Id)
    requires LocalEnabled(cfg, s, i, st) && Quiet(Local(i, st))
    ensures !ChangeOf(cfg, s, i, st, id).Reverted?
  {
  }

  function ClaimedBy(e: Event): set<Id> {
    match e
    case Local(_, ByDispatcher(ClaimBatch(batch))) => Ids(batch)
    case _ => {}
  }

  lemma InsertUnit(cfg: Config, s: State, targets: seq<(Id, Id)>, id: Id)
    requires RowsBase(cfg, s) && id < s.nextId
    ensures Unit(cfg, InsertRows(s.rows, s.nextId, targets, s.now), id) == Unit(cfg, s.rows, id)
  {
    InsertedRows(s.rows, s.nextId, targets, s.now);
    hide InsertRows;
  }

  lemma EventUnit(cfg: Config, s: State, e: Event, id: Id)
    requires cfg.Valid() && Base(cfg, s) && Own(cfg, s) && LeaseHeld(s) && Intact(s)
    requires EventEnabled(cfg, s, e) && Quiet(e) && id < s.nextId
    ensures Unit(cfg, Next(cfg, s, e).rows, id) + (if id in ClaimedBy(e) then 1 else 0) <= Unit(cfg, s.rows, id)
  {
    hide Apply, LocalEnabled, RowsAfter, EndpointsAfter, HistoryAfter, Own, LeaseHeld, InsertRows;
    hide ProcsBase, TasksBase, EndpointsBase, HistoryBase, ClaimersBase, Intact;
    if e.Local? {
      LocalUnit(cfg, s, e.i, e.st, id);
      if id in ClaimedBy(e) {
        ClaimedIdsExist(cfg, s, e.i, e.st, id);
      }
    } else if e.Insert? {
      InsertUnit(cfg, s, e.targets, id);
    }
  }

  lemma ClaimedIdsExist(cfg: Config, s: State, i: Id, st: Step, id: Id)
    requires LocalEnabled(cfg, s, i, st) && id in ClaimedBy(Local(i, st))
    ensures id in s.rows && ChangeOf(cfg, s, i, st, id).Claimed?
  {
    var t :| t in st.d.batch && t.id == id;
    GainedIsClaimed(cfg, s, i, st, t);
  }

  // ---------- being passed over ----------

  /** A poll claims a batch without `r` although `r` is due on an active endpoint, and not because
      another claim has `r` locked. */
  ghost predicate PassedOver(cfg: Config, s: State, e: Event, r: Id) {
    && e.Local? && e.st.ByDispatcher? && e.st.d.ClaimBatch?
    && r in Eligible(s.rows, s.endpoints, s.now) && r !in Ids(e.st.d.batch)
    && exists locked :: r !in locked && ClaimSkipping(s.rows, s.endpoints, s.now, cfg.batchSize, locked, e.st.d.batch)
  }

  /** `older` lists every other unsettled row that comes before rows created at `created`, or ties with them. */
  predicate Covers(s: State, older: seq<Id>, r: Id, created: nat) {
    && created < s.now && r < s.nextId
    && (r in s.rows ==> s.rows[r].createdAt == created)
    && (forall id <- older :: id < s.nextId)
    && (forall id <- s.rows :: id != r && !Terminal(s.rows[id].status) && s.rows[id].createdAt <= created ==> id in older)
  }

  /** A poll that passes over a row takes a full batch, all of it from rows that come before. */
  lemma PassingOverTakesOlder(cfg: Config, s: State, e: Event, older: seq<Id>, r: Id, created: nat)
    requires EventEnabled(cfg, s, e) && PassedOver(cfg, s, e, r) && Covers(s, older, r, created)
    ensures |ClaimedBy(e)| == cfg.batchSize
    ensures forall id <- ClaimedBy(e) :: id in older
  {
    hide Enabled, LocalEnabled, Oldest;
    var batch := e.st.d.batch;
    var locked :| r !in locked && ClaimSkipping(s.rows, s.endpoints, s.now, cfg.batchSize, locked, batch);
    LeavingOut(s.rows, Eligible(s.rows, s.endpoints, s.now) - locked, s.now, cfg.batchSize, batch, r);
    hide Ids;
    forall id | id in ClaimedBy(e) ensures id in older {
      assert s.rows[id].createdAt <= s.rows[r].createdAt;
    }
  }

  lemma RowsKeepCreation(cfg: Config, s: State, e: Event, id: Id)
    requires EventEnabled(cfg, s, e) && RowsBase(cfg, s) && id in Next(cfg, s, e).rows
    ensures if id in s.rows then Next(cfg, s, e).rows[id].createdAt == s.rows[id].createdAt
            else s.nextId <= id && Next(cfg, s, e).rows[id].createdAt == s.now
  {
    if e.Local? {
      LocalRows(cfg, s, e.i, e.st);
      RowAfter(cfg, s, e.i, e.st, id);
    } else if e.Insert? {
      InsertedRows(s.rows, s.nextId, e.targets, s.now);
      if id !in s.rows {
        var k := id - s.nextId;
        assert Next(cfg, s, e).rows[s.nextId + k] == NewAttempt(e.targets[k].0, e.targets[k].1, s.now);
      }
    }
    hide LocalEnabled, Apply, RowsAfter, EndpointsAfter, HistoryAfter;
  }

  lemma CoversStays(cfg: Config, s: State, e: Event, older: seq<Id>, r: Id, created: nat)
    requires cfg.Valid() && Base(cfg, s) && Own(cfg, s) && LeaseHeld(s) && EventEnabled(cfg, s, e) && Quiet(e)
    requires Covers(s, older, r, created)
    ensures Covers(Next(cfg, s, e), older, r, created)
  {
    hide Next, Base, Own, LeaseHeld, EventEnabled;
    var s' := Next(cfg, s, e);
    NextIdGrows(cfg, s, e);
    NowGrows(cfg, s, e);
    RowsBaseOf(cfg, s);
    if r in s'.rows {
      RowsKeepCreation(cfg, s, e, r);
    }
    forall id | id in s'.rows && id != r && !Terminal(s'.rows[id].status) && s'.rows[id].createdAt <= created ensures id in older {
      RowsKeepCreation(cfg, s, e, id);
      if id in s.rows {
        LifeCycle(cfg, s, e, id);
      }
    }
  }

  lemma RowsBaseOf(cfg: Config, s: State)
    requires Base(cfg, s)
    ensures RowsBase(cfg, s)
  {
  }

  lemma NowGrows(cfg: Config, s: State, e: Event)
    requires EventEnabled(cfg, s, e)
    ensures s.now <= Next(cfg, s, e).now
  {
  }

  /** Polls among the first `n` events that pass over `r`. */
  ghost function Passes(cfg: Config, states: seq<State>, events: seq<Event>, r: Id, n: nat): nat
    requires n <= |events| && n <= |states|
  {
    if n == 0 then 0 else Passes(cfg, states, events, r, n - 1) + if PassedOver(cfg, states[n - 1], events[n - 1], r) then 1 else 0
  }

  ghost predicate QuietRun(cfg: Config, states: seq<State>, events: seq<Event>) {
    && Run(cfg, states, events)
    && Base(cfg, states[0]) && Own(cfg, states[0]) && Intact(states[0])
    && (forall k :: 0 <= k < |events| ==> Quiet(events[k]) && LeaseHeld(states[k]))
  }

  lemma PassSpendsUnits(cfg: Config, s: State, e: Event, older: seq<Id>, r: Id, created: nat)
    requires cfg.Valid() && Base(cfg, s) && Own(cfg, s) && LeaseHeld(s) && Intact(s) && EventEnabled(cfg, s, e) && Quiet(e)
    requires Covers(s, older, r, created)
    ensures Units(cfg, Next(cfg, s, e).rows, older) + (if PassedOver(cfg, s, e, r) then cfg.batchSize else 0)
            <= Units(cfg, s.rows, older)
  {
    hide Next, Base, Own, LeaseHeld, EventEnabled, Intact, Unit;
    var spent: set<Id> := {};
    if PassedOver(cfg, s, e, r) {
      PassingOverTakesOlder(cfg, s, e, older, r, created);
      spent := ClaimedBy(e);
    }
    forall id | id in older ensures Unit(cfg, Next(cfg, s, e).rows, id) + (if id in spent then 1 else 0) <= Unit(cfg, s.rows, id) {
      EventUnit(cfg, s, e, id);
    }
    UnitsDrop(cfg, s.rows, Next(cfg, s, e).rows, older, spent);
  }

  ghost predicate OnCourse(cfg: Config, s: State, older: seq<Id>, r: Id, created: nat) {
    Base(cfg, s) && Own(cfg, s) && Intact(s) && Covers(s, older, r, created)
  }

  lemma QuietEvent(cfg: Config, s: State, e: Event, older: seq<Id>, r: Id, created: nat)
    requires cfg.Valid() && OnCourse(cfg, s, older, r, created) && LeaseHeld(s) && EventEnabled(cfg, s, e) && Quiet(e)
    ensures OnCourse(cfg, Next(cfg, s, e), older, r, created)
    ensures Units(cfg, Next(cfg, s, e).rows, older) + (if PassedOver(cfg, s, e, r) then cfg.batchSize else 0)
            <= Units(cfg, s.rows, older)
  {
    hide Next, Base, Own, LeaseHeld, EventEnabled, Intact, Covers, Quiet, Units, PassedOver;
    EventKeepsBase(cfg, s, e);
    EventKeepsOwn(cfg, s, e);
    QuietKeepsIntact(cfg, s, e);
    CoversStays(cfg, s, e, older, r, created);
    PassSpendsUnits(cfg, s, e, older, r, created);
  }

  lemma {:induction false} PassesSpendUnits(cfg: Config, states: seq<State>, events: seq<Event>, older: seq<Id>, r: Id,
                                            created: nat, n: nat)
    requires cfg.Valid() && QuietRun(cfg, states, events) && Covers(states[0], older, r, created) && n <= |events|
    ensures OnCourse(cfg, states[n], older, r, created)
    ensures Passes(cfg, states, events, r, n) * cfg.batchSize + Units(cfg, states[n].rows, older) <= Units(cfg, states[0].rows, older)
  {
    hide Next, Base, Own, LeaseHeld, EventEnabled, Intact, Covers, Quiet, Units, PassedOver;
    if n > 0 {
      PassesSpendUnits(cfg, states, events, older, r, created, n - 1);
      QuietEvent(cfg, states[n - 1], events[n - 1], older, r, created);
      TimesNext(Passes(cfg, states, events, r, n - 1), cfg.batchSize);
    }
  }

  /** In a quiet run, a row with k older unsettled rows is passed over while due by at most
      k * max(1, MaxRetries) / BatchSize polls, however long the run. */
  lemma NoStarvation(cfg: Config, states: seq<State>, events: seq<Event>, older: seq<Id>, r: Id, n: nat)
    requires cfg.Valid() && QuietRun(cfg, states, events) && n <= |events|
    requires r in states[0].rows && Covers(states[0], older, r, states[0].rows[r].createdAt)
    ensures Passes(cfg, states, events, r, n) <= |older| * Max(1, cfg.retry.maxRetries) / cfg.batchSize
  {
    var created := states[0].rows[r].createdAt;
    PassesSpendUnits(cfg, states, events, older, r, created, n);
    hide Own, Intact, ProcsBase, TasksBase, EndpointsBase, HistoryBase, ClaimersBase;
    UnitsBounds(cfg, states[0].rows, older);
    UnitsBounds(cfg, states[n].rows, older);
    QuotientAtLeast(|older| * cfg.AttemptBudget(), cfg.batchSize, Passes(cfg, states, events, r, n));
  }
}
