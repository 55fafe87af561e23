/** What the schema promises of the tables, over every run of the engine. */
module Integrity {
  import opened Models
  import opened Recording
  import opened Table
  import opened Process
  import opened Engine
  import opened Ownership
  import Breaker

  /** Every attempt has its endpoint, and every rate limit is between 1 and 1000 per second, also in the
      updates that have been read and not yet written. */
  predicate Consistent(s: State) {
    && (forall id <- s.rows :: s.rows[id].endpoint in s.endpoints)
    && (forall ep <- s.endpoints :: 1 <= s.endpoints[ep].rateLimit <= 1000)
    && (forall op <- s.updates :: 1 <= s.updates[op].value.rateLimit <= 1000)
  }

  lemma LocalKeepsConsistent(cfg: Config, s: State, i: Id, st: Step)
    requires LocalEnabled(cfg, s, i, st) && Consistent(s)
    ensures Consistent(Next(cfg, s, Local(i, st)))
  {
    hide Apply, HistoryAfter, Enabled, SomeClaim, Decide;
    var s' := Next(cfg, s, Local(i, st));
    forall id | id in s'.rows ensures id in s.rows && s'.rows[id].endpoint == s.rows[id].endpoint {
      RowAfter(cfg, s, i, st, id);
    }
    hide RowsAfter;
  }

  lemma InsertKeepsConsistent(cfg: Config, s: State, targets: seq<(Id, Id)>)
    requires EventEnabled(cfg, s, Insert(targets)) && Consistent(s) && RowsBase(cfg, s)
    ensures Consistent(Next(cfg, s, Insert(targets)))
  {
    InsertedRows(s.rows, s.nextId, targets, s.now);
    var after := InsertRows(s.rows, s.nextId, targets, s.now);
    forall id | id in after && id !in s.rows ensures after[id].endpoint in s.endpoints {
      var k := id - s.nextId;
      assert after[s.nextId + k] == NewAttempt(targets[k].0, targets[k].1, s.now) && targets[k] in targets;
    }
    hide InsertRows;
  }

  lemma EventKeepsConsistent(cfg: Config, s: State, e: Event)
    requires EventEnabled(cfg, s, e) && Consistent(s) && RowsBase(cfg, s)
    ensures Consistent(Next(cfg, s, e))
  {
    if e.Local? {
      LocalKeepsConsistent(cfg, s, e.i, e.st);
    } else if e.Insert? {
      InsertKeepsConsistent(cfg, s, e.targets);
    }
    hide LocalEnabled, Apply, RowsAfter, EndpointsAfter, HistoryAfter, InsertRows;
  }

  /** Deleting an endpoint takes its attempts along, no insert misses its endpoint, and no update writes
      a rate limit out of range. */
  lemma {:induction false} TablesStayConsistent(cfg: Config, states: seq<State>, events: seq<Event>, k: nat)
    requires cfg.Valid() && Run(cfg, states, events) && states[0] == Initial() && k < |states|
    ensures Consistent(states[k])
  {
    if k > 0 {
      hide Run, Initial, Next, EventEnabled, Consistent, RowsBase, ProcsBase, TasksBase, EndpointsBase, HistoryBase, ClaimersBase;
      TablesStayConsistent(cfg, states, events, k - 1);
      RunLength(cfg, states, events);
      RunStep(cfg, states, events, k - 1);
      ReachableBase(cfg, states, events, k - 1);
      EventKeepsConsistent(cfg, states[k - 1], events[k - 1]);
    }
  }

  /** The endpoint was deleted. */
  predicate EndpointGone(s: State, ep: Id) {
    ep < s.nextEndpoint && ep !in s.endpoints
  }

  lemma EventKeepsGone(cfg: Config, s: State, e: Event, ep: Id)
    requires EventEnabled(cfg, s, e) && EndpointGone(s, ep)
    ensures EndpointGone(Next(cfg, s, e), ep)
  {
    hide Apply, RowsAfter, HistoryAfter, Enabled, SomeClaim, Breaker.ApplyUpdate;
  }

  /** A deleted endpoint does not come back, whatever results and updates of it are still under way. */
  lemma {:induction false} DeletedStaysDeleted(cfg: Config, states: seq<State>, events: seq<Event>, k: nat, m: nat, ep: Id)
    requires Run(cfg, states, events) && k <= m < |states| && EndpointGone(states[k], ep)
    ensures EndpointGone(states[m], ep)
    decreases m - k
  {
    hide Run, Next, EventEnabled, EndpointGone;
    RunLength(cfg, states, events);
    if k < m {
      RunStep(cfg, states, events, m - 1);
      DeletedStaysDeleted(cfg, states, events, k, m - 1, ep);
      EventKeepsGone(cfg, states[m - 1], events[m - 1], ep);
    }
  }

  // ---------- delivered and failed mean answered ----------

  /** An answer that settles a row for good: success, or a refusal not worth retrying. */
  predicate Settles(result: DeliveryResult, good: bool) {
    if good then result.success
    else !result.success && result.httpStatus.Some? && result.httpStatus.value != 429 && result.httpStatus.value < 500
  }

  predicate Settled(status: Status, good: bool) {
    if good then status.Delivered? else status.Failed?
  }

  predicate HoldsAnswer(p: Proc, id: Id, good: bool) {
    exists w :: 0 <= w < |p.workers| && p.workers[w].Recording? && Settles(p.workers[w].result, good) && p.workers[w].task.id == id
  }

  /** The row is settled, or a worker is about to write that. */
  ghost predicate ShowsAnswer(s: State, id: Id, good: bool) {
    (id in s.rows && Settled(s.rows[id].status, good)) || exists i :: i in s.procs && HoldsAnswer(s.procs[i], id, good)
  }

  /** The endpoint gives a delivery of the row such an answer. */
  predicate Answers(s: State, e: Event, id: Id, good: bool) {
    && e.Local? && e.i in s.procs && e.st.ByWorker? && e.st.ws.Return? && Settles(e.st.ws.result, good)
    && e.st.w < |s.procs[e.i].workers| && s.procs[e.i].workers[e.st.w].Delivering?
    && s.procs[e.i].workers[e.st.w].task.id == id
  }

  lemma ProcHolds(cfg: Config, s: State, i: Id, st: Step, id: Id, good: bool)
    requires LocalEnabled(cfg, s, i, st) && HoldsAnswer(Apply(cfg, s.procs[i], st, s.now), id, good)
    ensures HoldsAnswer(s.procs[i], id, good) || Answers(s, Local(i, st), id, good)
  {
    hide SomeClaim, NextTick, DispatcherAfter, DispatcherLedger, WorkerLedger;
    var p' := Apply(cfg, s.procs[i], st, s.now);
    var w :| 0 <= w < |p'.workers| && p'.workers[w].Recording? && Settles(p'.workers[w].result, good) && p'.workers[w].task.id == id;
    if w < |s.procs[i].workers| && s.procs[i].workers[w] == p'.workers[w] {
      assert HoldsAnswer(s.procs[i], id, good);
    }
  }

  lemma RowSettled(cfg: Config, s: State, i: Id, st: Step, id: Id, good: bool)
    requires LocalEnabled(cfg, s, i, st) && id in RowsAfter(cfg, s, i, st) && Settled(RowsAfter(cfg, s, i, st)[id].status, good)
    ensures (id in s.rows && Settled(s.rows[id].status, good)) || HoldsAnswer(s.procs[i], id, good)
  {
    RowAfter(cfg, s, i, st, id);
    hide SomeClaim, Apply, RowsAfter;
  }

  lemma LocalShows(cfg: Config, s: State, i: Id, st: Step, id: Id, good: bool)
    requires LocalEnabled(cfg, s, i, st) && ShowsAnswer(Next(cfg, s, Local(i, st)), id, good)
    ensures ShowsAnswer(s, id, good) || Answers(s, Local(i, st), id, good)
  {
    hide Apply, RowsAfter, EndpointsAfter, HistoryAfter, SomeClaim, Enabled, HoldsAnswer, Answers;
    var s' := Next(cfg, s, Local(i, st));
    if id in s'.rows && Settled(s'.rows[id].status, good) {
      RowSettled(cfg, s, i, st, id, good);
    } else {
      var j :| j in s'.procs && HoldsAnswer(s'.procs[j], id, good);
      if j == i {
        ProcHolds(cfg, s, i, st, id, good);
      }
    }
  }

  lemma EventShows(cfg: Config, s: State, e: Event, id: Id, good: bool)
    requires EventEnabled(cfg, s, e) && RowsBase(cfg, s) && ShowsAnswer(Next(cfg, s, e), id, good)
    ensures ShowsAnswer(s, id, good) || Answers(s, e, id, good)
  {
    if e.Local? {
      LocalShows(cfg, s, e.i, e.st, id, good);
    } else if e.Insert? {
      InsertedRows(s.rows, s.nextId, e.targets, s.now);
      if id in Next(cfg, s, e).rows && id !in s.rows {
        var k := id - s.nextId;
        assert Next(cfg, s, e).rows[s.nextId + k] == NewAttempt(e.targets[k].0, e.targets[k].1, s.now);
      }
    } else if e.Start? {
      assert !HoldsAnswer(Started(cfg, s.now), id, good);
    }
    hide LocalEnabled, Apply, RowsAfter, EndpointsAfter, HistoryAfter, InsertRows, HoldsAnswer, Answers;
  }

  lemma {:induction false} SettledWasAnswered(cfg: Config, states: seq<State>, events: seq<Event>, k: nat, id: Id, good: bool) returns (j: nat)
    requires cfg.Valid() && Run(cfg, states, events) && states[0] == Initial() && k < |states|
    requires ShowsAnswer(states[k], id, good)
    ensures j < k && j < |events| && Answers(states[j], events[j], id, good)
  {
    hide Run, Initial, Next, EventEnabled, ShowsAnswer, Answers, RowsBase, ProcsBase, TasksBase, EndpointsBase, HistoryBase, ClaimersBase;
    if k == 0 {
      NothingShown(id, good);
    } else {
      RunLength(cfg, states, events);
      RunStep(cfg, states, events, k - 1);
      ReachableBase(cfg, states, events, k - 1);
      EventShows(cfg, states[k - 1], events[k - 1], id, good);
      j := k - 1;
      if !Answers(states[k - 1], events[k - 1], id, good) {
        j := SettledWasAnswered(cfg, states, events, k - 1, id, good);
      }
    }
  }

  lemma NothingShown(id: Id, good: bool)
    ensures !ShowsAnswer(Initial(), id, good)
  {
  }

  /** In every run, stale holders included, a delivered row was answered with success, and a failed one
      with a code other than 429 below 500: no aborted wait, panic, timeout or lost statement ever
      passes for either. */
  lemma SettledRowsWereAnswered(cfg: Config, states: seq<State>, events: seq<Event>, k: nat, id: Id) returns (j: nat)
    requires cfg.Valid() && Run(cfg, states, events) && states[0] == Initial() && k < |states|
    requires id in states[k].rows && (states[k].rows[id].status == Delivered || states[k].rows[id].status == Failed)
    ensures j < k && j < |events| && events[j].Local? && events[j].st.ByWorker? && events[j].st.ws.Return?
    ensures var e, s := events[j], states[j];
            && e.i in s.procs && e.st.w < |s.procs[e.i].workers| && s.procs[e.i].workers[e.st.w].Delivering?
            && s.procs[e.i].workers[e.st.w].task.id == id
            && var result := e.st.ws.result;
            if states[k].rows[id].status == Delivered then result.success
            else !result.success && result.httpStatus.Some? && result.httpStatus.value != 429 && result.httpStatus.value < 500
  {
    j := SettledWasAnswered(cfg, states, events, k, id, states[k].rows[id].status == Delivered);
    hide Run, Initial;
  }
}
