/** Building runs of the engine step by step. */
module Reachability {
  import opened Models
  import opened Recording
  import opened Table
  import opened Process
  import opened Engine
  import opened Ownership
  import Breaker

  /** The states of timed runs. */
  ghost predicate Reachable(cfg: Config, s: State) {
    exists states, events :: EndsIn(cfg, states, events, s)
  }

  /** A timed run from the start to this state. */
  ghost predicate EndsIn(cfg: Config, states: seq<State>, events: seq<Event>, s: State) {
    |states| == |events| + 1 && TimedRun(cfg, states, events) && states[0] == Initial() && states[|events|] == s
  }

  ghost predicate NoWrites(events: seq<Event>) {
    forall e <- events :: !e.WriteEndpoint?
  }

  /** The states of timed runs in which no operator writes an endpoint. The runs below are of this kind. */
  ghost predicate Unattended(cfg: Config, s: State) {
    exists states, events :: EndsIn(cfg, states, events, s) && NoWrites(events)
  }

  lemma UnattendedIsReachable(cfg: Config, s: State)
    requires Unattended(cfg, s)
    ensures Reachable(cfg, s)
  {
  }

  lemma InitialReachable(cfg: Config)
    ensures Unattended(cfg, Initial())
  {
    assert EndsIn(cfg, [Initial()], [], Initial());
  }

  lemma Longer(cfg: Config, states: seq<State>, events: seq<Event>, e: Event, s': State)
    requires TimedRun(cfg, states, events)
    requires EventEnabled(cfg, states[|events|], e) && Timely(cfg, states[|events|], e) && s' == Next(cfg, states[|events|], e)
    ensures TimedRun(cfg, states + [s'], events + [e])
  {
    hide Next, EventEnabled, Timely;
    var states', events' := states + [s'], events + [e];
    forall k | 0 <= k < |events'|
      ensures EventEnabled(cfg, states'[k], events'[k]) && states'[k + 1] == Next(cfg, states'[k], events'[k])
      ensures Timely(cfg, states'[k], events'[k])
    {
      if k < |events| {
        assert states'[k] == states[k] && events'[k] == events[k] && states'[k + 1] == states[k + 1];
        assert Timely(cfg, states[k], events[k]);
      }
    }
  }

  lemma Go(cfg: Config, s: State, e: Event) returns (s': State)
    requires Unattended(cfg, s) && EventEnabled(cfg, s, e) && Timely(cfg, s, e) && !e.WriteEndpoint?
    ensures Unattended(cfg, s') && s' == Next(cfg, s, e)
  {
    hide Next, EventEnabled, Timely, TimedRun, Initial;
    s' := Next(cfg, s, e);
    var states, events :| EndsIn(cfg, states, events, s) && NoWrites(events);
    Longer(cfg, states, events, e, s');
    assert (states + [s'])[|events + [e]|] == s' && (states + [s'])[0] == Initial();
    assert EndsIn(cfg, states + [s'], events + [e], s');
  }

  // ---------- steps of one process ----------

  predicate Calm(p: Proc) {
    !p.stopping && !p.closed && !p.panicked && p.phase.Serving?
  }

  predicate SameProc(p: Proc, q: Proc) {
    && q.workers == p.workers && q.turns == p.turns
    && q.stopping == p.stopping && q.closed == p.closed && q.panicked == p.panicked && q.phase == p.phase
  }

  /** Nothing but the dispatcher and the queue of process `i`, the rows and the history differs. */
  predicate SameElsewhere(s: State, s': State, i: Id) {
    && s'.now == s.now && s'.endpoints == s.endpoints && s'.updates == s.updates && s'.nextId == s.nextId
    && s'.nextEndpoint == s.nextEndpoint && s'.nextProc == s.nextProc
    && s'.procs.Keys == s.procs.Keys && i in s.procs && SameProc(s.procs[i], s'.procs[i])
    && forall j <- s.procs :: j != i ==> s'.procs[j] == s.procs[j]
  }

  lemma SameTwice(s: State, s1: State, s2: State, i: Id)
    requires SameElsewhere(s, s1, i) && SameElsewhere(s1, s2, i)
    ensures SameElsewhere(s, s2, i)
  {
  }

  /** The dispatcher stands before task `next` of the batch, having failed none so far. */
  predicate HandingAt(d: Dispatcher, batch: seq<Task>, next: nat, since: nat, pc: Pc) {
    d.Handing? && d.batch == batch && d.next == next && d.failed == [] && d.since == since && d.pc == pc
  }

  /** Dispatcher steps that send no statement and no task. */
  lemma Quietly(cfg: Config, s: State, i: Id, d: DispatcherStep) returns (s': State)
    requires Unattended(cfg, s) && i in s.procs && Calm(s.procs[i]) && DispatcherEnabled(cfg, s.procs[i], d, s.now)
    requires d.BeginPoll? || d.FetchFail? || d.Receive? || d.PassStop? || d.PassClosed? || d.EndBatch?
    ensures Unattended(cfg, s') && SameElsewhere(s, s', i) && s'.rows == s.rows
    ensures s'.now == s.now && i in s'.procs && Calm(s'.procs[i])
    ensures s'.procs[i].queue == s.procs[i].queue && s'.procs[i].disp == DispatcherAfter(cfg, s.procs[i], d, s.now)
    ensures s'.procs[i].tick == if d.BeginPoll? && !s.procs[i].disp.full then NextTick(s.procs[i].tick, cfg.pollInterval, s.now)
                                else s.procs[i].tick
  {
    hide DispatcherAfter, NextTick;
    s' := Go(cfg, s, Local(i, ByDispatcher(d)));
    hide Unattended;
  }

  lemma ClaimIt(cfg: Config, s: State, i: Id, batch: seq<Task>) returns (s': State)
    requires Unattended(cfg, s) && i in s.procs && Calm(s.procs[i]) && s.procs[i].disp.Polling?
    requires |batch| <= cfg.batchSize && (forall t <- batch :: t.claimedAt == s.now)
    requires SomeClaim(s.rows, s.endpoints, s.now, cfg.batchSize, batch)
    ensures Unattended(cfg, s') && SameElsewhere(s, s', i) && s'.rows == MarkClaimed(s.rows, Ids(batch), s.now)
    ensures s'.now == s.now && i in s'.procs && Calm(s'.procs[i]) && s'.procs[i].queue == s.procs[i].queue
    ensures s'.procs[i].disp.Fetching? && s'.procs[i].disp.batch == batch && s'.procs[i].disp.since == s.now
  {
    hide SomeClaim, Ids;
    s' := Go(cfg, s, Local(i, ByDispatcher(ClaimBatch(batch))));
    hide Unattended;
  }

  /** From the start of the loop to a claim whose reply is on its way. */
  lemma Poll(cfg: Config, s: State, i: Id, batch: seq<Task>) returns (s': State)
    requires Unattended(cfg, s) && i in s.procs && Calm(s.procs[i]) && DispatcherEnabled(cfg, s.procs[i], BeginPoll, s.now)
    requires |batch| <= cfg.batchSize && (forall t <- batch :: t.claimedAt == s.now)
    requires SomeClaim(s.rows, s.endpoints, s.now, cfg.batchSize, batch)
    ensures Unattended(cfg, s') && SameElsewhere(s, s', i) && s'.rows == MarkClaimed(s.rows, Ids(batch), s.now)
    ensures s'.now == s.now && i in s'.procs && Calm(s'.procs[i]) && s'.procs[i].queue == s.procs[i].queue
    ensures s'.procs[i].disp.Fetching? && s'.procs[i].disp.batch == batch && s'.procs[i].disp.since == s.now
  {
    var s1 := Quietly(cfg, s, i, BeginPoll);
    hide Unattended, SomeClaim, MarkClaimed, SameElsewhere, Ids, DispatcherEnabled;
    SameTables(s, s1, i);
    s' := ClaimIt(cfg, s1, i, batch);
    SameTwice(s, s1, s', i);
  }

  lemma SameTables(s: State, s': State, i: Id)
    requires SameElsewhere(s, s', i)
    ensures s'.endpoints == s.endpoints && s'.now == s.now
  {
  }

  /** The reply arrives and the first look at the stop signal is due. */
  lemma ReceiveIt(cfg: Config, s: State, i: Id) returns (s': State)
    requires Unattended(cfg, s) && i in s.procs && Calm(s.procs[i]) && s.procs[i].disp.Fetching? && s.procs[i].disp.batch != []
    ensures Unattended(cfg, s') && SameElsewhere(s, s', i) && s'.rows == s.rows
    ensures s'.now == s.now && i in s'.procs && Calm(s'.procs[i]) && s'.procs[i].queue == s.procs[i].queue
    ensures HandingAt(s'.procs[i].disp, s.procs[i].disp.batch, 0, s.now, StopCheck)
  {
    s' := Quietly(cfg, s, i, Receive);
    hide Unattended, SameElsewhere;
  }

  /** From the look at the stop signal to the send. */
  lemma OfferIt(cfg: Config, s: State, i: Id, batch: seq<Task>, next: nat) returns (s': State)
    requires Unattended(cfg, s) && i in s.procs && Calm(s.procs[i]) && next < |batch|
    requires HandingAt(s.procs[i].disp, batch, next, s.now, StopCheck)
    ensures Unattended(cfg, s') && SameElsewhere(s, s', i) && s'.rows == s.rows
    ensures s'.now == s.now && i in s'.procs && Calm(s'.procs[i]) && s'.procs[i].queue == s.procs[i].queue
    ensures HandingAt(s'.procs[i].disp, batch, next, s.now, Sending)
  {
    hide Unattended, SameElsewhere;
    var s1 := Quietly(cfg, s, i, PassStop);
    s' := Quietly(cfg, s1, i, PassClosed);
    SameTwice(s, s1, s', i);
  }

  lemma SendIt(cfg: Config, s: State, i: Id, batch: seq<Task>, next: nat, since: nat) returns (s': State)
    requires Unattended(cfg, s) && i in s.procs && Calm(s.procs[i]) && |s.procs[i].queue| < cfg.queueSize && next < |batch|
    requires HandingAt(s.procs[i].disp, batch, next, since, Sending)
    ensures Unattended(cfg, s') && SameElsewhere(s, s', i) && s'.rows == s.rows
    ensures s'.now == s.now && i in s'.procs && Calm(s'.procs[i])
    ensures |s'.procs[i].queue| == |s.procs[i].queue| + 1 && s'.procs[i].queue[..|s.procs[i].queue|] == s.procs[i].queue
    ensures s'.procs[i].queue[|s.procs[i].queue|].task == batch[next]
    ensures HandingAt(s'.procs[i].disp, batch, next + 1, s.now, StopCheck)
  {
    s' := Go(cfg, s, Local(i, ByDispatcher(Send)));
    hide Unattended;
  }

  lemma EndIt(cfg: Config, s: State, i: Id, batch: seq<Task>, since: nat) returns (s': State)
    requires Unattended(cfg, s) && i in s.procs && Calm(s.procs[i]) && HandingAt(s.procs[i].disp, batch, |batch|, since, StopCheck)
    ensures Unattended(cfg, s') && SameElsewhere(s, s', i) && s'.rows == s.rows
    ensures s'.now == s.now && i in s'.procs && Calm(s'.procs[i]) && s'.procs[i].queue == s.procs[i].queue
    ensures s'.procs[i].disp == Waiting(|batch| >= cfg.batchSize)
  {
    s' := Quietly(cfg, s, i, EndBatch);
    hide Unattended, SameElsewhere;
  }

  /** A poll of process `i` that finds exactly one row, claims it and queues it, all at once. */
  lemma PollOne(cfg: Config, s: State, i: Id, id: Id) returns (s': State)
    requires cfg.Valid() && Unattended(cfg, s) && i in s.procs && Calm(s.procs[i])
    requires DispatcherEnabled(cfg, s.procs[i], BeginPoll, s.now) && s.procs[i].queue == []
    requires Eligible(s.rows, s.endpoints, s.now) == {id}
    ensures id in s.rows && Unattended(cfg, s') && SameElsewhere(s, s', i) && s'.rows == MarkClaimed(s.rows, {id}, s.now)
    ensures i in s'.procs && s'.procs[i].disp == Waiting(1 >= cfg.batchSize)
    ensures |s'.procs[i].queue| == 1 && s'.procs[i].queue[0].task == TaskOf(id, s.rows[id], s.now)
  {
    hide Unattended, Eligible, MarkClaimed, SameElsewhere, Ids, SomeClaim, DispatcherEnabled, Calm, HandingAt;
    ClaimOnly(s.rows, s.endpoints, s.now, cfg.batchSize, id);
    var batch := [TaskOf(id, s.rows[id], s.now)];
    var s1 := Poll(cfg, s, i, batch);
    var s2 := ReceiveIt(cfg, s1, i);
    SameTwice(s, s1, s2, i);
    var s3 := OfferIt(cfg, s2, i, batch, 0);
    SameTwice(s, s2, s3, i);
    var s4 := SendIt(cfg, s3, i, batch, 0, s.now);
    SameTwice(s, s3, s4, i);
    s' := EndIt(cfg, s4, i, batch, s.now);
    SameTwice(s, s4, s', i);
  }

  // ---------- steps of one worker ----------

  /** Worker steps that write nothing. */
  lemma WorkerActs(cfg: Config, s: State, i: Id, w: nat, ws: WorkerStep) returns (s': State)
    requires Unattended(cfg, s) && i in s.procs && Calm(s.procs[i]) && WorkerEnabled(s.procs[i], w, ws)
    requires ws.Dequeue? || ws.LimitPass? || ws.Return? || ws == HealthDone(false)
    ensures Unattended(cfg, s') && s' == s.(procs := s'.procs) && s'.procs.Keys == s.procs.Keys
    ensures forall j <- s.procs :: j != i ==> s'.procs[j] == s.procs[j]
    ensures i in s'.procs && Calm(s'.procs[i]) && s'.procs[i].disp == s.procs[i].disp
    ensures s'.procs[i].workers == s.procs[i].workers[w := WorkerAfter(s.procs[i], w, ws, s.now)]
    ensures |s'.procs[i].turns| == |s.procs[i].turns| && s'.procs[i].tick == s.procs[i].tick
    ensures s'.procs[i].queue == if ws.Dequeue? then s.procs[i].queue[1..] else s.procs[i].queue
  {
    hide WorkerAfter, WorkerLedger;
    s' := Go(cfg, s, Local(i, ByWorker(w, ws)));
    hide Unattended;
  }

  const NO_CHANCE: Chance := Chance(None, 0)

  /** A worker writes its outcome, and is about to update the endpoint's health. */
  lemma WorkerRecords(cfg: Config, s: State, i: Id, w: nat) returns (s': State)
    requires Unattended(cfg, s) && i in s.procs && Calm(s.procs[i]) && w < |s.procs[i].workers| == |s.procs[i].turns|
    requires s.procs[i].workers[w].Recording? && s.procs[i].workers[w].task.id in s.rows
    ensures Unattended(cfg, s') && s' == s.(procs := s'.procs, rows := s'.rows, history := s'.history) && s'.procs.Keys == s.procs.Keys
    ensures forall j <- s.procs :: j != i ==> s'.procs[j] == s.procs[j]
    ensures i in s'.procs && Calm(s'.procs[i]) && s'.procs[i].disp == s.procs[i].disp && s'.procs[i].queue == s.procs[i].queue
    ensures var k := s.procs[i].workers[w];
            && s'.procs[i].workers == s.procs[i].workers[w := Health(k.task, k.start, k.at, k.result.success)]
            && s'.rows == RecordRow(s.rows, Decide(k.task, k.result, cfg.retry, s.now, NO_CHANCE), s.now)
    ensures |s'.procs[i].turns| == |s.procs[i].turns|
  {
    hide WorkerLedger, Decide, RecordRow;
    s' := Go(cfg, s, Local(i, ByWorker(w, RecordOk(NO_CHANCE))));
    hide Unattended;
  }

  /** A worker updates the health of its endpoint, and is free again. */
  lemma WorkerReports(cfg: Config, s: State, i: Id, w: nat) returns (s': State)
    requires Unattended(cfg, s) && i in s.procs && Calm(s.procs[i]) && w < |s.procs[i].workers| == |s.procs[i].turns|
    requires s.procs[i].workers[w].Health? && s.procs[i].workers[w].task.endpoint in s.endpoints
    ensures Unattended(cfg, s') && s' == s.(procs := s'.procs, endpoints := s'.endpoints) && s'.procs.Keys == s.procs.Keys
    ensures i in s'.procs && Calm(s'.procs[i]) && s'.procs[i].disp == s.procs[i].disp && s'.procs[i].queue == s.procs[i].queue
    ensures s'.procs[i].tick == s.procs[i].tick && |s'.procs[i].turns| == |s.procs[i].turns|
    ensures s'.procs[i].workers == s.procs[i].workers[w := Free]
    ensures var ep, success := s.procs[i].workers[w].task.endpoint, s.procs[i].workers[w].success;
            s'.endpoints == s.endpoints[ep := Breaker.RecordResult(s.endpoints[ep], success, cfg.maxFailures).0]
  {
    hide Breaker.RecordResult;
    s' := Go(cfg, s, Local(i, ByWorker(w, HealthDone(true))));
    hide Unattended;
  }
}
