/** What a tripped breaker stops: no new holds, and only the tasks already in flight are delivered. */
module Traffic {
  import opened Models
  import opened Recording
  import opened Table
  import opened Process
  import opened Engine

  function TaskLoad(ts: seq<Task>, ep: Id): (n: nat)
    ensures n <= |ts|
  {
    if ts == [] then 0 else (if ts[0].endpoint == ep then 1 else 0) + TaskLoad(ts[1..], ep)
  }

  /** Whether a worker holds a task for the endpoint; `begun` includes those past the limiter. */
  predicate Working(k: Worker, ep: Id, begun: bool) {
    (k.Limiting? || (begun && (k.Delivering? || k.Recording?))) && k.task.endpoint == ep
  }

  function WorkerLoad(ws: seq<Worker>, ep: Id, begun: bool): (n: nat)
    ensures n <= |ws|
  {
    if ws == [] then 0 else (if Working(ws[0], ep, begun) then 1 else 0) + WorkerLoad(ws[1..], ep, begun)
  }

  function DispatcherLoad(d: Dispatcher, ep: Id): nat {
    TaskLoad(DispatcherTasks(d), ep)
  }

  function QueueLoad(q: seq<Queued>, ep: Id): nat {
    TaskLoad(QueueTasks(q), ep)
  }

  /** Tasks a process holds for an endpoint; without `begun`, only those not yet sent out. */
  function Load(p: Proc, ep: Id, begun: bool): nat {
    DispatcherLoad(p.disp, ep) + QueueLoad(p.queue, ep) + WorkerLoad(p.workers, ep, begun)
  }

  lemma TaskLoadConcat(a: seq<Task>, b: seq<Task>, ep: Id)
    ensures TaskLoad(a + b, ep) == TaskLoad(a, ep) + TaskLoad(b, ep)
  {
    if a == [] {
      assert a + b == b;
    } else {
      assert (a + b)[1..] == a[1..] + b;
      TaskLoadConcat(a[1..], b, ep);
    }
  }

  lemma WorkerLoadUpdate(ws: seq<Worker>, w: nat, k: Worker, ep: Id, begun: bool)
    requires w < |ws|
    ensures WorkerLoad(ws[w := k], ep, begun) + (if Working(ws[w], ep, begun) then 1 else 0)
            == WorkerLoad(ws, ep, begun) + (if Working(k, ep, begun) then 1 else 0)
  {
    if w == 0 {
      assert ws[w := k][1..] == ws[1..];
    } else {
      assert ws[w := k][1..] == ws[1..][w - 1 := k];
      WorkerLoadUpdate(ws[1..], w - 1, k, ep, begun);
    }
  }

  lemma IdleLoad(ws: seq<Worker>, ep: Id, begun: bool)
    requires forall w :: 0 <= w < |ws| ==> ws[w].Free?
    ensures WorkerLoad(ws, ep, begun) == 0
  {
  }

  lemma UnrelatedLoad(ts: seq<Task>, ep: Id)
    requires forall t <- ts :: t.endpoint != ep
    ensures TaskLoad(ts, ep) == 0
  {
  }

  /** A process can hold at most a batch, a queue and a task per worker. */
  lemma LoadIsBounded(cfg: Config, p: Proc, ep: Id, begun: bool)
    requires Ok(cfg, p)
    ensures Load(p, ep, begun) <= cfg.batchSize + cfg.queueSize + cfg.workers
  {
    if p.disp.Handing? {
      SplitConserves(p.disp.batch[..p.disp.next], p.disp.sent, p.disp.failed);
    }
    hide Split, LedgerOk, PhasesOk;
  }

  predicate Unrelated(st: Step, ep: Id) {
    st.ByDispatcher? && st.d.ClaimBatch? ==> forall t <- st.d.batch :: t.endpoint != ep
  }

  lemma AdvanceLoad(d: Dispatcher, ok: bool, mark: Mark, ep: Id)
    requires d.Handing? && d.next < |d.batch|
    ensures DispatcherLoad(Advance(d, ok, mark), ep) + (if ok then TaskLoad([d.batch[d.next]], ep) else 0) == DispatcherLoad(d, ep)
  {
    var t, rest := d.batch[d.next], d.batch[d.next + 1..];
    assert d.batch[d.next..] == [t] + rest;
    TaskLoadConcat(d.failed, d.batch[d.next..], ep);
    TaskLoadConcat([t], rest, ep);
    TaskLoadConcat(d.failed, rest, ep);
    TaskLoadConcat(d.failed + [t], rest, ep);
    TaskLoadConcat(d.failed, [t], ep);
  }

  lemma DispatcherStepLoad(cfg: Config, p: Proc, d: DispatcherStep, now: nat, ep: Id)
    requires DispatcherEnabled(cfg, p, d, now) && Unrelated(ByDispatcher(d), ep)
    ensures DispatcherLoad(DispatcherAfter(cfg, p, d, now), ep) + (if d.Send? then TaskLoad([p.disp.batch[p.disp.next]], ep) else 0)
            <= DispatcherLoad(p.disp, ep)
  {
    hide TaskLoad;
    if d.Send? || d.FindClosed? || d.EnqueueTimeout? {
      AdvanceLoad(p.disp, d.Send?, Mark(now, p.turns), ep);
    } else if Settles(d) {
      SettleEmptiesDispatcher(cfg, p, d, now);
      UnrelatedLoad([], ep);
    } else if d.ClaimBatch? {
      ClaimFillsDispatcher(cfg, p, d, now);
      UnrelatedLoad(d.batch, ep);
    } else {
      OtherStepsKeepDispatcherTasks(cfg, p, d, now);
    }
    hide DispatcherAfter, DispatcherTasks, DispatcherEnabled;
  }

  lemma QueueLoadPush(q: seq<Queued>, x: Queued, ep: Id)
    ensures QueueLoad(q + [x], ep) == QueueLoad(q, ep) + TaskLoad([x.task], ep)
  {
    QueueTasksPush(q, x);
    TaskLoadConcat(QueueTasks(q), [x.task], ep);
  }

  lemma QueueLoadPop(q: seq<Queued>, ep: Id)
    requires q != []
    ensures QueueLoad(q, ep) == QueueLoad(q[1..], ep) + TaskLoad([q[0].task], ep)
  {
    QueueTasksPop(q);
    TaskLoadConcat([q[0].task], QueueTasks(q[1..]), ep);
  }

  /** A task of this endpoint passes the limiter and its HTTP request begins. */
  predicate Begins(p: Proc, st: Step, ep: Id) {
    && st.ByWorker? && st.ws.LimitPass?
    && st.w < |p.workers| && p.workers[st.w].Limiting? && p.workers[st.w].task.endpoint == ep
  }

  /** Without a claim for the endpoint, a step never adds to its load, and beginning a delivery
      takes one off the load not yet sent out. */
  lemma StepLoad(cfg: Config, p: Proc, st: Step, now: nat, ep: Id, begun: bool)
    requires Enabled(cfg, p, st, now) && Unrelated(st, ep)
    ensures Load(Apply(cfg, p, st, now), ep, begun) + (if Begins(p, st, ep) && !begun then 1 else 0) <= Load(p, ep, begun)
  {
    match st
    case ByDispatcher(d) =>
      DispatcherStepLoad(cfg, p, d, now, ep);
      if d.Send? {
        QueueLoadPush(p.queue, SentNow(p, now), ep);
      }
    case ByWorker(w, ws) => WorkerStepLoad(p, w, ws, now, ep, begun);
    case ByMain(m) =>
    hide DispatcherLoad, QueueLoad, WorkerLoad, DispatcherEnabled, DispatcherAfter, DispatcherLedger, WorkerLedger;
  }

  lemma WorkerStepLoad(p: Proc, w: nat, ws: WorkerStep, now: nat, ep: Id, begun: bool)
    requires WorkerEnabled(p, w, ws)
    ensures Load(WorkerApply(p, w, ws, now), ep, begun) + (if Begins(p, ByWorker(w, ws), ep) && !begun then 1 else 0)
            <= Load(p, ep, begun)
  {
    WorkerLoadUpdate(p.workers, w, WorkerAfter(p, w, ws, now), ep, begun);
    if ws.Dequeue? {
      QueueLoadPop(p.queue, ep);
    }
    hide DispatcherLoad, QueueLoad, WorkerLoad, WorkerLedger;
  }

  // ---------- in the engine ----------

  /** The endpoint is deleted or inactive. */
  predicate Off(s: State, ep: Id) {
    ep in s.endpoints ==> s.endpoints[ep].status.Inactive?
  }

  function LoadAt(s: State, i: Id, ep: Id, begun: bool): nat {
    if i in s.procs then Load(s.procs[i], ep, begun) else 0
  }

  predicate BeginsAt(s: State, e: Event, i: Id, ep: Id) {
    e.Local? && e.i == i && i in s.procs && Begins(s.procs[i], e.st, ep)
  }

  predicate OperatorWrites(s: State, e: Event, ep: Id) {
    e.WriteEndpoint? && e.op in s.updates && s.updates[e.op].endpoint == ep
  }

  /** Only an operator's write turns an endpoint back on. */
  lemma OffStaysOff(cfg: Config, s: State, e: Event, ep: Id)
    requires EventEnabled(cfg, s, e) && Off(s, ep) && ep < s.nextEndpoint && !OperatorWrites(s, e, ep)
    ensures Off(Next(cfg, s, e), ep) && ep < Next(cfg, s, e).nextEndpoint
  {
    hide Apply, RowsAfter, HistoryAfter, SomeClaim;
  }

  lemma ClaimsSkipOffEndpoints(cfg: Config, s: State, i: Id, st: Step, ep: Id)
    requires LocalEnabled(cfg, s, i, st) && Off(s, ep)
    ensures Unrelated(st, ep)
  {
    if st.ByDispatcher? && st.d.ClaimBatch? {
      forall t | t in st.d.batch ensures t.endpoint != ep {
        GainedIsClaimed(cfg, s, i, st, t);
      }
    }
  }

  /** While an endpoint is off, no event raises the number of tasks any process holds for it. */
  lemma OffEndpointGainsNoHolds(cfg: Config, s: State, e: Event, i: Id, ep: Id, begun: bool)
    requires ProcsBase(cfg, s) && EventEnabled(cfg, s, e) && Off(s, ep)
    ensures LoadAt(Next(cfg, s, e), i, ep, begun) + (if BeginsAt(s, e, i, ep) && !begun then 1 else 0) <= LoadAt(s, i, ep, begun)
  {
    hide Load, Begins, Apply, RowsAfter, EndpointsAfter, HistoryAfter, SomeClaim, Ok, Enabled;
    if e.Local? {
      ClaimsSkipOffEndpoints(cfg, s, e.i, e.st, ep);
      StepLoad(cfg, s.procs[e.i], e.st, s.now, ep, begun);
    } else if e.Start? {
      StartedLoad(cfg, s.now, ep, begun);
    }
  }

  lemma StartedLoad(cfg: Config, now: nat, ep: Id, begun: bool)
    ensures Load(Started(cfg, now), ep, begun) == 0
  {
    IdleLoad(Started(cfg, now).workers, ep, begun);
  }

  /** Deliveries to the endpoint that process `i` begins in the first `n` events. */
  function Deliveries(states: seq<State>, events: seq<Event>, i: Id, ep: Id, n: nat): nat
    requires n <= |events| && n <= |states|
  {
    if n == 0 then 0
    else Deliveries(states, events, i, ep, n - 1) + if BeginsAt(states[n - 1], events[n - 1], i, ep) then 1 else 0
  }

  lemma {:induction false} DeliveriesUseUpLoad(cfg: Config, states: seq<State>, events: seq<Event>, i: Id, ep: Id, n: nat)
    requires cfg.Valid() && Run(cfg, states, events) && Base(cfg, states[0]) && n <= |events|
    requires Off(states[0], ep) && ep < states[0].nextEndpoint
    requires forall k :: 0 <= k < n ==> !OperatorWrites(states[k], events[k], ep)
    ensures Base(cfg, states[n]) && Off(states[n], ep) && ep < states[n].nextEndpoint
    ensures Deliveries(states, events, i, ep, n) + LoadAt(states[n], i, ep, false) <= LoadAt(states[0], i, ep, false)
  {
    if n > 0 {
      DeliveriesUseUpLoad(cfg, states, events, i, ep, n - 1);
      var s, e := states[n - 1], events[n - 1];
      hide Next, LoadAt, Off, ProcsBase;
      EventKeepsBase(cfg, s, e);
      OffStaysOff(cfg, s, e, ep);
      OffEndpointGainsNoHolds(cfg, s, e, i, ep, false);
    }
  }

  /** From a trip (or any moment the endpoint is off) until an operator writes it, each process
      begins at most BatchSize + QueueSize + WorkerCount further deliveries to it. */
  lemma TrafficAfterTrip(cfg: Config, states: seq<State>, events: seq<Event>, i: Id, ep: Id, n: nat)
    requires cfg.Valid() && Run(cfg, states, events) && Base(cfg, states[0]) && n <= |events|
    requires Off(states[0], ep) && ep < states[0].nextEndpoint
    requires forall k :: 0 <= k < n ==> !OperatorWrites(states[k], events[k], ep)
    ensures Deliveries(states, events, i, ep, n) <= cfg.batchSize + cfg.queueSize + cfg.workers
  {
    DeliveriesUseUpLoad(cfg, states, events, i, ep, n);
    if i in states[0].procs {
      LoadIsBounded(cfg, states[0].procs[i], ep, false);
    }
  }
}
