/** What the loop of a dispatcher keeps to: its ticker, the stop signal, and the enqueue timeout. */
module Polling {
  import opened Arithmetic
  import opened Models
  import opened Process
  import opened Engine
  import opened Ownership

  /** A poll that the ticker woke, not one that follows a full batch at once. */
  predicate TickerPolls(s: State, e: Event, i: Id) {
    e == Local(i, ByDispatcher(BeginPoll)) && i in s.procs && s.procs[i].disp == Waiting(false)
  }

  /** Process i, if it is still there, waits for a tick no earlier than this. */
  predicate TickFrom(s: State, i: Id, tick: nat) {
    i < s.nextProc && (i in s.procs ==> tick <= s.procs[i].tick)
  }

  lemma PollMovesTick(cfg: Config, s: State, e: Event, i: Id) returns (n: nat)
    requires cfg.Valid() && ProcsBase(cfg, s) && EventEnabled(cfg, s, e) && TickerPolls(s, e, i)
    ensures s.procs[i].tick <= s.now < s.procs[i].tick + cfg.pollInterval * n
    ensures TickFrom(Next(cfg, s, e), i, s.procs[i].tick + cfg.pollInterval * n)
  {
    n := TickIsNext(s.procs[i].tick, cfg.pollInterval, s.now);
    hide NextTick, Ok, RowsAfter, EndpointsAfter, HistoryAfter, DispatcherLedger;
  }

  lemma StepKeepsTick(cfg: Config, p: Proc, st: Step, now: nat)
    requires cfg.Valid() && Enabled(cfg, p, st, now)
    ensures p.tick <= Apply(cfg, p, st, now).tick
  {
    if st.ByDispatcher? && st.d.BeginPoll? && !p.disp.full {
      var _ := TickIsNext(p.tick, cfg.pollInterval, now);
    }
    hide NextTick, DispatcherLedger, DispatcherAfter, WorkerAfter, WorkerLedger;
  }

  lemma EventKeepsTick(cfg: Config, s: State, e: Event, i: Id, tick: nat)
    requires cfg.Valid() && EventEnabled(cfg, s, e) && TickFrom(s, i, tick)
    ensures TickFrom(Next(cfg, s, e), i, tick)
  {
    if e.Local? {
      StepKeepsTick(cfg, s.procs[e.i], e.st, s.now);
    }
    hide Enabled, Apply, RowsAfter, EndpointsAfter, HistoryAfter;
  }

  lemma {:induction false} TickStays(cfg: Config, states: seq<State>, events: seq<Event>, k: nat, m: nat, i: Id, tick: nat)
    requires cfg.Valid() && Run(cfg, states, events) && k <= m < |states| && TickFrom(states[k], i, tick)
    ensures TickFrom(states[m], i, tick)
    decreases m - k
  {
    hide Run, Next, EventEnabled, TickFrom;
    RunLength(cfg, states, events);
    if k < m {
      RunStep(cfg, states, events, m - 1);
      TickStays(cfg, states, events, k, m - 1, i, tick);
      EventKeepsTick(cfg, states[m - 1], events[m - 1], i, tick);
    }
  }

  /** Between two polls the ticker woke lies one of its ticks, a whole number of intervals after the one
      that allowed the first. */
  lemma OnePollPerTick(cfg: Config, states: seq<State>, events: seq<Event>, k: nat, m: nat, i: Id) returns (n: nat)
    requires cfg.Valid() && Run(cfg, states, events) && states[0] == Initial() && k < m < |events|
    requires TickerPolls(states[k], events[k], i) && TickerPolls(states[m], events[m], i)
    ensures states[k].procs[i].tick <= states[k].now < states[k].procs[i].tick + cfg.pollInterval * n <= states[m].now
  {
    RunLength(cfg, states, events);
    RunStep(cfg, states, events, k);
    RunStep(cfg, states, events, m);
    ReachableBase(cfg, states, events, k);
    hide Run, Next, RowsBase, TasksBase, EndpointsBase, HistoryBase, ClaimersBase, ProcsBase;
    n := PollMovesTick(cfg, states[k], events[k], i);
    TickStays(cfg, states, events, k + 1, m, i, states[k].procs[i].tick + cfg.pollInterval * n);
  }

  // ---------- after the stop signal ----------

  /** Process i, if it is still there, has been told to stop and is past any send it had begun. */
  predicate DoneSending(s: State, i: Id) {
    && i < s.nextProc
    && (i in s.procs ==> s.procs[i].stopping && (s.procs[i].disp.Handing? ==> s.procs[i].disp.pc.StopCheck?))
  }

  predicate Sends(s: State, e: Event, i: Id) {
    e == Local(i, ByDispatcher(Send)) && i in s.procs
  }

  lemma StepKeepsDone(cfg: Config, p: Proc, st: Step, now: nat)
    requires Enabled(cfg, p, st, now) && p.stopping && (p.disp.Handing? ==> p.disp.pc.StopCheck?)
    ensures var p' := Apply(cfg, p, st, now); p'.stopping && (p'.disp.Handing? ==> p'.disp.pc.StopCheck?)
  {
    hide NextTick, DispatcherLedger, WorkerAfter, WorkerLedger;
  }

  lemma EventKeepsDone(cfg: Config, s: State, e: Event, i: Id)
    requires EventEnabled(cfg, s, e) && DoneSending(s, i)
    ensures DoneSending(Next(cfg, s, e), i)
  {
    if e.Local? && e.i == i {
      StepKeepsDone(cfg, s.procs[i], e.st, s.now);
    }
    hide Enabled, Apply, RowsAfter, EndpointsAfter, HistoryAfter;
  }

  lemma {:induction false} StaysDone(cfg: Config, states: seq<State>, events: seq<Event>, k: nat, m: nat, i: Id)
    requires Run(cfg, states, events) && k <= m < |states| && DoneSending(states[k], i)
    ensures DoneSending(states[m], i)
    decreases m - k
  {
    hide Run, Next, EventEnabled, DoneSending;
    RunLength(cfg, states, events);
    if k < m {
      RunStep(cfg, states, events, m - 1);
      StaysDone(cfg, states, events, k, m - 1, i);
      EventKeepsDone(cfg, states[m - 1], events[m - 1], i);
    }
  }

  lemma SendIsLast(cfg: Config, s: State, e: Event, i: Id)
    requires ProcsBase(cfg, s) && EventEnabled(cfg, s, e) && Sends(s, e, i) && s.procs[i].stopping
    ensures DoneSending(Next(cfg, s, e), i)
  {
    hide NextTick, Ok, DispatcherLedger, RowsAfter, EndpointsAfter, HistoryAfter;
  }

  /** Once the stop signal is given, a process sends at most the one task it has already begun to offer. */
  lemma AtMostOneSendAfterStop(cfg: Config, states: seq<State>, events: seq<Event>, k: nat, m: nat, i: Id)
    requires cfg.Valid() && Run(cfg, states, events) && states[0] == Initial() && k < m < |events|
    requires Sends(states[k], events[k], i) && states[k].procs[i].stopping
    ensures !Sends(states[m], events[m], i)
  {
    RunLength(cfg, states, events);
    RunStep(cfg, states, events, k);
    RunStep(cfg, states, events, m);
    ReachableBase(cfg, states, events, k);
    hide Run, Next, RowsBase, TasksBase, EndpointsBase, HistoryBase, ClaimersBase, ProcsBase;
    SendIsLast(cfg, states[k], events[k], i);
    StaysDone(cfg, states, events, k + 1, m, i);
  }

  // ---------- before it ----------

  /** Each task that could not be handed over has cost the dispatcher a whole enqueue timeout since the
      claim, unless the stop signal cut the batch short. */
  predicate FailuresTookTime(cfg: Config, p: Proc) {
    match p.disp
    case Fetching(batch, since, mark) => mark.at == since && forall t <- batch :: t.claimedAt == since
    case Handing(batch, _, _, failed, since, _, marks) =>
      && marks != [] && (forall t <- batch :: t.claimedAt == marks[0].at) && (forall t <- failed :: t.claimedAt == marks[0].at)
      && marks[0].at + Times(|failed|, cfg.enqueueTimeout) <= since
    case Reverting(failed, since, _) =>
      p.stopping || forall t <- failed :: t.claimedAt + Times(|failed|, cfg.enqueueTimeout) <= since
    case _ => true
  }

  /** The clock is past everything the dispatcher has noted. */
  predicate NotedBefore(p: Proc, now: nat) {
    match p.disp
    case Fetching(_, since, _) => since <= now
    case Handing(_, _, _, _, since, _, _) => since <= now
    case _ => true
  }

  lemma DispatcherFailuresTakeTime(cfg: Config, p: Proc, d: DispatcherStep, now: nat)
    requires cfg.Valid() && DispatcherEnabled(cfg, p, d, now) && !p.closed
    requires FailuresTookTime(cfg, p) && NotedBefore(p, now)
    ensures FailuresTookTime(cfg, DispatcherApply(cfg, p, d, now)) && NotedBefore(DispatcherApply(cfg, p, d, now), now)
  {
    if p.disp.Handing? {
      TimesOneMore(|p.disp.failed|, cfg.enqueueTimeout);
    }
    assert Times(0, cfg.enqueueTimeout) == 0;
    hide Times, NextTick, DispatcherLedger;
  }

  lemma StepFailuresTakeTime(cfg: Config, p: Proc, st: Step, now: nat)
    requires cfg.Valid() && Enabled(cfg, p, st, now) && Ok(cfg, p) && FailuresTookTime(cfg, p) && NotedBefore(p, now)
    ensures FailuresTookTime(cfg, Apply(cfg, p, st, now)) && NotedBefore(Apply(cfg, p, st, now), now)
  {
    hide Times, WorkerAfter, WorkerLedger, DispatcherAfter, DispatcherLedger, NextTick, LedgerOk, DispatcherEnabled;
    if st.ByDispatcher? {
      if p.disp.Exited? {
        ExitedRests(cfg, p, st.d, now);
      } else {
        DispatcherFailuresTakeTime(cfg, p, st.d, now);
      }
    }
  }

  lemma ExitedRests(cfg: Config, p: Proc, d: DispatcherStep, now: nat)
    requires p.disp.Exited?
    ensures !DispatcherEnabled(cfg, p, d, now)
  {
  }

  ghost predicate AllTookTime(cfg: Config, s: State) {
    forall i <- s.procs :: FailuresTookTime(cfg, s.procs[i]) && NotedBefore(s.procs[i], s.now)
  }

  lemma EventKeepsTookTime(cfg: Config, s: State, e: Event)
    requires cfg.Valid() && ProcsBase(cfg, s) && EventEnabled(cfg, s, e) && AllTookTime(cfg, s)
    ensures AllTookTime(cfg, Next(cfg, s, e))
  {
    if e.Local? {
      StepFailuresTakeTime(cfg, s.procs[e.i], e.st, s.now);
    } else if e.Start? {
      assert FailuresTookTime(cfg, Started(cfg, s.now)) && NotedBefore(Started(cfg, s.now), s.now);
    } else if e.Tick? {
      forall i | i in s.procs ensures NotedBefore(s.procs[i], s.now + e.d) {
      }
      hide NotedBefore;
    }
    hide FailuresTookTime, Ok, Enabled, Apply, RowsAfter, EndpointsAfter, HistoryAfter;
  }

  /** In every run: a process that has not been told to stop and gives n claimed tasks back has spent at
      least n enqueue timeouts on them since their claim. */
  lemma {:induction false} GivingUpTakesTime(cfg: Config, states: seq<State>, events: seq<Event>, k: nat)
    requires cfg.Valid() && Run(cfg, states, events) && states[0] == Initial() && k < |states|
    ensures AllTookTime(cfg, states[k])
  {
    if k > 0 {
      hide Next, EventEnabled, AllTookTime, RowsBase, ProcsBase, TasksBase, EndpointsBase, HistoryBase, ClaimersBase;
      GivingUpTakesTime(cfg, states, events, k - 1);
      RunStep(cfg, states, events, k - 1);
      ReachableBase(cfg, states, events, k - 1);
      EventKeepsTookTime(cfg, states[k - 1], events[k - 1]);
    }
  }

  lemma RevertedTookTime(cfg: Config, states: seq<State>, events: seq<Event>, k: nat, i: Id, t: Task)
    requires cfg.Valid() && Run(cfg, states, events) && states[0] == Initial() && k < |states| && i in states[k].procs
    requires var p := states[k].procs[i]; p.disp.Reverting? && !p.stopping && t in p.disp.failed
    ensures var d := states[k].procs[i].disp; t.claimedAt + |d.failed| * cfg.enqueueTimeout <= d.since
  {
    GivingUpTakesTime(cfg, states, events, k);
    hide Run, Initial;
  }
}
