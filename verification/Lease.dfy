/** How long a process can hold a claimed row. The deadlines are the context timeouts of the
    dispatcher, the pool and the recorder; waiting in the queue has no deadline of its own, and is
    bounded by counting how often each worker must have come back for another task. */
module Lease {
  import opened Arithmetic
  import opened Models
  import opened Recording
  import opened Process

  /** Rounds of W dequeues after which the last of Q queued tasks has been taken. */
  function Rounds(cfg: Config): nat
    requires cfg.Valid()
  {
    Ceiling(cfg.queueSize, cfg.workers)
  }

  lemma RoundsCoverQueue(cfg: Config)
    requires cfg.Valid()
    ensures cfg.queueSize <= Rounds(cfg) * cfg.workers < cfg.queueSize + cfg.workers
  {
    CeilingBounds(cfg.queueSize, cfg.workers);
  }

  /** Dequeues the last round has to spare: none when WorkerCount divides QueueSize. */
  function Slack(cfg: Config): nat
    requires cfg.Valid()
  {
    RoundsCoverQueue(cfg);
    Rounds(cfg) * cfg.workers - cfg.queueSize
  }

  /** The end of this send is one round of dequeues before that of the n-th; number 0 is the claim. */
  function RoundBefore(cfg: Config, n: nat): nat {
    if n <= cfg.workers then 0 else n - cfg.workers
  }

  /** From the claim to the end of the n-th send of its batch: no send takes longer than its timeout,
      and W of them no longer than a task, because each worker that comes back makes room for one. */
  function SendsBound(cfg: Config, n: nat): nat
    requires cfg.Valid()
  {
    if n == 0 then 0
    else Min(Max(DB_TIMEOUT, SendsBound(cfg, n - 1)) + cfg.enqueueTimeout, SendsBound(cfg, RoundBefore(cfg, n)) + cfg.TaskTimeout())
  }

  lemma {:induction false} SendsBoundNext(cfg: Config, n: nat)
    requires cfg.Valid()
    ensures SendsBound(cfg, n) <= SendsBound(cfg, n + 1) && DB_TIMEOUT <= SendsBound(cfg, n + 1)
  {
    if 0 < n {
      SendsBoundNext(cfg, n - 1);
      if cfg.workers < n {
        SendsBoundNext(cfg, n - cfg.workers);
      }
    }
  }

  lemma {:induction false} SendsBoundRises(cfg: Config, m: nat, n: nat)
    requires cfg.Valid() && m <= n
    ensures SendsBound(cfg, m) <= SendsBound(cfg, n)
    ensures 0 < n ==> DB_TIMEOUT <= SendsBound(cfg, n)
    decreases n
  {
    if 0 < n {
      SendsBoundNext(cfg, n - 1);
      if m < n {
        SendsBoundRises(cfg, m, n - 1);
      }
    }
  }

  lemma {:induction false} SendsAddUp(cfg: Config, n: nat)
    requires cfg.Valid() && DB_TIMEOUT + Times(cfg.workers, cfg.enqueueTimeout) <= cfg.TaskTimeout() && 0 < n
    ensures SendsBound(cfg, n) == DB_TIMEOUT + Times(n, cfg.enqueueTimeout)
  {
    var w, e := cfg.workers, cfg.enqueueTimeout;
    TimesOneMore(n - 1, e);
    if n == 1 {
      assert Times(0, e) == 0;
    } else {
      SendsAddUp(cfg, n - 1);
    }
    if n <= w {
      TimesSum(n, w - n, e);
    } else {
      SendsAddUp(cfg, n - w);
      TimesSum(n - w, w, e);
    }
    hide Times, Config.TaskTimeout;
  }

  /** When a task outlasts the reply to a claim and a whole send for every worker, each send can take
      its whole timeout. */
  lemma SendsTakeTheirTime(cfg: Config, n: nat)
    requires cfg.Valid() && DB_TIMEOUT + cfg.workers * cfg.enqueueTimeout <= cfg.TaskTimeout() && 0 < n
    ensures SendsBound(cfg, n) == DB_TIMEOUT + n * cfg.enqueueTimeout
  {
    SendsAddUp(cfg, n);
    hide SendsBound, Config.TaskTimeout;
  }

  /** From the claim to the moment from which the rounds of the queue are counted, for the task sent
      as number `sends` of its batch. The spare dequeues of the last round make up for as many sends. */
  function MarkBound(cfg: Config, sends: nat): nat
    requires cfg.Valid()
  {
    if sends > Slack(cfg) then SendsBound(cfg, sends - Slack(cfg)) else 0
  }

  function After(start: nat, rounds: nat, length: nat): nat {
    start + rounds * length
  }

  /** From the claim to the end of the completion call. */
  function HoldBound(cfg: Config): nat
    requires cfg.Valid()
  {
    After(MarkBound(cfg, cfg.batchSize), Rounds(cfg) + 1, cfg.TaskTimeout())
  }

  /** A revert is over sooner. */
  lemma RevertIsSooner(cfg: Config)
    requires cfg.Valid()
    ensures SendsBound(cfg, cfg.batchSize) + DB_TIMEOUT <= HoldBound(cfg)
  {
    RoundsCoverQueue(cfg);
    if cfg.batchSize > Slack(cfg) {
      SendsBoundRises(cfg, RoundBefore(cfg, cfg.batchSize), cfg.batchSize - Slack(cfg));
    }
    assert SendsBound(cfg, RoundBefore(cfg, cfg.batchSize)) <= MarkBound(cfg, cfg.batchSize);
    assert SendsBound(cfg, cfg.batchSize) <= MarkBound(cfg, cfg.batchSize) + cfg.TaskTimeout();
    hide SendsBound, MarkBound, Slack, RoundBefore;
    assert 0 < Rounds(cfg);
    TimesMonotone(2, Rounds(cfg) + 1, cfg.TaskTimeout());
    hide Rounds;
  }

  /** The default configuration does not fit the lease: even if the limiter never delays a task, its
      bound is 840 seconds, not 300. */
  lemma DefaultsExceedLease(limiterWait: nat)
    requires limiterWait <= LIMITER_TIMEOUT
    ensures Defaults(limiterWait).Valid()
    ensures HoldBound(Defaults(limiterWait)) == 840 * SECOND + 21 * limiterWait > LEASE
  {
    SendsTakeTheirTime(Defaults(limiterWait), 50);
    hide SendsBound;
  }

  predicate Busy(k: Worker) {
    !k.Free? && !k.Gone?
  }

  /** Time may reach `t` in this state: no deadline passes unnoticed, a dispatcher between two
      blocking calls does not dawdle, it misses no tick, it waits in a send only while the queue is full,
      and no worker idles beside a queued task. */
  predicate Due(cfg: Config, p: Proc, t: nat) {
    && DispatcherDue(cfg, p, t)
    && (forall w :: 0 <= w < |p.workers| ==> WorkerDue(cfg, p.workers[w], t))
    && (p.queue != [] ==> forall w :: 0 <= w < |p.workers| ==> !p.workers[w].Free?)
  }

  predicate DispatcherDue(cfg: Config, p: Proc, t: nat) {
    match p.disp
    case Waiting(full) => !full && t <= p.tick
    case Fetching(_, since, _) => t <= since + DB_TIMEOUT
    case Handing(_, _, _, _, since, pc, _) =>
      if pc.Sending? then t <= since + cfg.enqueueTimeout && |p.queue| == cfg.queueSize else t <= since
    case Reverting(_, since, _) => t <= since + DB_TIMEOUT
    case _ => true
  }

  predicate WorkerDue(cfg: Config, k: Worker, t: nat) {
    match k
    case Limiting(_, start) => t <= start + cfg.limiterWait
    case Delivering(_, _, at) => t <= at + HTTP_TIMEOUT
    case Recording(_, _, at, _) => t <= at + DB_TIMEOUT
    case Health(_, _, at, _) => t <= at + DB_TIMEOUT
    case _ => true
  }

  // ---------- the timing invariant ----------

  /** The claim and the ends of the sends so far: in order, and none later than it may be. */
  predicate MarksInTime(cfg: Config, marks: seq<Mark>, until: nat)
    requires cfg.Valid()
  {
    && (forall k :: 0 <= k < |marks| ==> marks[k].at <= until && marks[k].at <= marks[0].at + SendsBound(cfg, k))
    && (forall k, l :: 0 <= k <= l < |marks| ==> marks[k].at <= marks[l].at)
  }

  predicate DispatcherOnTime(cfg: Config, d: Dispatcher, now: nat)
    requires cfg.Valid()
  {
    match d
    case Fetching(batch, since, mark) =>
      && since <= now <= since + DB_TIMEOUT && mark.at == since
      && forall t <- batch :: t.claimedAt == since
    case Handing(batch, next, _, failed, since, pc, marks) =>
      && since <= now <= since + (if pc.Sending? then cfg.enqueueTimeout else 0)
      && |marks| == next + 1
      && (forall t <- batch :: t.claimedAt == marks[0].at)
      && since <= marks[0].at + Max(DB_TIMEOUT, SendsBound(cfg, next))
      && now <= marks[RoundBefore(cfg, next + 1)].at + cfg.TaskTimeout()
      && MarksInTime(cfg, marks, since)
      && (forall t <- failed :: t in batch)
    case Reverting(failed, since, _) =>
      && since <= now <= since + DB_TIMEOUT
      && forall t <- failed :: t.claimedAt <= since <= t.claimedAt + SendsBound(cfg, cfg.batchSize)
    case _ => true
  }

  predicate WorkerOnTime(cfg: Config, k: Worker, now: nat)
    requires cfg.Valid()
  {
    && WorkerDue(cfg, k, now)
    && (Busy(k) ==> && k.task.claimedAt <= k.start <= now
                    && k.start <= k.task.claimedAt + MarkBound(cfg, cfg.batchSize) + Rounds(cfg) * cfg.TaskTimeout())
    && (k.Delivering? ==> k.at <= k.start + cfg.limiterWait)
    && (k.Recording? || k.Health? ==> k.at <= k.start + cfg.limiterWait + HTTP_TIMEOUT)
  }

  /** Since time `at`, a worker has come back for a task at least once every TaskTimeout. */
  predicate OnTurn(cfg: Config, k: Worker, turns: nat, turnsThen: nat, at: nat, now: nat) {
    && turnsThen <= turns
    && !k.Gone?
    && (Busy(k) ==> k.start <= at + (turns - turnsThen) * cfg.TaskTimeout())
    && (k.Free? ==> now <= at + (turns - turnsThen + 1) * cfg.TaskTimeout())
  }

  /** Dequeues by all workers between two snapshots of their turn counters. */
  function Gain(turns: seq<nat>, before: seq<nat>): int
    requires |turns| == |before|
  {
    if turns == [] then 0 else turns[0] - before[0] + Gain(turns[1..], before[1..])
  }

  /** Every worker has kept its turns since the mark. */
  predicate Live(cfg: Config, p: Proc, m: Mark, now: nat) {
    && m.at <= now
    && |m.turns| == |p.turns| == |p.workers|
    && forall w :: 0 <= w < |p.workers| ==> OnTurn(cfg, p.workers[w], p.turns[w], m.turns[w], m.at, now)
  }

  /** Of what was queued at the mark or sent since, at most `sends` tasks, the rest has been taken. */
  predicate LiveMark(cfg: Config, p: Proc, m: Mark, sends: int, now: nat) {
    Live(cfg, p, m, now) && |p.queue| + Gain(p.turns, m.turns) <= cfg.queueSize + sends
  }

  predicate MarksOnTime(cfg: Config, p: Proc, now: nat) {
    match p.disp
    case Fetching(_, _, mark) => LiveMark(cfg, p, mark, 0, now)
    case Handing(_, next, _, _, _, _, marks) => forall k :: 0 <= k < |marks| ==> LiveMark(cfg, p, marks[k], next - k, now)
    case _ => true
  }

  /** The mark a queued task's wait is counted from: as many sends before its own as there is slack,
      or else the claim. */
  function MarkOf(cfg: Config, marks: seq<Mark>): Mark
    requires cfg.Valid() && marks != []
  {
    marks[if |marks| - 1 > Slack(cfg) then |marks| - 1 - Slack(cfg) else 0]
  }

  predicate QueuedOnTime(cfg: Config, p: Proc, j: nat, now: nat)
    requires cfg.Valid() && j < |p.queue|
  {
    var q := p.queue[j];
    && q.marks != []
    && var m := MarkOf(cfg, q.marks);
    && q.task.claimedAt <= m.at <= q.task.claimedAt + MarkBound(cfg, cfg.batchSize)
    && Live(cfg, p, m, now)
    && Gain(p.turns, m.turns) + j < Rounds(cfg) * cfg.workers
  }

  predicate OnTime(cfg: Config, p: Proc, now: nat)
    requires cfg.Valid()
  {
    && DispatcherOnTime(cfg, p.disp, now)
    && MarksOnTime(cfg, p, now)
    && (forall w :: 0 <= w < |p.workers| ==> WorkerOnTime(cfg, p.workers[w], now))
    && (forall j :: 0 <= j < |p.queue| ==> QueuedOnTime(cfg, p, j, now))
  }

  lemma StartedOnTime(cfg: Config, start: nat, now: nat)
    requires cfg.Valid()
    ensures OnTime(cfg, Started(cfg, start), now)
  {
  }

  // ---------- counting turns ----------

  lemma GainSelf(turns: seq<nat>)
    ensures Gain(turns, turns) == 0
  {
  }

  lemma GainTurn(turns: seq<nat>, before: seq<nat>, w: nat)
    requires |turns| == |before| && w < |turns|
    ensures Gain(turns[w := turns[w] + 1], before) == Gain(turns, before) + 1
  {
    if w > 0 {
      assert turns[w := turns[w] + 1][1..] == turns[1..][w - 1 := turns[1..][w - 1] + 1];
      GainTurn(turns[1..], before[1..], w - 1);
    } else {
      assert turns[w := turns[w] + 1][1..] == turns[1..];
    }
  }

  lemma GainAtLeast(turns: seq<nat>, before: seq<nat>, k: nat)
    requires |turns| == |before|
    requires forall w :: 0 <= w < |turns| ==> before[w] + k <= turns[w]
    ensures k * |turns| <= Gain(turns, before)
  {
    if turns != [] {
      GainAtLeast(turns[1..], before[1..], k);
      assert k * |turns| == k * |turns[1..]| + k;
    }
  }

  lemma BusyIsBounded(cfg: Config, k: Worker, now: nat)
    requires cfg.Valid() && WorkerOnTime(cfg, k, now) && Busy(k)
    ensures now <= k.start + cfg.TaskTimeout()
  {
  }

  lemma EnoughTurns(at: nat, now: nat, turns: nat, rounds: nat, k: nat)
    requires at + rounds * k < now <= at + (turns + 1) * k
    ensures rounds <= turns
  {
    TimesCancel(rounds, turns + 1, k);
  }

  /** A worker that has kept its turns since `at` has come back `rounds` times by at + rounds * TaskTimeout. */
  lemma TurnsCome(cfg: Config, k: Worker, turns: nat, turnsThen: nat, at: nat, now: nat, rounds: nat)
    requires cfg.Valid() && WorkerOnTime(cfg, k, now) && OnTurn(cfg, k, turns, turnsThen, at, now)
    requires at + rounds * cfg.TaskTimeout() < now
    ensures turnsThen + rounds <= turns
  {
    if Busy(k) {
      BusyIsBounded(cfg, k, now);
    }
    TimesNext(turns - turnsThen, cfg.TaskTimeout());
    hide WorkerOnTime, Config.TaskTimeout;
    EnoughTurns(at, now, turns - turnsThen, rounds, cfg.TaskTimeout());
  }

  /** No task waits in the queue for longer than Rounds * TaskTimeout after its mark. */
  lemma QueueWaitIsBounded(cfg: Config, p: Proc, j: nat, now: nat)
    requires cfg.Valid() && Ok(cfg, p) && OnTime(cfg, p, now) && j < |p.queue|
    ensures p.queue[j].marks != []
    ensures now <= MarkOf(cfg, p.queue[j].marks).at + Rounds(cfg) * cfg.TaskTimeout()
  {
    hide Ok, LedgerOk, MarkOf, WorkerOnTime, OnTurn, DispatcherOnTime, MarksOnTime, Rounds, Config.TaskTimeout, MarkBound;
    assert QueuedOnTime(cfg, p, j, now);
    var m, rounds := MarkOf(cfg, p.queue[j].marks), Rounds(cfg);
    if m.at + rounds * cfg.TaskTimeout() < now {
      forall w | 0 <= w < |p.workers| ensures m.turns[w] + rounds <= p.turns[w] {
        TurnsCome(cfg, p.workers[w], p.turns[w], m.turns[w], m.at, now, rounds);
      }
      GainAtLeast(p.turns, m.turns, rounds);
      OkWorkers(cfg, p);
      assert false;
    }
  }

  lemma OkWorkers(cfg: Config, p: Proc)
    requires Ok(cfg, p)
    ensures |p.workers| == |p.turns| == cfg.workers && |p.queue| <= cfg.queueSize && DispatcherOk(cfg, p.disp)
    ensures forall w :: 0 <= w < |p.workers| && p.workers[w].Gone? ==> p.closed && p.queue == []
    ensures p.closed ==> p.disp.Exited?
  {
  }

  // ---------- every step keeps the timing ----------

  /** The send under way ends in time, too. */
  lemma NextSendInTime(cfg: Config, d: Dispatcher, now: nat)
    requires cfg.Valid() && d.Handing? && DispatcherOnTime(cfg, d, now)
    ensures d.marks[0].at <= now <= d.marks[0].at + SendsBound(cfg, d.next + 1)
    ensures !d.pc.Sending? ==> now <= d.marks[0].at + Max(DB_TIMEOUT, SendsBound(cfg, d.next))
  {
    SendsBoundRises(cfg, d.next, d.next + 1);
    hide Config.TaskTimeout;
  }

  lemma OneMoreMark(cfg: Config, marks: seq<Mark>, until: nat, mark: Mark)
    requires cfg.Valid() && marks != [] && MarksInTime(cfg, marks, until)
    requires until <= mark.at <= marks[0].at + SendsBound(cfg, |marks|)
    ensures MarksInTime(cfg, marks + [mark], mark.at)
  {
    hide SendsBound;
  }

  lemma AdvanceOnTime(cfg: Config, d: Dispatcher, ok: bool, mark: Mark)
    requires cfg.Valid() && d.Handing? && d.next < |d.batch| <= cfg.batchSize
    requires DispatcherOnTime(cfg, d, mark.at)
    ensures DispatcherOnTime(cfg, Advance(d, ok, mark), mark.at)
  {
    NextSendInTime(cfg, d, mark.at);
    OneMoreMark(cfg, d.marks, d.since, mark);
    var marks := d.marks + [mark];
    assert marks[RoundBefore(cfg, d.next + 1)].at <= marks[RoundBefore(cfg, d.next + 2)].at;
    hide SendsBound, MarksInTime, RoundBefore, Config.TaskTimeout;
  }

  lemma ReceiveOnTime(cfg: Config, p: Proc, now: nat)
    requires cfg.Valid() && p.disp.Fetching? && p.disp.batch != [] && DispatcherOnTime(cfg, p.disp, now)
    ensures DispatcherOnTime(cfg, DispatcherAfter(cfg, p, Receive, now), now)
  {
  }

  lemma StopOnTime(cfg: Config, p: Proc, d: DispatcherStep, now: nat)
    requires cfg.Valid() && DispatcherOk(cfg, p.disp) && DispatcherEnabled(cfg, p, d, now) && (d.SeeStop? || d.EndBatch?)
    requires DispatcherOnTime(cfg, p.disp, now)
    ensures DispatcherOnTime(cfg, DispatcherAfter(cfg, p, d, now), now)
  {
    hide Split;
    NextSendInTime(cfg, p.disp, now);
    SendsBoundRises(cfg, p.disp.next, cfg.batchSize);
    hide SendsBound, Config.TaskTimeout;
  }

  lemma DispatcherStepOnTime(cfg: Config, p: Proc, d: DispatcherStep, now: nat)
    requires cfg.Valid() && DispatcherOk(cfg, p.disp) && DispatcherEnabled(cfg, p, d, now)
    requires DispatcherOnTime(cfg, p.disp, now)
    ensures DispatcherOnTime(cfg, DispatcherAfter(cfg, p, d, now), now)
  {
    hide Split, SendsBound, Config.TaskTimeout;
    if d.FindClosed? || d.Send? || d.EnqueueTimeout? {
      hide DispatcherOnTime;
      AdvanceOnTime(cfg, p.disp, d.Send?, Mark(now, p.turns));
    } else if d.Receive? && p.disp.batch != [] {
      ReceiveOnTime(cfg, p, now);
    } else if d.SeeStop? || d.EndBatch? {
      StopOnTime(cfg, p, d, now);
    }
  }

  /** A mark made now is live. */
  lemma MarkIsLive(cfg: Config, p: Proc, now: nat)
    requires cfg.Valid() && Ok(cfg, p) && !p.closed
    requires forall w :: 0 <= w < |p.workers| ==> WorkerOnTime(cfg, p.workers[w], now)
    ensures LiveMark(cfg, p, Mark(now, p.turns), 0, now)
  {
    OkWorkers(cfg, p);
    hide Ok;
    GainSelf(p.turns);
  }

  /** A dispatcher step leaves workers and turns alone, and sends at most one task. */
  lemma LiveAfterDispatcher(cfg: Config, p: Proc, p': Proc, m: Mark, sends: int, now: nat)
    requires LiveMark(cfg, p, m, sends, now) && p'.workers == p.workers && p'.turns == p.turns
    ensures |p'.queue| <= |p.queue| + 1 ==> LiveMark(cfg, p', m, sends + 1, now)
    ensures |p'.queue| <= |p.queue| ==> LiveMark(cfg, p', m, sends, now)
  {
  }

  lemma AdvanceKeepsMarks(cfg: Config, p: Proc, p': Proc, ok: bool, now: nat)
    requires cfg.Valid() && Ok(cfg, p) && OnTime(cfg, p, now) && p.disp.Handing? && p.disp.next < |p.disp.batch|
    requires p'.disp == Advance(p.disp, ok, Mark(now, p.turns)) && p'.workers == p.workers && p'.turns == p.turns
    requires |p'.queue| <= |p.queue| + 1 && |p'.queue| <= cfg.queueSize
    ensures MarksOnTime(cfg, p', now)
  {
    OkWorkers(cfg, p);
    MarkIsLive(cfg, p, now);
    GainSelf(p.turns);
    hide Ok, WorkerOnTime, OnTurn, QueuedOnTime;
    var marks := p'.disp.marks;
    forall k | 0 <= k < |marks| ensures LiveMark(cfg, p', marks[k], p'.disp.next - k, now) {
      if k < |p.disp.marks| {
        assert LiveMark(cfg, p, p.disp.marks[k], p.disp.next - k, now);
        LiveAfterDispatcher(cfg, p, p', p.disp.marks[k], p.disp.next - k, now);
      }
    }
  }

  lemma DispatcherStepKeepsMarks(cfg: Config, p: Proc, d: DispatcherStep, now: nat)
    requires cfg.Valid() && Ok(cfg, p) && Enabled(cfg, p, ByDispatcher(d), now) && OnTime(cfg, p, now)
    ensures MarksOnTime(cfg, DispatcherApply(cfg, p, d, now), now)
  {
    OkWorkers(cfg, p);
    var p' := DispatcherApply(cfg, p, d, now);
    hide Ok, WorkerOnTime, Live, QueuedOnTime, DispatcherLedger, Gain;
    if d.FindClosed? || d.Send? || d.EnqueueTimeout? {
      AdvanceKeepsMarks(cfg, p, p', d.Send?, now);
    } else if d.ClaimBatch? {
      MarkIsLive(cfg, p, now);
    }
  }

  lemma SentInTime(cfg: Config, marks: seq<Mark>, sends: nat)
    requires cfg.Valid() && 0 < sends <= cfg.batchSize && |marks| == sends + 1
    requires MarksInTime(cfg, marks, marks[sends].at)
    ensures marks[0].at <= MarkOf(cfg, marks).at <= marks[0].at + MarkBound(cfg, cfg.batchSize)
  {
    hide Slack, Rounds, SendsBound;
    if sends > Slack(cfg) {
      SendsBoundRises(cfg, sends - Slack(cfg), cfg.batchSize - Slack(cfg));
    }
  }

  lemma SentMarksInTime(cfg: Config, d: Dispatcher, mark: Mark)
    requires cfg.Valid() && d.Handing? && d.next < |d.batch| <= cfg.batchSize && DispatcherOnTime(cfg, d, mark.at)
    ensures var marks := d.marks + [mark];
            && |d.marks| == d.next + 1
            && d.batch[d.next].claimedAt == marks[0].at <= MarkOf(cfg, marks).at <= marks[0].at + MarkBound(cfg, cfg.batchSize)
  {
    AdvanceOnTime(cfg, d, true, mark);
    hide SendsBound, MarksInTime, MarkOf, MarkBound, Config.TaskTimeout;
    SentInTime(cfg, d.marks + [mark], d.next + 1);
  }

  /** A task sent now is behind fewer tasks, counted from its mark, than the rounds take. */
  lemma SentOnTime(cfg: Config, p: Proc, now: nat)
    requires cfg.Valid() && Ok(cfg, p) && OnTime(cfg, p, now) && DispatcherEnabled(cfg, p, Send, now)
    ensures var p' := DispatcherApply(cfg, p, Send, now);
            QueuedOnTime(cfg, p', |p.queue|, now)
  {
    OkWorkers(cfg, p);
    var d, p' := p.disp, DispatcherApply(cfg, p, Send, now);
    var marks := d.marks + [Mark(now, p.turns)];
    SentMarksInTime(cfg, d, Mark(now, p.turns));
    MarkIsLive(cfg, p, now);
    RoundsCoverQueue(cfg);
    hide Ok, WorkerOnTime, OnTurn, Rounds, MarkBound, DispatcherLedger, DispatcherOnTime, Split, Gain;
    assert p'.queue[|p.queue|] == SentNow(p, now);
    var k := if |marks| - 1 > Slack(cfg) then |marks| - 1 - Slack(cfg) else 0;
    if k < |d.marks| {
      assert MarkOf(cfg, marks) == d.marks[k] && LiveMark(cfg, p, d.marks[k], d.next - k, now);
      LiveAfterDispatcher(cfg, p, p', d.marks[k], d.next - k, now);
    } else {
      assert MarkOf(cfg, marks) == Mark(now, p.turns);
      GainSelf(p.turns);
      LiveAfterDispatcher(cfg, p, p', Mark(now, p.turns), 0, now);
    }
  }

  lemma DispatcherStepKeepsQueueOnTime(cfg: Config, p: Proc, d: DispatcherStep, now: nat)
    requires cfg.Valid() && Ok(cfg, p) && Enabled(cfg, p, ByDispatcher(d), now) && OnTime(cfg, p, now)
    ensures OnTime(cfg, DispatcherApply(cfg, p, d, now), now)
  {
    OkWorkers(cfg, p);
    DispatcherStepOnTime(cfg, p, d, now);
    DispatcherStepKeepsMarks(cfg, p, d, now);
    if d.Send? {
      SentOnTime(cfg, p, now);
    }
    hide Ok, DispatcherEnabled, DispatcherOnTime, MarksOnTime, DispatcherAfter, DispatcherLedger, WorkerOnTime, OnTurn, MarkOf;
    var p' := DispatcherApply(cfg, p, d, now);
    forall j | 0 <= j < |p'.queue| ensures QueuedOnTime(cfg, p', j, now) {
      if j < |p.queue| {
        assert QueuedOnTime(cfg, p, j, now);
      }
    }
  }

  lemma WorkerStepOnTime(cfg: Config, p: Proc, w: nat, ws: WorkerStep, now: nat)
    requires cfg.Valid() && Ok(cfg, p) && WorkerEnabled(p, w, ws) && OnTime(cfg, p, now)
    ensures WorkerOnTime(cfg, WorkerAfter(p, w, ws, now), now)
  {
    assert WorkerOnTime(cfg, p.workers[w], now);
    if ws.Dequeue? {
      QueueWaitIsBounded(cfg, p, 0, now);
      assert QueuedOnTime(cfg, p, 0, now);
    }
    hide Ok, Rounds, MarkBound, MarkOf, QueuedOnTime;
  }

  /** The stepping worker keeps its turns. */
  lemma WorkerStepKeepsTurn(cfg: Config, p: Proc, w: nat, ws: WorkerStep, now: nat, turnsThen: nat, at: nat)
    requires cfg.Valid() && WorkerEnabled(p, w, ws) && WorkerOnTime(cfg, p.workers[w], now)
    requires OnTurn(cfg, p.workers[w], p.turns[w], turnsThen, at, now) && !ws.WorkerExit?
    ensures OnTurn(cfg, WorkerAfter(p, w, ws, now), if ws.Dequeue? then p.turns[w] + 1 else p.turns[w], turnsThen, at, now)
  {
    if Busy(p.workers[w]) {
      BusyIsBounded(cfg, p.workers[w], now);
    }
    TimesNext(p.turns[w] - turnsThen, cfg.TaskTimeout());
    hide Rounds, MarkBound, Config.TaskTimeout;
  }

  lemma WorkerStepKeepsLive(cfg: Config, p: Proc, w: nat, ws: WorkerStep, now: nat, m: Mark)
    requires cfg.Valid() && WorkerEnabled(p, w, ws) && WorkerOnTime(cfg, p.workers[w], now) && !ws.WorkerExit?
    requires Live(cfg, p, m, now)
    ensures Live(cfg, WorkerApply(p, w, ws, now), m, now)
    ensures Gain(WorkerApply(p, w, ws, now).turns, m.turns) == Gain(p.turns, m.turns) + (if ws.Dequeue? then 1 else 0)
  {
    assert OnTurn(cfg, p.workers[w], p.turns[w], m.turns[w], m.at, now);
    WorkerStepKeepsTurn(cfg, p, w, ws, now, m.turns[w], m.at);
    GainTurn(p.turns, m.turns, w);
    hide WorkerAfter, WorkerLedger, OnTurn, WorkerOnTime, Gain;
  }

  lemma WorkerStepKeepsQueued(cfg: Config, p: Proc, w: nat, ws: WorkerStep, now: nat, j: nat)
    requires cfg.Valid() && WorkerEnabled(p, w, ws) && OnTime(cfg, p, now)
    requires j < |p.queue| && (ws.Dequeue? ==> 0 < j)
    ensures QueuedOnTime(cfg, WorkerApply(p, w, ws, now), if ws.Dequeue? then j - 1 else j, now)
  {
    assert QueuedOnTime(cfg, p, j, now);
    WorkerStepKeepsLive(cfg, p, w, ws, now, MarkOf(cfg, p.queue[j].marks));
    hide WorkerAfter, WorkerLedger, Live, WorkerOnTime, DispatcherOnTime, MarksOnTime, MarkOf, MarkBound, Rounds;
  }

  /** Workers leave only after the dispatcher has. */
  lemma ExitComesLast(cfg: Config, p: Proc, w: nat, ws: WorkerStep)
    requires Ok(cfg, p) && WorkerEnabled(p, w, ws) && ws.WorkerExit?
    ensures p.disp.Exited?
  {
  }

  lemma WorkerStepKeepsMarks(cfg: Config, p: Proc, w: nat, ws: WorkerStep, now: nat)
    requires cfg.Valid() && Ok(cfg, p) && WorkerEnabled(p, w, ws) && OnTime(cfg, p, now)
    ensures MarksOnTime(cfg, WorkerApply(p, w, ws, now), now)
  {
    if ws.WorkerExit? {
      ExitComesLast(cfg, p, w, ws);
    } else if p.disp.Fetching? {
      WorkerStepKeepsLive(cfg, p, w, ws, now, p.disp.mark);
    } else if p.disp.Handing? {
      var p' := WorkerApply(p, w, ws, now);
      forall k | 0 <= k < |p.disp.marks| ensures LiveMark(cfg, p', p.disp.marks[k], p.disp.next - k, now) {
        assert LiveMark(cfg, p, p.disp.marks[k], p.disp.next - k, now);
        WorkerStepKeepsLive(cfg, p, w, ws, now, p.disp.marks[k]);
      }
    }
    hide Ok, WorkerAfter, WorkerLedger, Live, WorkerOnTime, QueuedOnTime;
  }

  lemma WorkerStepKeepsOnTime(cfg: Config, p: Proc, w: nat, ws: WorkerStep, now: nat)
    requires cfg.Valid() && Ok(cfg, p) && WorkerEnabled(p, w, ws) && OnTime(cfg, p, now)
    ensures OnTime(cfg, WorkerApply(p, w, ws, now), now)
  {
    WorkerStepOnTime(cfg, p, w, ws, now);
    WorkerStepKeepsMarks(cfg, p, w, ws, now);
    var p' := WorkerApply(p, w, ws, now);
    forall j | 0 <= j < |p'.queue| ensures QueuedOnTime(cfg, p', j, now) {
      WorkerStepKeepsQueued(cfg, p, w, ws, now, if ws.Dequeue? then j + 1 else j);
    }
    hide Ok, WorkerAfter, WorkerLedger, WorkerOnTime, DispatcherOnTime, MarksOnTime, QueuedOnTime;
  }

  lemma MainStepKeepsOnTime(cfg: Config, p: Proc, m: MainStep, now: nat)
    requires cfg.Valid() && OnTime(cfg, p, now)
    ensures OnTime(cfg, MainApply(p, m), now)
  {
    var p' := MainApply(p, m);
    hide WorkerOnTime, DispatcherOnTime, OnTurn, MarkOf, MarkBound;
    forall j | 0 <= j < |p'.queue| ensures QueuedOnTime(cfg, p', j, now) {
      assert QueuedOnTime(cfg, p, j, now);
    }
  }

  lemma StepKeepsOnTime(cfg: Config, p: Proc, st: Step, now: nat)
    requires cfg.Valid() && Ok(cfg, p) && Enabled(cfg, p, st, now) && OnTime(cfg, p, now)
    ensures OnTime(cfg, Apply(cfg, p, st, now), now)
  {
    hide Ok, OnTime, DispatcherApply, WorkerApply, MainApply;
    match st
    case ByDispatcher(d) => DispatcherStepKeepsQueueOnTime(cfg, p, d, now);
    case ByWorker(w, ws) => WorkerStepKeepsOnTime(cfg, p, w, ws, now);
    case ByMain(m) => MainStepKeepsOnTime(cfg, p, m, now);
  }

  /** Whenever time passes while a batch is handed over, or a task is queued, no worker is free; while
      the claim is under way, not for longer than its deadline. */
  lemma TickKeepsLive(cfg: Config, p: Proc, m: Mark, now: nat, now': nat)
    requires Live(cfg, p, m, now) && now <= now'
    requires now' <= m.at + DB_TIMEOUT || forall w :: 0 <= w < |p.workers| ==> !p.workers[w].Free?
    ensures Live(cfg, p, m, now')
  {
    forall w | 0 <= w < |p.workers| ensures OnTurn(cfg, p.workers[w], p.turns[w], m.turns[w], m.at, now') {
      assert OnTurn(cfg, p.workers[w], p.turns[w], m.turns[w], m.at, now);
      TimesMonotone(1, p.turns[w] - m.turns[w] + 1, cfg.TaskTimeout());
    }
  }

  lemma TickKeepsMarks(cfg: Config, p: Proc, now: nat, now': nat)
    requires cfg.Valid() && OnTime(cfg, p, now) && now <= now' && Due(cfg, p, now')
    ensures MarksOnTime(cfg, p, now')
  {
    hide WorkerOnTime, WorkerDue, QueuedOnTime, Live, Gain;
    if p.disp.Fetching? {
      TickKeepsLive(cfg, p, p.disp.mark, now, now');
    } else if p.disp.Handing? && now < now' {
      forall k | 0 <= k < |p.disp.marks| ensures LiveMark(cfg, p, p.disp.marks[k], p.disp.next - k, now') {
        assert LiveMark(cfg, p, p.disp.marks[k], p.disp.next - k, now);
        TickKeepsLive(cfg, p, p.disp.marks[k], now, now');
      }
    }
  }

  lemma TickKeepsWorker(cfg: Config, k: Worker, now: nat, now': nat)
    requires cfg.Valid() && WorkerOnTime(cfg, k, now) && now <= now' && WorkerDue(cfg, k, now')
    ensures WorkerOnTime(cfg, k, now')
  {
    hide MarkBound, Rounds, Config.TaskTimeout;
  }

  /** A send waits only while the queue is full, and then every worker that comes back makes room. */
  lemma SendMakesProgress(cfg: Config, p: Proc, now: nat)
    requires cfg.Valid() && Ok(cfg, p) && MarksOnTime(cfg, p, now) && p.disp.Handing? && |p.disp.marks| == p.disp.next + 1
    requires forall w :: 0 <= w < |p.workers| ==> WorkerOnTime(cfg, p.workers[w], now)
    requires |p.queue| == cfg.queueSize
    ensures now <= p.disp.marks[RoundBefore(cfg, p.disp.next + 1)].at + cfg.TaskTimeout()
  {
    OkWorkers(cfg, p);
    hide Ok, WorkerOnTime, OnTurn, Config.TaskTimeout;
    var before := RoundBefore(cfg, p.disp.next + 1);
    var m := p.disp.marks[before];
    assert LiveMark(cfg, p, m, p.disp.next - before, now);
    if m.at + cfg.TaskTimeout() < now {
      forall w | 0 <= w < |p.workers| ensures m.turns[w] + 1 <= p.turns[w] {
        TurnsCome(cfg, p.workers[w], p.turns[w], m.turns[w], m.at, now, 1);
      }
      GainAtLeast(p.turns, m.turns, 1);
      assert false;
    }
  }

  lemma TickKeepsDispatcher(cfg: Config, p: Proc, now: nat, now': nat)
    requires cfg.Valid() && Ok(cfg, p) && DispatcherOnTime(cfg, p.disp, now) && MarksOnTime(cfg, p, now') && now <= now'
    requires DispatcherDue(cfg, p, now')
    requires forall w :: 0 <= w < |p.workers| ==> WorkerOnTime(cfg, p.workers[w], now')
    ensures DispatcherOnTime(cfg, p.disp, now')
  {
    hide Ok, WorkerOnTime, MarksOnTime, SendsBound, Config.TaskTimeout;
    if p.disp.Handing? && p.disp.pc.Sending? {
      SendMakesProgress(cfg, p, now');
    }
  }

  lemma TickKeepsOnTime(cfg: Config, p: Proc, now: nat, now': nat)
    requires cfg.Valid() && Ok(cfg, p) && OnTime(cfg, p, now) && now <= now' && Due(cfg, p, now')
    ensures OnTime(cfg, p, now')
  {
    TickKeepsMarks(cfg, p, now, now');
    forall w | 0 <= w < |p.workers| ensures WorkerOnTime(cfg, p.workers[w], now') {
      TickKeepsWorker(cfg, p.workers[w], now, now');
    }
    TickKeepsDispatcher(cfg, p, now, now');
    forall j | 0 <= j < |p.queue| ensures QueuedOnTime(cfg, p, j, now') {
      assert QueuedOnTime(cfg, p, j, now);
      TickKeepsLive(cfg, p, MarkOf(cfg, p.queue[j].marks), now, now');
    }
    hide Live, MarksOnTime, MarkOf, MarkBound, Ok, DispatcherOnTime, WorkerOnTime;
  }

  lemma QueueHoldIsBounded(cfg: Config, p: Proc, j: nat, now: nat)
    requires cfg.Valid() && Ok(cfg, p) && OnTime(cfg, p, now) && j < |p.queue|
    ensures p.queue[j].task.claimedAt <= now <= p.queue[j].task.claimedAt + HoldBound(cfg)
  {
    QueueWaitIsBounded(cfg, p, j, now);
    assert QueuedOnTime(cfg, p, j, now);
    TimesNext(Rounds(cfg), cfg.TaskTimeout());
    hide Ok, Rounds, MarkOf, MarkBound, SendsBound;
  }

  lemma WorkerHoldIsBounded(cfg: Config, k: Worker, t: Task, now: nat)
    requires cfg.Valid() && WorkerOnTime(cfg, k, now) && t in WorkerTask(k)
    ensures t.claimedAt <= now <= t.claimedAt + HoldBound(cfg)
  {
    BusyIsBounded(cfg, k, now);
    TimesNext(Rounds(cfg), cfg.TaskTimeout());
    hide Rounds, MarkBound, SendsBound, Config.TaskTimeout;
  }

  /** The lease bound: a process never holds a claimed row for longer than HoldBound. */
  lemma HoldIsBounded(cfg: Config, p: Proc, t: Task, now: nat)
    requires cfg.Valid() && Ok(cfg, p) && OnTime(cfg, p, now) && t in Tasks(p)
    ensures t.claimedAt <= now <= t.claimedAt + HoldBound(cfg)
  {
    HeldSomewhere(p, t);
    hide Tasks, LedgerOk, PhasesOk, DispatcherOnTime, MarksOnTime, QueuedOnTime, WorkerOnTime, HoldBound;
    if t in DispatcherTasks(p.disp) {
      DispatcherHoldIsBounded(cfg, p.disp, t, now);
    } else if j: nat :| j < |p.queue| && p.queue[j].task == t {
      QueueHoldIsBounded(cfg, p, j, now);
    } else {
      var w :| 0 <= w < |p.workers| && t in WorkerTask(p.workers[w]);
      WorkerHoldIsBounded(cfg, p.workers[w], t, now);
    }
  }

  /** A task still with the dispatcher has at most its revert ahead. */
  lemma DispatcherHoldIsBounded(cfg: Config, d: Dispatcher, t: Task, now: nat)
    requires cfg.Valid() && DispatcherOk(cfg, d) && DispatcherOnTime(cfg, d, now) && t in DispatcherTasks(d)
    ensures t.claimedAt <= now <= t.claimedAt + HoldBound(cfg)
  {
    SendsBoundRises(cfg, 0, cfg.batchSize);
    RevertIsSooner(cfg);
    hide HoldBound, SendsBound, Split;
    if d.Handing? {
      assert t in d.batch;
      NextSendInTime(cfg, d, now);
      SendsBoundRises(cfg, d.next, cfg.batchSize);
      if d.next < cfg.batchSize {
        SendsBoundRises(cfg, d.next + 1, cfg.batchSize);
      }
    }
  }
}
