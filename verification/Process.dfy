/** One HookOps process: its dispatcher, its bounded queue, its workers and the shutdown sequence
    of main, as a state machine. Every step is one atomic action of one goroutine.
    (internal/engine/dispatcher.go, internal/engine/worker_pool.go, cmd/api/main.go) */
module Process {
  import opened Arithmetic
  import opened Models
  import opened Recording

  /** Where the dispatcher stands with batch[next]: before the look at stopChan, before the
      isClosed load, or blocked in the send. The load and the send are separate steps. */
  datatype Pc = StopCheck | ClosedCheck | Sending

  /** A moment, and how often each worker had taken a task from the queue by then. */
  datatype Mark = Mark(at: nat, turns: seq<nat>)

  /** After a full batch the loop polls again at once, otherwise it waits for its ticker. A batch
      carries the marks of its claim and of the end of each send so far. */
  datatype Dispatcher =
    | Waiting(full: bool)
    | Polling
    | Fetching(batch: seq<Task>, since: nat, mark: Mark)
    | Handing(batch: seq<Task>, next: nat, sent: seq<Task>, failed: seq<Task>, since: nat, pc: Pc, marks: seq<Mark>)
    | Reverting(failed: seq<Task>, since: nat, full: bool)
    | Exited

  /** A queued task keeps the marks of its batch up to the end of its own send. */
  datatype Queued = Queued(task: Task, marks: seq<Mark>)

  /** `start` is the dequeue time, `at` the time the current activity began. */
  datatype Worker =
    | Free
    | Limiting(task: Task, start: nat)
    | Delivering(task: Task, start: nat, at: nat)
    | Recording(task: Task, start: nat, at: nat, result: DeliveryResult)
    | Health(task: Task, start: nat, at: nat, success: bool)
    | Gone

  /** The phases of main: HTTP, dispatcher, workers, database. */
  datatype Phase = Serving | HttpClosed | Stopping | Stopped | Draining | Drained | TimedOut | DbClosed

  /** What became of every task this process claimed. `faults` counts failed or lost statements. */
  datatype Ledger = Ledger(
    claimed: multiset<Task>,
    reverted: multiset<Task>,
    completed: multiset<Task>,
    lost: multiset<Task>,
    faults: nat)

  datatype Proc = Proc(
    disp: Dispatcher,
    queue: seq<Queued>,
    workers: seq<Worker>,
    turns: seq<nat>,
    tick: nat,
    stopping: bool,
    closed: bool,
    panicked: bool,
    phase: Phase,
    ledger: Ledger)

  /** The first poll does not wait for the ticker. */
  function Started(cfg: Config, now: nat): Proc {
    Proc(Waiting(true), [], seq(cfg.workers, i => Free), seq(cfg.workers, i => 0), now + cfg.pollInterval, false, false, false, Serving,
         Ledger(multiset{}, multiset{}, multiset{}, multiset{}, 0))
  }

  // ---------- steps ----------

  datatype DispatcherStep =
    | BeginPoll | ExitLoop | FetchFail | ClaimBatch(batch: seq<Task>) | FetchLost | Receive
    | SeeStop | PassStop | FindClosed | PassClosed | Send | EnqueueTimeout | SendOnClosed
    | EndBatch | RevertOk | RevertFail

  datatype WorkerStep =
    | Dequeue | LimitPass | LimitAbort | Return(result: DeliveryResult) | Panic
    | RecordOk(chance: Chance) | RecordFail | HealthDone(stored: bool) | WorkerExit

  datatype MainStep = CloseHttp | SignalStop | StopReturns | ClosePool | Drain | DrainTimeout | CloseDb

  datatype Step = ByDispatcher(d: DispatcherStep) | ByWorker(w: nat, ws: WorkerStep) | ByMain(m: MainStep)

  predicate DispatcherEnabled(cfg: Config, p: Proc, d: DispatcherStep, now: nat) {
    match d
    case BeginPoll => p.disp.Waiting? && !p.stopping && (p.disp.full || p.tick <= now)
    case ExitLoop => p.disp.Waiting? && p.stopping
    case FetchFail => p.disp.Polling?
    case ClaimBatch(batch) =>
      p.disp.Polling? && |batch| <= cfg.batchSize && !p.phase.DbClosed? && forall t <- batch :: t.claimedAt == now
    case FetchLost => p.disp.Fetching?
    case Receive => p.disp.Fetching?
    case SeeStop => p.disp.Handing? && p.disp.pc.StopCheck? && p.disp.next < |p.disp.batch| && p.stopping
    case PassStop => p.disp.Handing? && p.disp.pc.StopCheck? && p.disp.next < |p.disp.batch| && !p.stopping
    case FindClosed => p.disp.Handing? && p.disp.pc.ClosedCheck? && p.disp.next < |p.disp.batch| && p.closed
    case PassClosed => p.disp.Handing? && p.disp.pc.ClosedCheck? && !p.closed
    case Send => p.disp.Handing? && p.disp.pc.Sending? && p.disp.next < |p.disp.batch| && !p.closed && |p.queue| < cfg.queueSize
    case EnqueueTimeout =>
      p.disp.Handing? && p.disp.pc.Sending? && p.disp.next < |p.disp.batch| && p.disp.since + cfg.enqueueTimeout <= now
    case SendOnClosed => p.disp.Handing? && p.disp.pc.Sending? && p.closed
    case EndBatch => p.disp.Handing? && p.disp.pc.StopCheck? && p.disp.next == |p.disp.batch|
    case RevertOk => p.disp.Reverting? && !p.phase.DbClosed?
    case RevertFail => p.disp.Reverting?
  }

  /** The dispatcher moves on to the next task of its batch. */
  function Advance(d: Dispatcher, ok: bool, mark: Mark): Dispatcher
    requires d.Handing? && d.next < |d.batch|
  {
    var t := d.batch[d.next];
    if ok then Handing(d.batch, d.next + 1, d.sent + [t], d.failed, mark.at, StopCheck, d.marks + [mark])
    else Handing(d.batch, d.next + 1, d.sent, d.failed + [t], mark.at, StopCheck, d.marks + [mark])
  }

  function DispatcherAfter(cfg: Config, p: Proc, d: DispatcherStep, now: nat): Dispatcher
    requires DispatcherEnabled(cfg, p, d, now)
  {
    match d
    case BeginPoll => Polling
    case ExitLoop => Exited
    case FetchFail => Waiting(false)
    case ClaimBatch(batch) => Fetching(batch, now, Mark(now, p.turns))
    case FetchLost => Waiting(false)
    case Receive =>
      if p.disp.batch == [] then Waiting(false) else Handing(p.disp.batch, 0, [], [], now, StopCheck, [p.disp.mark])
    case SeeStop => Reverting(p.disp.failed + p.disp.batch[p.disp.next..], now, |p.disp.batch| >= cfg.batchSize)
    case PassStop => p.disp.(pc := ClosedCheck, since := now)
    case FindClosed => Advance(p.disp, false, Mark(now, p.turns))
    case PassClosed => p.disp.(pc := Sending)
    case Send => Advance(p.disp, true, Mark(now, p.turns))
    case EnqueueTimeout => Advance(p.disp, false, Mark(now, p.turns))
    case SendOnClosed => p.disp
    case EndBatch =>
      var full := |p.disp.batch| >= cfg.batchSize;
      if p.disp.failed == [] then Waiting(full) else Reverting(p.disp.failed, now, full)
    case RevertOk => Waiting(p.disp.full)
    case RevertFail => Waiting(p.disp.full)
  }

  function DispatcherLedger(cfg: Config, p: Proc, d: DispatcherStep, now: nat): Ledger
    requires DispatcherEnabled(cfg, p, d, now)
  {
    var l := p.ledger;
    match d
    case ClaimBatch(batch) => l.(claimed := l.claimed + multiset(batch))
    case FetchLost => l.(lost := l.lost + multiset(p.disp.batch), faults := l.faults + 1)
    case RevertOk => l.(reverted := l.reverted + multiset(p.disp.failed))
    case RevertFail => l.(lost := l.lost + multiset(p.disp.failed), faults := l.faults + 1)
    case _ => l
  }

  function SentNow(p: Proc, now: nat): Queued
    requires p.disp.Handing? && p.disp.next < |p.disp.batch|
  {
    Queued(p.disp.batch[p.disp.next], p.disp.marks + [Mark(now, p.turns)])
  }

  /** The ticker's channel holds one tick; those that pass while it is full are dropped. */
  function NextTick(tick: nat, interval: nat, now: nat): nat {
    if interval == 0 || now < tick then now else tick + interval * ((now - tick) / interval + 1)
  }

  /** The next tick is the first one after now on the grid the ticker was started with. */
  lemma TickIsNext(tick: nat, interval: nat, now: nat) returns (n: nat)
    requires 0 < interval && tick <= now
    ensures now < NextTick(tick, interval, now) <= now + interval
    ensures NextTick(tick, interval, now) == tick + interval * n
  {
    n := (now - tick) / interval + 1;
    DivisionBounds(now - tick, interval);
    TimesNext((now - tick) / interval, interval);
  }

  function DispatcherApply(cfg: Config, p: Proc, d: DispatcherStep, now: nat): Proc
    requires DispatcherEnabled(cfg, p, d, now)
  {
    p.(disp := DispatcherAfter(cfg, p, d, now),
       ledger := DispatcherLedger(cfg, p, d, now),
       queue := if d.Send? then p.queue + [SentNow(p, now)] else p.queue,
       tick := if d.BeginPoll? && !p.disp.full then NextTick(p.tick, cfg.pollInterval, now) else p.tick,
       panicked := p.panicked || d.SendOnClosed?)
  }

  predicate WorkerEnabled(p: Proc, w: nat, ws: WorkerStep) {
    && w < |p.workers| && w < |p.turns|
    && match ws
       case Dequeue => p.workers[w].Free? && p.queue != []
       case LimitPass => p.workers[w].Limiting?
       case LimitAbort => p.workers[w].Limiting?
       case Return(_) => p.workers[w].Delivering?
       case Panic => p.workers[w].Limiting? || p.workers[w].Delivering?
       case RecordOk(_) => p.workers[w].Recording? && !p.phase.DbClosed?
       case RecordFail => p.workers[w].Recording?
       case HealthDone(stored) => p.workers[w].Health? && (stored ==> !p.phase.DbClosed?)
       case WorkerExit => p.workers[w].Free? && p.queue == [] && p.closed
  }

  const NO_RESPONSE: DeliveryResult := DeliveryResult(false, None)

  function WorkerAfter(p: Proc, w: nat, ws: WorkerStep, now: nat): Worker
    requires WorkerEnabled(p, w, ws)
  {
    var k := p.workers[w];
    match ws
    case Dequeue => Limiting(p.queue[0].task, now)
    case LimitPass => Delivering(k.task, k.start, now)
    case LimitAbort => Recording(k.task, k.start, now, NO_RESPONSE)
    case Return(result) => Recording(k.task, k.start, now, result)
    case Panic => Recording(k.task, k.start, now, NO_RESPONSE)
    case RecordOk(_) => Health(k.task, k.start, k.at, k.result.success)
    case RecordFail => Free
    case HealthDone(_) => Free
    case WorkerExit => Gone
  }

  function WorkerLedger(p: Proc, w: nat, ws: WorkerStep): Ledger
    requires WorkerEnabled(p, w, ws)
  {
    var l := p.ledger;
    match ws
    case RecordOk(_) => l.(completed := l.completed + multiset{p.workers[w].task})
    case RecordFail => l.(completed := l.completed + multiset{p.workers[w].task}, faults := l.faults + 1)
    case _ => l
  }

  function WorkerApply(p: Proc, w: nat, ws: WorkerStep, now: nat): Proc
    requires WorkerEnabled(p, w, ws)
  {
    p.(workers := p.workers[w := WorkerAfter(p, w, ws, now)],
       ledger := WorkerLedger(p, w, ws),
       queue := if ws.Dequeue? then p.queue[1..] else p.queue,
       turns := if ws.Dequeue? then p.turns[w := p.turns[w] + 1] else p.turns)
  }

  predicate AllGone(p: Proc) {
    forall w :: 0 <= w < |p.workers| ==> p.workers[w].Gone?
  }

  predicate MainEnabled(p: Proc, m: MainStep) {
    match m
    case CloseHttp => p.phase.Serving?
    case SignalStop => p.phase.HttpClosed?
    case StopReturns => p.phase.Stopping? && p.disp.Exited?
    case ClosePool => p.phase.Stopped?
    case Drain => p.phase.Draining? && AllGone(p)
    case DrainTimeout => p.phase.Draining?
    case CloseDb => p.phase.Drained? || p.phase.TimedOut?
  }

  function MainApply(p: Proc, m: MainStep): Proc {
    match m
    case CloseHttp => p.(phase := HttpClosed)
    case SignalStop => p.(phase := Stopping, stopping := true)
    case StopReturns => p.(phase := Stopped)
    case ClosePool => p.(phase := Draining, closed := true)
    case Drain => p.(phase := Drained)
    case DrainTimeout => p.(phase := TimedOut)
    case CloseDb => p.(phase := DbClosed)
  }

  predicate Enabled(cfg: Config, p: Proc, st: Step, now: nat) {
    && !p.panicked
    && match st
       case ByDispatcher(d) => DispatcherEnabled(cfg, p, d, now)
       case ByWorker(w, ws) => WorkerEnabled(p, w, ws)
       case ByMain(m) => MainEnabled(p, m)
  }

  function Apply(cfg: Config, p: Proc, st: Step, now: nat): Proc
    requires Enabled(cfg, p, st, now)
  {
    match st
    case ByDispatcher(d) => DispatcherApply(cfg, p, d, now)
    case ByWorker(w, ws) => WorkerApply(p, w, ws, now)
    case ByMain(m) => MainApply(p, m)
  }

  // ---------- the tasks a process holds ----------

  function DispatcherTasks(d: Dispatcher): seq<Task> {
    match d
    case Fetching(batch, _, _) => batch
    case Handing(batch, next, _, failed, _, _, _) => failed + (if next <= |batch| then batch[next..] else [])
    case Reverting(failed, _, _) => failed
    case _ => []
  }

  function QueueTasks(q: seq<Queued>): seq<Task> {
    seq(|q|, i requires 0 <= i < |q| => q[i].task)
  }

  /** A worker holds its row until the outcome is written; the health update no longer needs it. */
  function WorkerTask(k: Worker): multiset<Task> {
    if k.Limiting? || k.Delivering? || k.Recording? then multiset{k.task} else multiset{}
  }

  function WorkerTasks(ws: seq<Worker>): multiset<Task> {
    if ws == [] then multiset{} else WorkerTask(ws[0]) + WorkerTasks(ws[1..])
  }

  function Tasks(p: Proc): multiset<Task> {
    multiset(DispatcherTasks(p.disp)) + multiset(QueueTasks(p.queue)) + WorkerTasks(p.workers)
  }

  /** The tasks a step takes on and lets go of. */
  function Gained(st: Step): multiset<Task> {
    match st
    case ByDispatcher(ClaimBatch(batch)) => multiset(batch)
    case _ => multiset{}
  }

  function DispatcherDrops(cfg: Config, p: Proc, d: DispatcherStep, now: nat): multiset<Task>
    requires DispatcherEnabled(cfg, p, d, now)
  {
    if d.FetchLost? then multiset(p.disp.batch)
    else if d.RevertOk? || d.RevertFail? then multiset(p.disp.failed)
    else multiset{}
  }

  function WorkerDrops(p: Proc, w: nat, ws: WorkerStep): multiset<Task>
    requires WorkerEnabled(p, w, ws)
  {
    if ws.RecordOk? || ws.RecordFail? then multiset{p.workers[w].task} else multiset{}
  }

  function Dropped(cfg: Config, p: Proc, st: Step, now: nat): multiset<Task>
    requires Enabled(cfg, p, st, now)
  {
    match st
    case ByDispatcher(d) => DispatcherDrops(cfg, p, d, now)
    case ByWorker(w, ws) => WorkerDrops(p, w, ws)
    case ByMain(_) => multiset{}
  }

  lemma WorkerTasksUpdate(ws: seq<Worker>, w: nat, k: Worker)
    requires w < |ws|
    ensures forall t :: WorkerTasks(ws[w := k])[t] + WorkerTask(ws[w])[t] == WorkerTasks(ws)[t] + WorkerTask(k)[t]
  {
    if w == 0 {
      assert ws[w := k][1..] == ws[1..];
    } else {
      assert ws[w := k][1..] == ws[1..][w - 1 := k];
      WorkerTasksUpdate(ws[1..], w - 1, k);
    }
  }

  lemma WorkerTasksMember(ws: seq<Worker>, t: Task)
    ensures t in WorkerTasks(ws) <==> exists w :: 0 <= w < |ws| && t in WorkerTask(ws[w])
  {
    if ws != [] {
      WorkerTasksMember(ws[1..], t);
      if t in WorkerTasks(ws[1..]) {
        var w :| 0 <= w < |ws[1..]| && t in WorkerTask(ws[1..][w]);
        assert t in WorkerTask(ws[w + 1]);
      }
      if w :| 0 < w < |ws| && t in WorkerTask(ws[w]) {
        assert t in WorkerTask(ws[1..][w - 1]);
      }
    }
  }

  lemma HeldSomewhere(p: Proc, t: Task)
    requires t in Tasks(p)
    ensures || t in DispatcherTasks(p.disp)
            || (exists j :: 0 <= j < |p.queue| && p.queue[j].task == t)
            || (exists w :: 0 <= w < |p.workers| && t in WorkerTask(p.workers[w]))
  {
    WorkerTasksMember(p.workers, t);
    if t in QueueTasks(p.queue) {
      var j :| 0 <= j < |p.queue| && QueueTasks(p.queue)[j] == t;
      assert p.queue[j].task == t;
    }
  }

  lemma NoWorkerTasks(ws: seq<Worker>)
    requires forall w :: 0 <= w < |ws| ==> WorkerTask(ws[w]) == multiset{}
    ensures WorkerTasks(ws) == multiset{}
  {
    if ws != [] {
      NoWorkerTasks(ws[1..]);
    }
  }

  lemma QueueTasksPush(q: seq<Queued>, x: Queued)
    ensures QueueTasks(q + [x]) == QueueTasks(q) + [x.task]
  {
  }

  lemma QueueTasksPop(q: seq<Queued>)
    requires q != []
    ensures QueueTasks(q) == [q[0].task] + QueueTasks(q[1..])
  {
  }

  lemma HandOver(d: Dispatcher, mark: Mark)
    requires d.Handing? && d.next < |d.batch|
    ensures multiset(DispatcherTasks(Advance(d, false, mark))) == multiset(DispatcherTasks(d))
    ensures multiset(DispatcherTasks(d)) == multiset(DispatcherTasks(Advance(d, true, mark))) + multiset{d.batch[d.next]}
  {
    assert d.batch[d.next..] == [d.batch[d.next]] + d.batch[d.next + 1..];
  }

  lemma DispatcherSwap(p: Proc, p': Proc, more: multiset<Task>, fewer: multiset<Task>)
    requires p'.queue == p.queue && p'.workers == p.workers
    requires multiset(DispatcherTasks(p'.disp)) + fewer == multiset(DispatcherTasks(p.disp)) + more
    ensures forall t :: Tasks(p')[t] + fewer[t] == Tasks(p)[t] + more[t]
  {
    forall t ensures Tasks(p')[t] + fewer[t] == Tasks(p)[t] + more[t] {
      assert (multiset(DispatcherTasks(p'.disp)) + fewer)[t] == (multiset(DispatcherTasks(p.disp)) + more)[t];
    }
  }

  lemma WorkerTasksChange(p: Proc, p': Proc, w: nat, k: Worker)
    requires w < |p.workers| && p'.workers == p.workers[w := k]
    requires p'.queue == p.queue && p'.disp == p.disp
    ensures forall t :: Tasks(p')[t] + WorkerTask(p.workers[w])[t] == Tasks(p)[t] + WorkerTask(k)[t]
  {
    WorkerTasksUpdate(p.workers, w, k);
  }

  lemma DequeueMovesTask(p: Proc, p': Proc, w: nat, k: Worker)
    requires w < |p.workers| && p'.workers == p.workers[w := k] && WorkerTask(p.workers[w]) == multiset{}
    requires p.queue != [] && p'.queue == p.queue[1..] && p'.disp == p.disp && WorkerTask(k) == multiset{p.queue[0].task}
    ensures forall t :: Tasks(p')[t] == Tasks(p)[t]
  {
    WorkerTasksUpdate(p.workers, w, k);
    QueueTasksPop(p.queue);
    assert multiset(QueueTasks(p.queue)) == multiset{p.queue[0].task} + multiset(QueueTasks(p'.queue));
  }

  lemma SendMovesTask(p: Proc, p': Proc, x: Queued)
    requires p'.queue == p.queue + [x] && p'.workers == p.workers
    requires multiset(DispatcherTasks(p.disp)) == multiset(DispatcherTasks(p'.disp)) + multiset{x.task}
    ensures forall t :: Tasks(p')[t] == Tasks(p)[t]
  {
    QueueTasksPush(p.queue, x);
    assert multiset(QueueTasks(p'.queue)) == multiset(QueueTasks(p.queue)) + multiset{x.task};
  }

  lemma FailKeepsDispatcherTasks(cfg: Config, p: Proc, d: DispatcherStep, now: nat)
    requires DispatcherEnabled(cfg, p, d, now) && (d.FindClosed? || d.EnqueueTimeout?)
    ensures multiset(DispatcherTasks(DispatcherAfter(cfg, p, d, now))) == multiset(DispatcherTasks(p.disp))
  {
    HandOver(p.disp, Mark(now, p.turns));
  }

  lemma ClaimFillsDispatcher(cfg: Config, p: Proc, d: DispatcherStep, now: nat)
    requires DispatcherEnabled(cfg, p, d, now) && d.ClaimBatch?
    ensures DispatcherTasks(p.disp) == [] && DispatcherTasks(DispatcherAfter(cfg, p, d, now)) == d.batch
  {
  }

  predicate Settles(d: DispatcherStep) {
    d.FetchLost? || d.RevertOk? || d.RevertFail?
  }

  lemma SettleEmptiesDispatcher(cfg: Config, p: Proc, d: DispatcherStep, now: nat)
    requires DispatcherEnabled(cfg, p, d, now) && Settles(d)
    ensures DispatcherTasks(DispatcherAfter(cfg, p, d, now)) == []
    ensures DispatcherDrops(cfg, p, d, now) == multiset(DispatcherTasks(p.disp))
  {
  }

  lemma OtherStepsKeepDispatcherTasks(cfg: Config, p: Proc, d: DispatcherStep, now: nat)
    requires DispatcherEnabled(cfg, p, d, now)
    requires !Settles(d) && !d.ClaimBatch? && !d.Send? && !d.FindClosed? && !d.EnqueueTimeout?
    ensures DispatcherTasks(DispatcherAfter(cfg, p, d, now)) == DispatcherTasks(p.disp)
  {
    var after := DispatcherAfter(cfg, p, d, now);
    if d.EndBatch? {
      assert p.disp.failed + p.disp.batch[p.disp.next..] == p.disp.failed;
    } else if d.Receive? && p.disp.batch != [] {
      assert after.failed + after.batch[0..] == p.disp.batch;
    }
  }

  /** What a step other than Send does to the dispatcher's own tasks. */
  lemma DispatcherKeepsItsTasks(cfg: Config, p: Proc, d: DispatcherStep, now: nat)
    requires DispatcherEnabled(cfg, p, d, now) && !d.Send?
    ensures multiset(DispatcherTasks(DispatcherAfter(cfg, p, d, now))) + DispatcherDrops(cfg, p, d, now)
            == multiset(DispatcherTasks(p.disp)) + Gained(ByDispatcher(d))
  {
    hide DispatcherEnabled, DispatcherAfter, DispatcherTasks;
    if Settles(d) {
      SettleEmptiesDispatcher(cfg, p, d, now);
    } else if d.ClaimBatch? {
      ClaimFillsDispatcher(cfg, p, d, now);
    } else if d.FindClosed? || d.EnqueueTimeout? {
      FailKeepsDispatcherTasks(cfg, p, d, now);
    } else {
      OtherStepsKeepDispatcherTasks(cfg, p, d, now);
    }
  }

  /** Every step moves tasks without duplicating or dropping any, except for what it gains and drops. */
  lemma DispatcherStepMovesTasks(cfg: Config, p: Proc, d: DispatcherStep, now: nat)
    requires Enabled(cfg, p, ByDispatcher(d), now)
    ensures forall t :: Tasks(DispatcherApply(cfg, p, d, now))[t] + Dropped(cfg, p, ByDispatcher(d), now)[t]
                        == Tasks(p)[t] + Gained(ByDispatcher(d))[t]
  {
    hide Tasks;
    var p' := DispatcherApply(cfg, p, d, now);
    if d.Send? {
      HandOver(p.disp, Mark(now, p.turns));
      SendMovesTask(p, p', SentNow(p, now));
    } else {
      DispatcherKeepsItsTasks(cfg, p, d, now);
      DispatcherSwap(p, p', Gained(ByDispatcher(d)), DispatcherDrops(cfg, p, d, now));
    }
  }

  lemma WorkerStepMovesTasks(cfg: Config, p: Proc, w: nat, ws: WorkerStep, now: nat)
    requires Enabled(cfg, p, ByWorker(w, ws), now)
    ensures forall t :: Tasks(WorkerApply(p, w, ws, now))[t] + WorkerDrops(p, w, ws)[t] == Tasks(p)[t]
  {
    hide Tasks, WorkerLedger;
    var p', k := WorkerApply(p, w, ws, now), WorkerAfter(p, w, ws, now);
    if ws.Dequeue? {
      DequeueMovesTask(p, p', w, k);
    } else {
      WorkerTasksChange(p, p', w, k);
      WorkerKeepsItsTask(p, w, ws, now);
    }
  }

  lemma WorkerKeepsItsTask(p: Proc, w: nat, ws: WorkerStep, now: nat)
    requires WorkerEnabled(p, w, ws) && !ws.Dequeue?
    ensures WorkerTask(WorkerAfter(p, w, ws, now)) + WorkerDrops(p, w, ws) == WorkerTask(p.workers[w])
  {
  }

  lemma MainStepKeepsTasks(p: Proc, m: MainStep)
    ensures Tasks(MainApply(p, m)) == Tasks(p)
  {
  }

  lemma StepMovesTasks(cfg: Config, p: Proc, st: Step, now: nat)
    requires Enabled(cfg, p, st, now)
    ensures forall t :: Tasks(Apply(cfg, p, st, now))[t] + Dropped(cfg, p, st, now)[t] == Tasks(p)[t] + Gained(st)[t]
  {
    hide Tasks, DispatcherApply, WorkerApply, MainApply;
    match st
    case ByDispatcher(d) => DispatcherStepMovesTasks(cfg, p, d, now);
    case ByWorker(w, ws) => WorkerStepMovesTasks(cfg, p, w, ws, now);
    case ByMain(m) => MainStepKeepsTasks(p, m);
  }

  // ---------- what every step keeps ----------

  /** `sent` and `failed` split the batch: each task exactly once, both in batch order. */
  predicate Split(batch: seq<Task>, sent: seq<Task>, failed: seq<Task>) {
    if batch == [] then sent == [] && failed == []
    else
      var rest, last := batch[..|batch| - 1], batch[|batch| - 1];
      || (sent != [] && sent[|sent| - 1] == last && Split(rest, sent[..|sent| - 1], failed))
      || (failed != [] && failed[|failed| - 1] == last && Split(rest, sent, failed[..|failed| - 1]))
  }

  lemma SplitSent(batch: seq<Task>, sent: seq<Task>, failed: seq<Task>, t: Task)
    requires Split(batch, sent, failed)
    ensures Split(batch + [t], sent + [t], failed)
  {
    assert (batch + [t])[..|batch|] == batch && (sent + [t])[..|sent|] == sent;
  }

  lemma SplitFailed(batch: seq<Task>, sent: seq<Task>, failed: seq<Task>, t: Task)
    requires Split(batch, sent, failed)
    ensures Split(batch + [t], sent, failed + [t])
  {
    assert (batch + [t])[..|batch|] == batch && (failed + [t])[..|failed|] == failed;
  }

  lemma SplitRest(batch: seq<Task>, sent: seq<Task>, failed: seq<Task>, rest: seq<Task>)
    requires Split(batch, sent, failed)
    ensures Split(batch + rest, sent, failed + rest)
  {
    if rest == [] {
      assert batch + rest == batch && failed + rest == failed;
    } else {
      var init, last := rest[..|rest| - 1], rest[|rest| - 1];
      SplitRest(batch, sent, failed, init);
      SplitFailed(batch + init, sent, failed + init, last);
      assert rest == init + [last];
      assert batch + rest == batch + init + [last] && failed + rest == failed + init + [last];
    }
  }

  lemma {:induction false} SplitConserves(batch: seq<Task>, sent: seq<Task>, failed: seq<Task>)
    requires Split(batch, sent, failed)
    ensures multiset(batch) == multiset(sent) + multiset(failed)
    ensures |batch| == |sent| + |failed|
  {
    if batch != [] {
      var rest, last := batch[..|batch| - 1], batch[|batch| - 1];
      assert batch == rest + [last];
      if sent != [] && sent[|sent| - 1] == last && Split(rest, sent[..|sent| - 1], failed) {
        SplitConserves(rest, sent[..|sent| - 1], failed);
        assert sent == sent[..|sent| - 1] + [last];
      } else {
        SplitConserves(rest, sent, failed[..|failed| - 1]);
        assert failed == failed[..|failed| - 1] + [last];
      }
    }
  }

  predicate DispatcherOk(cfg: Config, d: Dispatcher) {
    match d
    case Fetching(batch, _, _) => |batch| <= cfg.batchSize
    case Handing(batch, next, sent, failed, _, pc, _) =>
      && next <= |batch| <= cfg.batchSize
      && (!pc.StopCheck? ==> next < |batch|)
      && Split(batch[..next], sent, failed)
    case Reverting(failed, _, _) => |failed| <= cfg.batchSize
    case _ => true
  }

  predicate PhasesOk(p: Proc) {
    && (p.stopping <==> !p.phase.Serving? && !p.phase.HttpClosed?)
    && (p.closed <==> p.stopping && !p.phase.Stopping? && !p.phase.Stopped?)
    && (p.disp.Exited? ==> p.stopping)
    && (p.stopping && !p.phase.Stopping? ==> p.disp.Exited?)
    && (p.phase.Drained? ==> AllGone(p))
    && (forall w :: 0 <= w < |p.workers| && p.workers[w].Gone? ==> p.closed && p.queue == [])
  }

  /** Everything ever claimed is held, reverted, completed or lost to a failed statement. */
  ghost predicate LedgerOk(p: Proc) {
    && (forall t :: p.ledger.claimed[t] == Tasks(p)[t] + Settled(p.ledger, t))
    && (p.ledger.faults == 0 ==> p.ledger.lost == multiset{})
  }

  ghost predicate Ok(cfg: Config, p: Proc) {
    && |p.workers| == |p.turns| == cfg.workers
    && |p.queue| <= cfg.queueSize
    && DispatcherOk(cfg, p.disp)
    && PhasesOk(p)
    && LedgerOk(p)
    && !p.panicked
  }

  lemma StartedOk(cfg: Config, now: nat)
    requires cfg.Valid()
    ensures Ok(cfg, Started(cfg, now)) && Tasks(Started(cfg, now)) == multiset{}
  {
    NoWorkerTasks(Started(cfg, now).workers);
  }

  function Settled(l: Ledger, t: Task): nat {
    l.reverted[t] + l.completed[t] + l.lost[t]
  }

  predicate Posted(l: Ledger, l': Ledger) {
    l.faults <= l'.faults && (l'.faults == l.faults ==> l'.lost == l.lost)
  }

  lemma DispatcherWritesLedger(cfg: Config, p: Proc, d: DispatcherStep, now: nat)
    requires DispatcherEnabled(cfg, p, d, now)
    ensures var l, l' := p.ledger, DispatcherLedger(cfg, p, d, now);
            && (forall t :: l'.claimed[t] == l.claimed[t] + Gained(ByDispatcher(d))[t])
            && (forall t :: Settled(l', t) == Settled(l, t) + DispatcherDrops(cfg, p, d, now)[t])
            && Posted(l, l')
  {
  }

  lemma WorkerWritesLedger(p: Proc, w: nat, ws: WorkerStep)
    requires WorkerEnabled(p, w, ws)
    ensures var l, l' := p.ledger, WorkerLedger(p, w, ws);
            && l'.claimed == l.claimed
            && (forall t :: Settled(l', t) == Settled(l, t) + WorkerDrops(p, w, ws)[t])
            && Posted(l, l')
  {
  }

  lemma StepWritesLedger(cfg: Config, p: Proc, st: Step, now: nat)
    requires Enabled(cfg, p, st, now)
    ensures var l, l' := p.ledger, Apply(cfg, p, st, now).ledger;
            && (forall t :: l'.claimed[t] == l.claimed[t] + Gained(st)[t])
            && (forall t :: Settled(l', t) == Settled(l, t) + Dropped(cfg, p, st, now)[t])
            && Posted(l, l')
  {
    hide DispatcherLedger, WorkerLedger, DispatcherDrops, WorkerDrops, DispatcherAfter, WorkerAfter;
    match st
    case ByDispatcher(d) => DispatcherWritesLedger(cfg, p, d, now);
    case ByWorker(w, ws) => WorkerWritesLedger(p, w, ws);
    case ByMain(_) =>
  }

  lemma StepKeepsLedger(cfg: Config, p: Proc, st: Step, now: nat)
    requires LedgerOk(p) && Enabled(cfg, p, st, now)
    ensures LedgerOk(Apply(cfg, p, st, now))
  {
    hide Tasks, Apply, Enabled, Gained, Dropped;
    StepMovesTasks(cfg, p, st, now);
    StepWritesLedger(cfg, p, st, now);
    var p' := Apply(cfg, p, st, now);
    forall t ensures p'.ledger.claimed[t] == Tasks(p')[t] + Settled(p'.ledger, t) {
      assert Tasks(p')[t] + Dropped(cfg, p, st, now)[t] == Tasks(p)[t] + Gained(st)[t];
      assert Settled(p'.ledger, t) == Settled(p.ledger, t) + Dropped(cfg, p, st, now)[t];
    }
  }

  lemma HandingKeepsOk(cfg: Config, d: Dispatcher, ok: bool, mark: Mark)
    requires DispatcherOk(cfg, d) && d.Handing? && d.next < |d.batch|
    ensures DispatcherOk(cfg, Advance(d, ok, mark))
  {
    var t := d.batch[d.next];
    assert d.batch[..d.next + 1] == d.batch[..d.next] + [t];
    SplitSent(d.batch[..d.next], d.sent, d.failed, t);
    SplitFailed(d.batch[..d.next], d.sent, d.failed, t);
  }

  lemma DispatcherStepKeepsDispatcherOk(cfg: Config, p: Proc, d: DispatcherStep, now: nat)
    requires DispatcherOk(cfg, p.disp) && DispatcherEnabled(cfg, p, d, now)
    ensures DispatcherOk(cfg, DispatcherAfter(cfg, p, d, now))
  {
    hide Split;
    if p.disp.Handing? {
      SplitConserves(p.disp.batch[..p.disp.next], p.disp.sent, p.disp.failed);
      if d.FindClosed? || d.Send? || d.EnqueueTimeout? {
        HandingKeepsOk(cfg, p.disp, d.Send?, Mark(now, p.turns));
      }
    }
    if d.Receive? {
      SplitNothing(p.disp.batch);
    }
  }

  lemma SplitNothing(batch: seq<Task>)
    ensures Split(batch[..0], [], [])
  {
  }

  lemma DispatcherStepKeepsPhases(cfg: Config, p: Proc, d: DispatcherStep, now: nat)
    requires PhasesOk(p) && Enabled(cfg, p, ByDispatcher(d), now)
    ensures var q := DispatcherApply(cfg, p, d, now);
            PhasesOk(q) && (|p.queue| <= cfg.queueSize ==> |q.queue| <= cfg.queueSize) && !q.panicked
  {
    hide DispatcherLedger;
  }

  lemma WorkerStepKeepsOk(cfg: Config, p: Proc, w: nat, ws: WorkerStep, now: nat)
    requires Ok(cfg, p) && Enabled(cfg, p, ByWorker(w, ws), now)
    ensures PhasesOk(WorkerApply(p, w, ws, now))
  {
  }

  lemma MainStepKeepsOk(cfg: Config, p: Proc, m: MainStep, now: nat)
    requires PhasesOk(p) && Enabled(cfg, p, ByMain(m), now)
    ensures PhasesOk(MainApply(p, m))
  {
  }

  lemma StepKeepsOk(cfg: Config, p: Proc, st: Step, now: nat)
    requires Ok(cfg, p) && Enabled(cfg, p, st, now)
    ensures Ok(cfg, Apply(cfg, p, st, now))
  {
    hide LedgerOk, DispatcherOk, PhasesOk, WorkerLedger, WorkerAfter, DispatcherLedger, DispatcherAfter;
    StepKeepsLedger(cfg, p, st, now);
    match st
    case ByDispatcher(d) =>
      DispatcherStepKeepsDispatcherOk(cfg, p, d, now);
      DispatcherStepKeepsPhases(cfg, p, d, now);
    case ByWorker(w, ws) => WorkerStepKeepsOk(cfg, p, w, ws, now);
    case ByMain(m) => MainStepKeepsOk(cfg, p, m, now);
  }

  /** The whole batch, once handed over or abandoned at a stop signal, splits into sent and reverted. */
  lemma BatchConservation(cfg: Config, p: Proc, d: DispatcherStep, now: nat)
    requires Ok(cfg, p) && Enabled(cfg, p, ByDispatcher(d), now)
    requires d.SeeStop? || d.EndBatch?
    ensures var q := DispatcherApply(cfg, p, d, now);
            Split(p.disp.batch, p.disp.sent, DispatcherTasks(q.disp))
  {
    SplitRest(p.disp.batch[..p.disp.next], p.disp.sent, p.disp.failed, p.disp.batch[p.disp.next..]);
    assert p.disp.batch == p.disp.batch[..p.disp.next] + p.disp.batch[p.disp.next..];
    if d.EndBatch? {
      assert p.disp.failed + p.disp.batch[p.disp.next..] == p.disp.failed;
    }
  }

  /** No send on a closed queue: the pool closes only after the only sender has exited. */
  lemma NoSendOnClosedQueue(cfg: Config, p: Proc, now: nat)
    requires Ok(cfg, p)
    ensures p.closed ==> p.disp.Exited?
    ensures !Enabled(cfg, p, ByDispatcher(SendOnClosed), now)
  {
  }

  lemma NothingHeld(p: Proc)
    requires DispatcherTasks(p.disp) == [] && p.queue == [] && AllGone(p)
    ensures Tasks(p) == multiset{}
  {
    NoWorkerTasks(p.workers);
    assert QueueTasks(p.queue) == [];
  }

  /** Once Shutdown has returned nil, nothing is held: everything ever claimed was reverted, completed
      or lost to a failed statement, each exactly once, and nothing was lost if no statement failed. */
  lemma CleanShutdown(cfg: Config, p: Proc)
    requires Ok(cfg, p) && p.phase.Drained? && 0 < cfg.workers
    ensures Tasks(p) == multiset{}
    ensures p.ledger.claimed == p.ledger.reverted + p.ledger.completed + p.ledger.lost
    ensures p.ledger.faults == 0 ==> p.ledger.claimed == p.ledger.reverted + p.ledger.completed
  {
    hide Tasks;
    assert p.workers[0].Gone?;
    NothingHeld(p);
    forall t ensures p.ledger.claimed[t] == Settled(p.ledger, t) {
      assert Tasks(p)[t] == 0;
    }
  }
}
