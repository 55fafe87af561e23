/** How long a row can be held. A burst of rows is claimed in full batches and fills the queue of one
    process; then their endpoints are slow. The reply to the last claim takes as long as it may. Each send
    of that batch finds the queue full and waits for a worker to make room, and every delivery after
    it takes as long as it may. The last task of the batch is then held for HoldBound. */
module Backlog {
  import opened Arithmetic
  import opened Models
  import opened Recording
  import opened Table
  import opened Process
  import opened Lease
  import opened Engine
  import opened Ownership
  import opened Reachability
  import opened Schedule

  // ---------- one process with a backlog ----------

  /** Rows 1 to `total` were inserted at time 0, one for each of as many endpoints. Those up to `done` are delivered, those up to `claimed`
      were claimed at time 0, the rest is pending. */
  ghost predicate Scene(cfg: Config, s: State, total: nat, done: nat, claimed: nat) {
    && s.procs.Keys == {0} && s.nextProc == 1 && s.nextId == total + 1
    && (forall ep: Id :: 1 <= ep <= total ==> ep in s.endpoints && s.endpoints[ep].status.Active?)
    && Calm(s.procs[0]) && |s.procs[0].workers| == |s.procs[0].turns| == cfg.workers
    && (forall id :: id in s.rows <==> 1 <= id <= total)
    && (forall id <- s.rows :: RowIn(s.rows[id], id, done, claimed))
  }

  predicate RowIn(row: Attempt, id: Id, done: nat, claimed: nat) {
    && row.event == 0 && row.endpoint == id && row.createdAt == 0
    && (if id <= done then row.status.Delivered?
        else row.number == 1
             && if id <= claimed then row.status.Processing? && row.updatedAt == 0 else row.status.Pending? && row.nextRetryAt.None?)
  }

  /** The task for row id, claimed at time 0. */
  function TaskFor(id: Id): Task {
    Task(id, 0, id, 1, 0)
  }

  /** Task number j of the timetable is started when task j - W is finished, spends the longest allowed
      in each stage, and is finished at Beat(j). */
  function StartAt(cfg: Config, j: nat): nat
    requires cfg.Valid()
  {
    Beat(cfg, j - cfg.workers)
  }

  function SentAt(cfg: Config, j: nat): nat
    requires cfg.Valid()
  {
    Min(StartAt(cfg, j) + cfg.limiterWait, Beat(cfg, j))
  }

  function AnsweredAt(cfg: Config, j: nat): nat
    requires cfg.Valid()
  {
    Min(StartAt(cfg, j) + cfg.limiterWait + HTTP_TIMEOUT, Beat(cfg, j))
  }

  lemma StageTimes(cfg: Config, j: nat)
    requires cfg.Valid() && 0 < j
    ensures StartAt(cfg, j) <= SentAt(cfg, j) <= AnsweredAt(cfg, j) <= Beat(cfg, j)
    ensures SentAt(cfg, j) <= StartAt(cfg, j) + cfg.limiterWait
    ensures AnsweredAt(cfg, j) <= SentAt(cfg, j) + HTTP_TIMEOUT
    ensures Beat(cfg, j) <= AnsweredAt(cfg, j) + DB_TIMEOUT
  {
    BeatGap(cfg, j);
    BeatRisesTo(cfg, j - cfg.workers, j);
    hide Beat;
  }

  /** A worker at that task, which is row first + j. Only the last one fails. */
  predicate OnPlan(cfg: Config, k: Worker, first: nat, j: nat, now: nat)
    requires cfg.Valid()
  {
    && StartAt(cfg, j) <= now <= Beat(cfg, j)
    && match k
       case Limiting(task, at) => task == TaskFor(first + j) && at == StartAt(cfg, j) && now <= SentAt(cfg, j)
       case Delivering(task, _, at) => task == TaskFor(first + j) && at == SentAt(cfg, j) && now <= AnsweredAt(cfg, j)
       case Recording(task, _, at, result) =>
         task == TaskFor(first + j) && at == AnsweredAt(cfg, j) && result == DeliveryResult(j != TaskCount(cfg), None)
       case _ => false
  }

  /** A stage of the plan ends now. */
  predicate Overdue(cfg: Config, k: Worker, j: nat, now: nat)
    requires cfg.Valid()
  {
    (k.Limiting? && now == SentAt(cfg, j)) || (k.Delivering? && now == AnsweredAt(cfg, j))
  }

  /** When n tasks are finished, worker w is at the one among the next W that is its turn. */
  function Turn(cfg: Config, n: nat, w: nat): nat
    requires cfg.Valid()
  {
    n + 1 + (w - n) % cfg.workers
  }

  predicate WorkerOn(cfg: Config, k: Worker, first: nat, n: nat, last: nat, w: nat, now: nat)
    requires cfg.Valid()
  {
    if Turn(cfg, n, w) <= last then OnPlan(cfg, k, first, Turn(cfg, n, w), now) else k.Free?
  }

  predicate QueueOf(q: seq<Queued>, from: nat, to: nat) {
    && |q| == (if from <= to then to + 1 - from else 0)
    && forall i :: 0 <= i < |q| ==> q[i].task == TaskFor(from + i)
  }

  /** Of the timetable n tasks are finished, and `last` have been sent: the workers are at the next W of
      them and the rest is queued. */
  ghost predicate Stand(cfg: Config, s: State, total: nat, first: nat, n: nat, last: nat, claimed: nat)
    requires cfg.Valid()
  {
    && Scene(cfg, s, total, first + n, claimed)
    && (forall w :: 0 <= w < cfg.workers ==> WorkerOn(cfg, s.procs[0].workers[w], first, n, last, w, s.now))
    && QueueOf(s.procs[0].queue, first + n + cfg.workers + 1, first + last)
  }

  /** What the dispatcher does on its own leaves all that alone. */
  lemma StandAfter(cfg: Config, s: State, s': State, total: nat, first: nat, n: nat, last: nat, claimed: nat)
    requires cfg.Valid() && Stand(cfg, s, total, first, n, last, claimed)
    requires SameElsewhere(s, s', 0) && s'.rows == s.rows && s'.procs[0].queue == s.procs[0].queue
    ensures Stand(cfg, s', total, first, n, last, claimed)
  {
    hide WorkerOn, QueueOf, RowIn;
  }

  // ---------- time passes ----------

  lemma TurnIsNear(cfg: Config, n: nat, w: nat)
    requires cfg.Valid()
    ensures n + 1 <= Turn(cfg, n, w) <= n + cfg.workers
  {
  }

  predicate SameDispatcher(p: Proc, q: Proc) {
    q.disp == p.disp && q.queue == p.queue && q.tick == p.tick
  }

  lemma LimiterEnds(cfg: Config, s: State, total: nat, first: nat, n: nat, last: nat, claimed: nat, w: nat) returns (s': State)
    requires cfg.Valid() && Unattended(cfg, s) && Stand(cfg, s, total, first, n, last, claimed) && w < cfg.workers
    requires s.procs[0].workers[w].Limiting? && Overdue(cfg, s.procs[0].workers[w], Turn(cfg, n, w), s.now)
    ensures Unattended(cfg, s') && Stand(cfg, s', total, first, n, last, claimed) && s' == s.(procs := s'.procs)
    ensures SameDispatcher(s.procs[0], s'.procs[0])
    ensures s'.procs[0].workers[w].Delivering?
    ensures forall v :: 0 <= v < cfg.workers && v != w ==> s'.procs[0].workers[v] == s.procs[0].workers[v]
  {
    assert WorkerOn(cfg, s.procs[0].workers[w], first, n, last, w, s.now);
    StageTimes(cfg, Turn(cfg, n, w));
    hide Unattended, Beat, StartAt, SentAt, AnsweredAt, TaskCount, Turn, QueueOf, RowIn;
    s' := WorkerActs(cfg, s, 0, w, LimitPass);
  }

  lemma DeliveryEnds(cfg: Config, s: State, total: nat, first: nat, n: nat, last: nat, claimed: nat, w: nat) returns (s': State)
    requires cfg.Valid() && Unattended(cfg, s) && Stand(cfg, s, total, first, n, last, claimed) && w < cfg.workers
    requires s.procs[0].workers[w].Delivering? && Overdue(cfg, s.procs[0].workers[w], Turn(cfg, n, w), s.now)
    ensures Unattended(cfg, s') && Stand(cfg, s', total, first, n, last, claimed) && s' == s.(procs := s'.procs)
    ensures SameDispatcher(s.procs[0], s'.procs[0])
    ensures s'.procs[0].workers[w].Recording?
    ensures forall v :: 0 <= v < cfg.workers && v != w ==> s'.procs[0].workers[v] == s.procs[0].workers[v]
  {
    assert WorkerOn(cfg, s.procs[0].workers[w], first, n, last, w, s.now);
    StageTimes(cfg, Turn(cfg, n, w));
    hide Unattended, Beat, StartAt, SentAt, AnsweredAt, TaskCount, Turn, QueueOf, RowIn;
    s' := WorkerActs(cfg, s, 0, w, Return(DeliveryResult(Turn(cfg, n, w) != TaskCount(cfg), None)));
  }

  ghost predicate SettledTo(cfg: Config, s: State, n: nat, m: nat)
    requires cfg.Valid() && 0 in s.procs && m <= |s.procs[0].workers|
  {
    forall w :: 0 <= w < m ==> !Overdue(cfg, s.procs[0].workers[w], Turn(cfg, n, w), s.now)
  }

  lemma SettleOne(cfg: Config, s: State, total: nat, first: nat, n: nat, last: nat, claimed: nat, w: nat) returns (s': State)
    requires cfg.Valid() && Unattended(cfg, s) && Stand(cfg, s, total, first, n, last, claimed) && w < cfg.workers
    ensures Unattended(cfg, s') && Stand(cfg, s', total, first, n, last, claimed) && s' == s.(procs := s'.procs)
    ensures SameDispatcher(s.procs[0], s'.procs[0])
    ensures !Overdue(cfg, s'.procs[0].workers[w], Turn(cfg, n, w), s'.now)
    ensures forall v :: 0 <= v < cfg.workers && v != w ==> s'.procs[0].workers[v] == s.procs[0].workers[v]
  {
    hide Unattended, Beat, Turn, WorkerOn, QueueOf, RowIn;
    s' := s;
    if s'.procs[0].workers[w].Limiting? && Overdue(cfg, s'.procs[0].workers[w], Turn(cfg, n, w), s'.now) {
      s' := LimiterEnds(cfg, s', total, first, n, last, claimed, w);
    }
    if s'.procs[0].workers[w].Delivering? && Overdue(cfg, s'.procs[0].workers[w], Turn(cfg, n, w), s'.now) {
      s' := DeliveryEnds(cfg, s', total, first, n, last, claimed, w);
    }
  }

  /** Every stage that ends now ends. */
  lemma Settle(cfg: Config, s: State, total: nat, first: nat, n: nat, last: nat, claimed: nat, m: nat) returns (s': State)
    requires cfg.Valid() && Unattended(cfg, s) && Stand(cfg, s, total, first, n, last, claimed) && m <= cfg.workers
    requires SettledTo(cfg, s, n, m)
    ensures Unattended(cfg, s') && Stand(cfg, s', total, first, n, last, claimed) && s' == s.(procs := s'.procs)
    ensures SameDispatcher(s.procs[0], s'.procs[0])
    ensures 0 in s'.procs && SettledTo(cfg, s', n, cfg.workers)
    decreases cfg.workers - m
  {
    hide Unattended, Overdue, Turn, WorkerOn, QueueOf, RowIn;
    s' := s;
    if m < cfg.workers {
      s' := SettleOne(cfg, s, total, first, n, last, claimed, m);
      s' := Settle(cfg, s', total, first, n, last, claimed, m + 1);
    }
  }

  lemma PlanDue(cfg: Config, k: Worker, first: nat, j: nat, now: nat)
    requires cfg.Valid() && 0 < j && OnPlan(cfg, k, first, j, now) && !Overdue(cfg, k, j, now) && now < Beat(cfg, j)
    ensures WorkerDue(cfg, k, now + 1) && OnPlan(cfg, k, first, j, now + 1) && !k.Free?
  {
    StageTimes(cfg, j);
    hide Beat, StartAt, SentAt, AnsweredAt, TaskCount;
  }

  /** With every stage that ends now ended, no worker is late a moment from now, and none is free
      unless the timetable has nothing left for it. */
  lemma CrewDue(cfg: Config, s: State, total: nat, first: nat, n: nat, last: nat, claimed: nat, w: nat)
    requires cfg.Valid() && Stand(cfg, s, total, first, n, last, claimed) && SettledTo(cfg, s, n, cfg.workers)
    requires s.now < Beat(cfg, n + 1) && w < cfg.workers
    ensures WorkerDue(cfg, s.procs[0].workers[w], s.now + 1)
    ensures WorkerOn(cfg, s.procs[0].workers[w], first, n, last, w, s.now + 1)
    ensures s.procs[0].queue != [] ==> !s.procs[0].workers[w].Free?
  {
    assert WorkerOn(cfg, s.procs[0].workers[w], first, n, last, w, s.now);
    TurnIsNear(cfg, n, w);
    BeatRisesTo(cfg, n + 1, Turn(cfg, n, w));
    hide Beat, Turn, Scene, OnPlan, Overdue, WorkerDue;
    if Turn(cfg, n, w) <= last {
      PlanDue(cfg, s.procs[0].workers[w], first, Turn(cfg, n, w), s.now);
    } else {
      FreeIsDue(cfg, s.procs[0].workers[w], s.now + 1);
    }
  }

  lemma FreeIsDue(cfg: Config, k: Worker, t: nat)
    requires k.Free?
    ensures WorkerDue(cfg, k, t)
  {
  }

  lemma WaitOne(cfg: Config, s: State, total: nat, first: nat, n: nat, last: nat, claimed: nat) returns (s': State)
    requires cfg.Valid() && Unattended(cfg, s) && Stand(cfg, s, total, first, n, last, claimed) && SettledTo(cfg, s, n, cfg.workers)
    requires s.now < Beat(cfg, n + 1) && DispatcherDue(cfg, s.procs[0], s.now + 1)
    ensures Unattended(cfg, s') && Stand(cfg, s', total, first, n, last, claimed) && s'.now == s.now + 1
    ensures s'.procs == s.procs
  {
    forall w | 0 <= w < cfg.workers
      ensures WorkerDue(cfg, s.procs[0].workers[w], s.now + 1)
      ensures WorkerOn(cfg, s.procs[0].workers[w], first, n, last, w, s.now + 1)
      ensures s.procs[0].queue != [] ==> !s.procs[0].workers[w].Free?
    {
      CrewDue(cfg, s, total, first, n, last, claimed, w);
    }
    hide Unattended, Beat, WorkerOn, WorkerDue, DispatcherDue, RowIn, QueueOf, SettledTo;
    assert Due(cfg, s.procs[0], s.now + 1);
    s' := Go(cfg, s, Tick(1));
  }

  lemma DueEarlier(cfg: Config, p: Proc, t: nat, t': nat)
    requires DispatcherDue(cfg, p, t') && t <= t'
    ensures DispatcherDue(cfg, p, t)
  {
  }

  lemma SameDispatcherDue(cfg: Config, p: Proc, q: Proc, t: nat)
    requires DispatcherDue(cfg, p, t) && SameDispatcher(p, q)
    ensures DispatcherDue(cfg, q, t)
  {
  }

  /** Time passes until `t`, as long as nobody is finished before. */
  lemma WaitUntil(cfg: Config, s: State, total: nat, first: nat, n: nat, last: nat, claimed: nat, t: nat) returns (s': State)
    requires cfg.Valid() && Unattended(cfg, s) && Stand(cfg, s, total, first, n, last, claimed)
    requires s.now <= t <= Beat(cfg, n + 1) && DispatcherDue(cfg, s.procs[0], t)
    ensures Unattended(cfg, s') && Stand(cfg, s', total, first, n, last, claimed) && s'.now == t
    ensures SettledTo(cfg, s', n, cfg.workers)
    ensures SameDispatcher(s.procs[0], s'.procs[0])
    decreases t - s.now
  {
    hide Unattended, Beat, Stand, SettledTo, DispatcherDue;
    NothingSettled(cfg, s, total, first, n, last, claimed);
    s' := Settle(cfg, s, total, first, n, last, claimed, 0);
    if s'.now < t {
      SameDispatcherDue(cfg, s.procs[0], s'.procs[0], t);
      DueEarlier(cfg, s'.procs[0], s'.now + 1, t);
      s' := WaitOne(cfg, s', total, first, n, last, claimed);
      s' := WaitUntil(cfg, s', total, first, n, last, claimed, t);
    }
  }

  lemma NothingSettled(cfg: Config, s: State, total: nat, first: nat, n: nat, last: nat, claimed: nat)
    requires cfg.Valid() && Stand(cfg, s, total, first, n, last, claimed)
    ensures 0 in s.procs && 0 <= |s.procs[0].workers| && SettledTo(cfg, s, n, 0)
  {
  }

  // ---------- one beat ----------

  /** Turns go round: the worker whose turn was next is W further on, everyone else stays. */
  lemma NextTurn(cfg: Config, n: nat, w: nat)
    requires cfg.Valid() && w < cfg.workers
    ensures Turn(cfg, n, w) == n + 1 <==> w == n % cfg.workers
    ensures Turn(cfg, n + 1, w) == if w == n % cfg.workers then n + 1 + cfg.workers else Turn(cfg, n, w)
  {
    Ahead(n, w, cfg.workers);
  }

  lemma PlanFinished(cfg: Config, k: Worker, first: nat, j: nat)
    requires cfg.Valid() && 0 < j && OnPlan(cfg, k, first, j, Beat(cfg, j)) && !Overdue(cfg, k, j, Beat(cfg, j))
    ensures k.Recording? && k.task == TaskFor(first + j) && k.result == DeliveryResult(j != TaskCount(cfg), None)
  {
    StageTimes(cfg, j);
    hide Beat, StartAt, SentAt, AnsweredAt, TaskCount;
  }

  lemma PlanBegins(cfg: Config, first: nat, j: nat)
    requires cfg.Valid() && 0 < j
    ensures var now := Beat(cfg, j - cfg.workers); OnPlan(cfg, Limiting(TaskFor(first + j), now), first, j, now)
  {
    StageTimes(cfg, j);
    hide Beat, SentAt, AnsweredAt;
  }

  /** The next worker in turn writes its outcome: one more row is delivered. */
  lemma FinishOne(cfg: Config, s: State, total: nat, done: nat, claimed: nat, w: nat) returns (s': State)
    requires Unattended(cfg, s) && Scene(cfg, s, total, done, claimed) && done < claimed <= total && w < cfg.workers
    requires var k := s.procs[0].workers[w]; k.Recording? && k.task == TaskFor(done + 1) && k.result.success
    ensures Unattended(cfg, s') && Scene(cfg, s', total, done + 1, claimed) && s'.now == s.now
    ensures s'.procs[0].disp == s.procs[0].disp && s'.procs[0].queue == s.procs[0].queue
    ensures s'.procs[0].workers[w].Free?
    ensures forall v :: 0 <= v < cfg.workers && v != w ==> s'.procs[0].workers[v] == s.procs[0].workers[v]
  {
    var s1 := WorkerRecords(cfg, s, 0, w);
    s' := WorkerActs(cfg, s1, 0, w, HealthDone(false));
    hide Unattended;
  }

  /** It takes the next task from the queue, if there is one. */
  lemma TakeNext(cfg: Config, s: State, total: nat, done: nat, claimed: nat, w: nat, from: nat, to: nat) returns (s': State)
    requires Unattended(cfg, s) && Scene(cfg, s, total, done, claimed) && w < cfg.workers && s.procs[0].workers[w].Free?
    requires QueueOf(s.procs[0].queue, from, to)
    ensures Unattended(cfg, s') && Scene(cfg, s', total, done, claimed) && s'.now == s.now
    ensures s'.procs[0].disp == s.procs[0].disp && QueueOf(s'.procs[0].queue, from + 1, to)
    ensures from <= to ==> |s'.procs[0].queue| + 1 == |s.procs[0].queue|
    ensures s'.procs[0].workers[w] == if from <= to then Limiting(TaskFor(from), s.now) else Free
    ensures forall v :: 0 <= v < cfg.workers && v != w ==> s'.procs[0].workers[v] == s.procs[0].workers[v]
  {
    s' := s;
    if from <= to {
      s' := WorkerActs(cfg, s, 0, w, Dequeue);
      hide Unattended, RowIn;
    }
  }

  /** The worker in turn is done with its task. */
  lemma InTurn(cfg: Config, s: State, total: nat, first: nat, n: nat, last: nat, claimed: nat)
    requires cfg.Valid() && Stand(cfg, s, total, first, n, last, claimed) && SettledTo(cfg, s, n, cfg.workers)
    requires s.now == Beat(cfg, n + 1) && n < last && n + 1 != TaskCount(cfg)
    ensures var k := s.procs[0].workers[n % cfg.workers];
            k.Recording? && k.task == TaskFor(first + n + 1) && k.result.success
  {
    var w := n % cfg.workers;
    NextTurn(cfg, n, w);
    assert WorkerOn(cfg, s.procs[0].workers[w], first, n, last, w, s.now);
    assert !Overdue(cfg, s.procs[0].workers[w], Turn(cfg, n, w), s.now);
    hide Beat, Turn, Scene, OnPlan, Overdue, QueueOf;
    PlanFinished(cfg, s.procs[0].workers[w], first, n + 1);
  }

  lemma BeatMoved(cfg: Config, s: State, s': State, total: nat, first: nat, n: nat, last: nat, claimed: nat)
    requires cfg.Valid() && Stand(cfg, s, total, first, n, last, claimed) && s.now == s'.now == Beat(cfg, n + 1)
    requires Scene(cfg, s', total, first + n + 1, claimed)
    requires QueueOf(s'.procs[0].queue, first + n + 1 + cfg.workers + 1, first + last)
    requires forall v :: 0 <= v < cfg.workers && v != n % cfg.workers ==> s'.procs[0].workers[v] == s.procs[0].workers[v]
    requires s'.procs[0].workers[n % cfg.workers]
             == if n + 1 + cfg.workers <= last then Limiting(TaskFor(first + n + 1 + cfg.workers), s.now) else Free
    ensures Stand(cfg, s', total, first, n + 1, last, claimed)
  {
    PlanBegins(cfg, first, n + 1 + cfg.workers);
    hide Beat, Turn, Scene, OnPlan, QueueOf;
    forall v | 0 <= v < cfg.workers ensures WorkerOn(cfg, s'.procs[0].workers[v], first, n + 1, last, v, s'.now) {
      NextTurn(cfg, n, v);
      assert WorkerOn(cfg, s.procs[0].workers[v], first, n, last, v, s.now);
    }
  }

  /** At the n + 1st beat one worker finishes and takes the next task. */
  lemma NextBeat(cfg: Config, s: State, total: nat, first: nat, n: nat, last: nat, claimed: nat) returns (s': State)
    requires cfg.Valid() && Unattended(cfg, s) && Stand(cfg, s, total, first, n, last, claimed) && SettledTo(cfg, s, n, cfg.workers)
    requires s.now == Beat(cfg, n + 1) && n < last && n + 1 != TaskCount(cfg) && first + n < claimed <= total
    ensures Unattended(cfg, s') && Stand(cfg, s', total, first, n + 1, last, claimed) && s'.now == s.now
    ensures s'.procs[0].disp == s.procs[0].disp
    ensures n + cfg.workers < last ==> |s'.procs[0].queue| + 1 == |s.procs[0].queue|
  {
    InTurn(cfg, s, total, first, n, last, claimed);
    hide Unattended, Beat, WorkerOn, SettledTo, RowIn, QueueOf;
    var w := n % cfg.workers;
    var s1 := FinishOne(cfg, s, total, first + n, claimed, w);
    s' := TakeNext(cfg, s1, total, first + n + 1, claimed, w, first + n + cfg.workers + 1, first + last);
    BeatMoved(cfg, s, s', total, first, n, last, claimed);
  }

  // ---------- the burst ----------

  /** The batch a poll claims when `claimed` rows are claimed already. */
  function Batch(cfg: Config, claimed: nat): seq<Task> {
    seq(cfg.batchSize, i requires 0 <= i => TaskFor(claimed + 1 + i))
  }

  lemma BatchIds(cfg: Config, claimed: nat)
    ensures DistinctIds(Batch(cfg, claimed))
    ensures forall t <- Batch(cfg, claimed) :: t == TaskFor(t.id)
    ensures forall id: Id :: id in Ids(Batch(cfg, claimed)) <==> claimed < id <= claimed + cfg.batchSize
  {
    var batch := Batch(cfg, claimed);
    assert forall i :: 0 <= i < |batch| ==> batch[i] == TaskFor(claimed + 1 + i);
    forall id: Id | claimed < id <= claimed + cfg.batchSize ensures id in Ids(batch) {
      assert batch[id - claimed - 1] == TaskFor(id);
      assert TaskFor(id) in batch;
    }
    forall t | t in batch ensures claimed < t.id <= claimed + cfg.batchSize {
      var i :| 0 <= i < |batch| && batch[i] == t;
    }
  }

  lemma Endpoints(cfg: Config, n: nat) returns (s: State)
    ensures Unattended(cfg, s) && s.now == 0 && s.rows == map[] && s.procs == map[] && s.nextProc == 0
    ensures s.nextId == 1 && s.nextEndpoint == n + 1
    ensures forall ep: Id :: 1 <= ep <= n ==> ep in s.endpoints && s.endpoints[ep].status.Active?
  {
    if n == 0 {
      s := Initial();
      InitialReachable(cfg);
    } else {
      var s1 := Endpoints(cfg, n - 1);
      s := Go(cfg, s1, CreateEndpoint(0, "", 10));
    }
    hide Unattended;
  }

  /** One event with an attempt for each of `total` endpoints. */
  lemma BurstOfRows(cfg: Config, total: nat) returns (s: State)
    ensures Unattended(cfg, s) && s.now == 0 && s.procs == map[] && s.nextProc == 0 && s.nextId == total + 1
    ensures forall ep: Id :: 1 <= ep <= total ==> ep in s.endpoints && s.endpoints[ep].status.Active?
    ensures forall id :: id in s.rows <==> 1 <= id <= total
    ensures forall id <- s.rows :: s.rows[id] == NewAttempt(0, id, 0)
  {
    var s1 := Endpoints(cfg, total);
    var targets: seq<(Id, Id)> := seq(total, i requires 0 <= i => (0, i + 1));
    s := Go(cfg, s1, Insert(targets));
    InsertedRows(s1.rows, s1.nextId, targets, 0);
    hide Unattended, InsertRows;
    forall id: Id | 1 <= id <= total ensures id in s.rows && s.rows[id] == NewAttempt(0, id, 0) {
      assert s.rows[1 + (id - 1)] == NewAttempt(targets[id - 1].0, targets[id - 1].1, 0);
    }
  }

  lemma Opening(cfg: Config, total: nat) returns (s: State)
    requires cfg.Valid()
    ensures Unattended(cfg, s) && s.now == 0 && Stand(cfg, s, total, 0, 0, 0, 0) && s.procs[0].disp == Waiting(true)
  {
    var s1 := BurstOfRows(cfg, total);
    s := Go(cfg, s1, Start);
    assert s == s1.(procs := map[0 := Started(cfg, 0)], nextProc := 1);
    hide Unattended, OnPlan, Next;
  }

  lemma BatchIsOldest(cfg: Config, s: State, total: nat, done: nat, claimed: nat)
    requires cfg.Valid() && Scene(cfg, s, total, done, claimed) && s.now == 0
    requires done <= claimed && claimed + cfg.batchSize <= total
    ensures SomeClaim(s.rows, s.endpoints, 0, cfg.batchSize, Batch(cfg, claimed))
  {
    var batch, eligible := Batch(cfg, claimed), Eligible(s.rows, s.endpoints, 0);
    BatchIds(cfg, claimed);
    DistinctIdsByCount(batch);
    forall t | t in batch ensures t.id in eligible && t == TaskOf(t.id, s.rows[t.id], 0) {
      assert t.id in Ids(batch);
    }
    assert Ids(batch) <= eligible;
    SubsetSize(Ids(batch), eligible);
    assert ClaimAnswer(s.rows, s.endpoints, 0, cfg.batchSize, batch);
    ClaimAlone(s.rows, s.endpoints, 0, cfg.batchSize, batch);
  }

  lemma ClaimedScene(cfg: Config, s: State, s': State, total: nat, done: nat, claimed: nat)
    requires Scene(cfg, s, total, done, claimed) && done <= claimed && SameElsewhere(s, s', 0) && s.now == 0
    requires s'.rows == MarkClaimed(s.rows, Ids(Batch(cfg, claimed)), 0)
    ensures Scene(cfg, s', total, done, claimed + cfg.batchSize)
  {
    BatchIds(cfg, claimed);
    hide Ids, Batch;
  }

  lemma ClaimedStand(cfg: Config, s: State, s': State, total: nat, first: nat, last: nat, claimed: nat)
    requires cfg.Valid() && Stand(cfg, s, total, first, 0, last, claimed) && first <= claimed && s.now == 0
    requires SameElsewhere(s, s', 0) && s'.procs[0].queue == s.procs[0].queue
    requires s'.rows == MarkClaimed(s.rows, Ids(Batch(cfg, claimed)), 0)
    ensures Stand(cfg, s', total, first, 0, last, claimed + cfg.batchSize)
  {
    ClaimedScene(cfg, s, s', total, first, claimed);
    hide RowIn, WorkerOn, QueueOf, MarkClaimed, Scene;
  }

  /** A full batch is claimed at time 0. */
  lemma PollFull(cfg: Config, s: State, total: nat, first: nat, last: nat, claimed: nat) returns (s': State)
    requires cfg.Valid() && Unattended(cfg, s) && Stand(cfg, s, total, first, 0, last, claimed) && s.now == 0
    requires first <= claimed && claimed + cfg.batchSize <= total && s.procs[0].disp == Waiting(true)
    ensures Unattended(cfg, s') && Stand(cfg, s', total, first, 0, last, claimed + cfg.batchSize) && s'.now == 0
    ensures s'.procs[0].disp.Fetching? && s'.procs[0].disp.since == 0 && s'.procs[0].disp.batch == Batch(cfg, claimed)
  {
    BatchIsOldest(cfg, s, total, first, claimed);
    StandIsCalm(cfg, s, total, first, 0, last, claimed);
    var batch := Batch(cfg, claimed);
    hide Unattended, SomeClaim, MarkClaimed, Stand, Calm, SameElsewhere;
    s' := Poll(cfg, s, 0, batch);
    ClaimedStand(cfg, s, s', total, first, last, claimed);
  }

  lemma TurnAtFirst(cfg: Config, w: nat)
    requires cfg.Valid() && w < cfg.workers
    ensures Turn(cfg, 0, w) == w + 1
  {
  }

  lemma QueueGrows(q: seq<Queued>, q': seq<Queued>, from: nat, to: nat)
    requires QueueOf(q, from, to) && from <= to + 1
    requires |q'| == |q| + 1 && q'[..|q|] == q && q'[|q|].task == TaskFor(to + 1)
    ensures QueueOf(q', from, to + 1)
  {
    forall i | 0 <= i < |q| ensures q'[i].task == TaskFor(from + i) {
      assert q'[i] == q'[..|q|][i];
    }
  }

  /** A task is sent behind busy workers: it stays queued. */
  lemma SendMore(cfg: Config, s: State, total: nat, first: nat, n: nat, last: nat, claimed: nat, batch: seq<Task>, next: nat, since: nat)
    returns (s': State)
    requires cfg.Valid() && Unattended(cfg, s) && Stand(cfg, s, total, first, n, last, claimed) && n + cfg.workers <= last
    requires HandingAt(s.procs[0].disp, batch, next, since, Sending) && next < |batch| && batch[next] == TaskFor(first + last + 1)
    requires |s.procs[0].queue| < cfg.queueSize
    ensures Unattended(cfg, s') && Stand(cfg, s', total, first, n, last + 1, claimed) && s'.now == s.now
    ensures HandingAt(s'.procs[0].disp, batch, next + 1, s.now, StopCheck)
    ensures |s'.procs[0].queue| == |s.procs[0].queue| + 1
  {
    s' := SendIt(cfg, s, 0, batch, next, since);
    QueueGrows(s.procs[0].queue, s'.procs[0].queue, first + n + cfg.workers + 1, first + last);
    hide Unattended, RowIn, OnPlan, QueueOf, HandingAt, Turn;
    forall w | 0 <= w < cfg.workers ensures WorkerOn(cfg, s'.procs[0].workers[w], first, n, last + 1, w, s'.now) {
      assert WorkerOn(cfg, s.procs[0].workers[w], first, n, last, w, s.now);
      TurnIsNear(cfg, n, w);
    }
  }

  /** Sent while the queue is empty: the queue is that one task. */
  lemma SendFirst(cfg: Config, s: State, total: nat, done: nat, claimed: nat, batch: seq<Task>, next: nat, id: Id) returns (s': State)
    requires cfg.Valid() && Unattended(cfg, s) && Scene(cfg, s, total, done, claimed) && s.procs[0].queue == []
    requires HandingAt(s.procs[0].disp, batch, next, s.now, Sending) && next < |batch| && batch[next] == TaskFor(id)
    ensures Unattended(cfg, s') && Scene(cfg, s', total, done, claimed) && s'.now == s.now
    ensures s'.procs[0].workers == s.procs[0].workers && QueueOf(s'.procs[0].queue, id, id)
    ensures HandingAt(s'.procs[0].disp, batch, next + 1, s.now, StopCheck)
  {
    s' := SendIt(cfg, s, 0, batch, next, s.now);
    hide Unattended, RowIn, HandingAt;
  }

  /** Worker 0 delivers the one queued task in no time. */
  lemma DeliverNow(cfg: Config, s: State, total: nat, done: nat, claimed: nat) returns (s': State)
    requires cfg.Valid() && Unattended(cfg, s) && Scene(cfg, s, total, done, claimed) && done < claimed <= total
    requires QueueOf(s.procs[0].queue, done + 1, done + 1)
    requires forall w :: 0 <= w < cfg.workers ==> s.procs[0].workers[w].Free?
    ensures Unattended(cfg, s') && Scene(cfg, s', total, done + 1, claimed) && s'.now == s.now
    ensures s'.procs[0].disp == s.procs[0].disp && s'.procs[0].queue == []
    ensures forall w :: 0 <= w < cfg.workers ==> s'.procs[0].workers[w].Free?
  {
    hide Unattended, RowIn;
    var s1 := TakeNext(cfg, s, total, done, claimed, 0, done + 1, done + 1);
    var s2 := WorkerActs(cfg, s1, 0, 0, LimitPass);
    var s3 := WorkerActs(cfg, s2, 0, 0, Return(DeliveryResult(true, None)));
    hide QueueOf;
    s' := FinishOne(cfg, s3, total, done, claimed, 0);
  }

  lemma Idle(cfg: Config, s: State, total: nat, done: nat, claimed: nat)
    requires cfg.Valid()
    ensures Stand(cfg, s, total, done, 0, 0, claimed)
            <==> && Scene(cfg, s, total, done, claimed) && s.procs[0].queue == []
                 && forall w :: 0 <= w < cfg.workers ==> s.procs[0].workers[w].Free?
  {
    hide OnPlan, RowIn;
    forall w: nat | w < cfg.workers ensures Turn(cfg, 0, w) == w + 1 {
      TurnAtFirst(cfg, w);
    }
    hide Turn;
    if Scene(cfg, s, total, done, claimed)
       && forall w :: 0 <= w < cfg.workers ==> WorkerOn(cfg, s.procs[0].workers[w], done, 0, 0, w, s.now)
    {
      forall w | 0 <= w < cfg.workers ensures s.procs[0].workers[w].Free? {
        assert WorkerOn(cfg, s.procs[0].workers[w], done, 0, 0, w, s.now);
      }
    }
  }

  /** A task beyond those the timetable needs is delivered at once. */
  lemma SkipOne(cfg: Config, s: State, total: nat, done: nat, claimed: nat, batch: seq<Task>, next: nat) returns (s': State)
    requires cfg.Valid() && Unattended(cfg, s) && Stand(cfg, s, total, done, 0, 0, claimed) && done < claimed <= total
    requires HandingAt(s.procs[0].disp, batch, next, s.now, Sending) && next < |batch| && batch[next] == TaskFor(done + 1)
    ensures Unattended(cfg, s') && Stand(cfg, s', total, done + 1, 0, 0, claimed) && s'.now == s.now
    ensures HandingAt(s'.procs[0].disp, batch, next + 1, s.now, StopCheck)
  {
    Idle(cfg, s, total, done, claimed);
    hide Unattended, Scene, Stand, QueueOf, HandingAt;
    var s1 := SendFirst(cfg, s, total, done, claimed, batch, next, done + 1);
    s' := DeliverNow(cfg, s1, total, done, claimed);
    Idle(cfg, s', total, done + 1, claimed);
  }

  lemma OneMoreAtWork(cfg: Config, s: State, s': State, total: nat, first: nat, m: nat, claimed: nat)
    requires cfg.Valid() && Stand(cfg, s, total, first, 0, m, claimed) && m < cfg.workers && s.now == s'.now == 0
    requires Scene(cfg, s', total, first, claimed) && QueueOf(s'.procs[0].queue, first + m + 2, first + m + 1)
    requires s'.procs[0].workers[m] == Limiting(TaskFor(first + m + 1), 0)
    requires forall w :: 0 <= w < cfg.workers && w != m ==> s'.procs[0].workers[w] == s.procs[0].workers[w]
    ensures Stand(cfg, s', total, first, 0, m + 1, claimed)
  {
    PlanBegins(cfg, first, m + 1);
    hide Scene, OnPlan, QueueOf;
    forall w | 0 <= w < cfg.workers ensures WorkerOn(cfg, s'.procs[0].workers[w], first, 0, m + 1, w, 0) {
      TurnAtFirst(cfg, w);
      assert WorkerOn(cfg, s.procs[0].workers[w], first, 0, m, w, 0);
    }
    EmptyQueue(s'.procs[0].queue, first + m + 2, first + m + 1, first + cfg.workers + 1);
  }

  lemma EmptyQueue(q: seq<Queued>, from: nat, to: nat, from': nat)
    requires QueueOf(q, from, to) && to < from && to < from'
    ensures QueueOf(q, from', to)
  {
  }

  /** A task for a worker that is still free is taken at once, and slow from there on. */
  lemma StartOne(cfg: Config, s: State, total: nat, first: nat, m: nat, claimed: nat, batch: seq<Task>, next: nat) returns (s': State)
    requires cfg.Valid() && Unattended(cfg, s) && Stand(cfg, s, total, first, 0, m, claimed) && m < cfg.workers && s.now == 0
    requires HandingAt(s.procs[0].disp, batch, next, 0, Sending) && next < |batch| && batch[next] == TaskFor(first + m + 1)
    ensures Unattended(cfg, s') && Stand(cfg, s', total, first, 0, m + 1, claimed) && s'.now == 0
    ensures HandingAt(s'.procs[0].disp, batch, next + 1, 0, StopCheck)
  {
    TurnAtFirst(cfg, m);
    assert WorkerOn(cfg, s.procs[0].workers[m], first, 0, m, m, 0);
    assert s.procs[0].queue == [];
    hide Unattended, Scene, WorkerOn, QueueOf, HandingAt;
    var s1 := SendFirst(cfg, s, total, first, claimed, batch, next, first + m + 1);
    assert s1.procs[0].workers[m].Free?;
    s' := TakeNext(cfg, s1, total, first, claimed, m, first + m + 1, first + m + 1);
    OneMoreAtWork(cfg, s, s', total, first, m, claimed);
  }

  /** k tasks have been handed over at time 0: the first `extra` are delivered, the next W are with the
      workers, the rest is queued. */
  ghost predicate Placed(cfg: Config, s: State, total: nat, extra: nat, k: nat, claimed: nat)
    requires cfg.Valid()
  {
    && s.now == 0
    && if k <= extra then Stand(cfg, s, total, k, 0, 0, claimed) else Stand(cfg, s, total, extra, 0, k - extra, claimed)
  }

  lemma PlacedHasRoom(cfg: Config, s: State, total: nat, extra: nat, k: nat, claimed: nat)
    requires cfg.Valid() && Placed(cfg, s, total, extra, k, claimed) && extra <= k
    ensures Stand(cfg, s, total, extra, 0, k - extra, claimed)
    ensures k < extra + cfg.workers + cfg.queueSize ==> |s.procs[0].queue| < cfg.queueSize
  {
    hide WorkerOn, RowIn;
  }

  lemma PlaceOne(cfg: Config, s: State, total: nat, extra: nat, k: nat, claimed: nat, batch: seq<Task>, next: nat) returns (s': State)
    requires cfg.Valid() && Unattended(cfg, s) && Placed(cfg, s, total, extra, k, claimed)
    requires k < claimed <= total && k < extra + cfg.workers + cfg.queueSize
    requires HandingAt(s.procs[0].disp, batch, next, 0, StopCheck) && next < |batch| && batch[next] == TaskFor(k + 1)
    ensures Unattended(cfg, s') && Placed(cfg, s', total, extra, k + 1, claimed)
    ensures HandingAt(s'.procs[0].disp, batch, next + 1, 0, StopCheck)
  {
    hide Unattended, WorkerOn, QueueOf, RowIn, HandingAt;
    var s1 := OfferIt(cfg, s, 0, batch, next);
    hide Stand;
    if k < extra {
      StandAfter(cfg, s, s1, total, k, 0, 0, claimed);
      s' := SkipOne(cfg, s1, total, k, claimed, batch, next);
    } else {
      PlacedHasRoom(cfg, s, total, extra, k, claimed);
      StandAfter(cfg, s, s1, total, extra, 0, k - extra, claimed);
      if k - extra < cfg.workers {
        s' := StartOne(cfg, s1, total, extra, k - extra, claimed, batch, next);
      } else {
        s' := SendMore(cfg, s1, total, extra, 0, k - extra, claimed, batch, next, 0);
      }
    }
  }

  lemma PlaceRest(cfg: Config, s: State, total: nat, extra: nat, claimed: nat, next: nat) returns (s': State)
    requires cfg.Valid() && Unattended(cfg, s) && next <= cfg.batchSize && claimed + cfg.batchSize <= total
    requires Placed(cfg, s, total, extra, claimed + next, claimed + cfg.batchSize)
    requires claimed + cfg.batchSize <= extra + cfg.workers + cfg.queueSize
    requires HandingAt(s.procs[0].disp, Batch(cfg, claimed), next, 0, StopCheck)
    ensures Unattended(cfg, s') && Placed(cfg, s', total, extra, claimed + cfg.batchSize, claimed + cfg.batchSize)
    ensures HandingAt(s'.procs[0].disp, Batch(cfg, claimed), cfg.batchSize, 0, StopCheck)
    decreases cfg.batchSize - next
  {
    s' := s;
    hide Unattended, Placed, HandingAt;
    if next < cfg.batchSize {
      s' := PlaceOne(cfg, s, total, extra, claimed + next, claimed + cfg.batchSize, Batch(cfg, claimed), next);
      s' := PlaceRest(cfg, s', total, extra, claimed, next + 1);
    }
  }

  lemma PlacedAfter(cfg: Config, s: State, s': State, total: nat, extra: nat, k: nat, claimed: nat)
    requires cfg.Valid() && Placed(cfg, s, total, extra, k, claimed)
    requires SameElsewhere(s, s', 0) && s'.rows == s.rows && s'.procs[0].queue == s.procs[0].queue
    ensures Placed(cfg, s', total, extra, k, claimed)
  {
    hide Stand;
    if k <= extra {
      StandAfter(cfg, s, s', total, k, 0, 0, claimed);
    } else {
      StandAfter(cfg, s, s', total, extra, 0, k - extra, claimed);
    }
  }

  lemma PollPlaced(cfg: Config, s: State, total: nat, extra: nat, claimed: nat) returns (s': State)
    requires cfg.Valid() && Unattended(cfg, s) && Placed(cfg, s, total, extra, claimed, claimed)
    requires claimed + cfg.batchSize <= total && s.procs[0].disp == Waiting(true)
    ensures Unattended(cfg, s') && Placed(cfg, s', total, extra, claimed, claimed + cfg.batchSize)
    ensures s'.procs[0].disp.Fetching? && s'.procs[0].disp.since == 0 && s'.procs[0].disp.batch == Batch(cfg, claimed)
    ensures Calm(s'.procs[0])
  {
    hide Unattended, WorkerOn, QueueOf, RowIn;
    if claimed <= extra {
      s' := PollFull(cfg, s, total, claimed, 0, claimed);
    } else {
      s' := PollFull(cfg, s, total, extra, claimed - extra, claimed);
    }
  }

  /** A whole batch at time 0. */
  lemma PlaceBatch(cfg: Config, s: State, total: nat, extra: nat, claimed: nat) returns (s': State)
    requires cfg.Valid() && Unattended(cfg, s) && Placed(cfg, s, total, extra, claimed, claimed)
    requires claimed + cfg.batchSize <= total && claimed + cfg.batchSize <= extra + cfg.workers + cfg.queueSize
    requires s.procs[0].disp == Waiting(true)
    ensures Unattended(cfg, s') && Placed(cfg, s', total, extra, claimed + cfg.batchSize, claimed + cfg.batchSize)
    ensures s'.procs.Keys == {0} && s'.procs[0].disp == Waiting(true)
  {
    hide Unattended, Placed, SameElsewhere, HandingAt;
    var s1 := PollPlaced(cfg, s, total, extra, claimed);
    PlacedIsCalm(cfg, s1, total, extra, claimed, claimed + cfg.batchSize);
    var s2 := ReceiveIt(cfg, s1, 0);
    PlacedAfter(cfg, s1, s2, total, extra, claimed, claimed + cfg.batchSize);
    var s3 := PlaceRest(cfg, s2, total, extra, claimed, 0);
    PlacedIsCalm(cfg, s3, total, extra, claimed + cfg.batchSize, claimed + cfg.batchSize);
    s' := EndIt(cfg, s3, 0, Batch(cfg, claimed), 0);
    PlacedAfter(cfg, s3, s', total, extra, claimed + cfg.batchSize, claimed + cfg.batchSize);
    PlacedIsCalm(cfg, s', total, extra, claimed + cfg.batchSize, claimed + cfg.batchSize);
  }

  lemma PlacedIsCalm(cfg: Config, s: State, total: nat, extra: nat, k: nat, claimed: nat)
    requires cfg.Valid() && Placed(cfg, s, total, extra, k, claimed)
    ensures s.procs.Keys == {0} && Calm(s.procs[0]) && s.now == 0
  {
  }

  lemma Ready(cfg: Config, total: nat, extra: nat) returns (s: State)
    requires cfg.Valid()
    ensures Unattended(cfg, s) && Placed(cfg, s, total, extra, 0, 0) && s.procs.Keys == {0} && s.procs[0].disp == Waiting(true)
  {
    s := Opening(cfg, total);
    hide Unattended, WorkerOn, QueueOf, RowIn;
  }

  lemma Burst(cfg: Config, total: nat, extra: nat, batches: nat) returns (s: State)
    requires cfg.Valid()
    requires batches * cfg.batchSize <= total && batches * cfg.batchSize <= extra + cfg.workers + cfg.queueSize
    ensures Unattended(cfg, s) && Placed(cfg, s, total, extra, batches * cfg.batchSize, batches * cfg.batchSize)
    ensures s.procs.Keys == {0} && s.procs[0].disp == Waiting(true)
  {
    hide Unattended, Placed;
    if batches == 0 {
      s := Ready(cfg, total, extra);
    } else {
      TimesNext(batches - 1, cfg.batchSize);
      s := Burst(cfg, total, extra, batches - 1);
      s := PlaceBatch(cfg, s, total, extra, (batches - 1) * cfg.batchSize);
    }
  }

  // ---------- the last batch ----------

  /** The batches that make room for the last one, and the tasks of them the timetable does not need. */
  function Batches(cfg: Config): nat
    requires cfg.Valid()
  {
    Ceiling(cfg.workers + cfg.queueSize, cfg.batchSize)
  }

  function Filling(cfg: Config): nat
    requires cfg.Valid()
  {
    Batches(cfg) * cfg.batchSize
  }

  function Extra(cfg: Config): nat
    requires cfg.Valid()
  {
    CeilingBounds(cfg.workers + cfg.queueSize, cfg.batchSize);
    Filling(cfg) - cfg.workers - cfg.queueSize
  }

  function Total(cfg: Config): nat
    requires cfg.Valid()
  {
    Filling(cfg) + cfg.batchSize
  }

  lemma Counts(cfg: Config)
    requires cfg.Valid()
    ensures Filling(cfg) == Extra(cfg) + cfg.workers + cfg.queueSize
    ensures Total(cfg) == Extra(cfg) + TaskCount(cfg)
  {
  }

  lemma ClaimLast(cfg: Config) returns (s: State)
    requires cfg.Valid()
    ensures Unattended(cfg, s) && Stand(cfg, s, Total(cfg), Extra(cfg), 0, cfg.workers + cfg.queueSize, Total(cfg))
    ensures s.now == 0 && s.procs[0].disp.Fetching? && s.procs[0].disp.since == 0
    ensures s.procs[0].disp.batch == Batch(cfg, Filling(cfg)) && DispatcherDue(cfg, s.procs[0], DB_TIMEOUT)
  {
    Counts(cfg);
    hide Unattended, Extra, Stand, SameElsewhere;
    s := Burst(cfg, Total(cfg), Extra(cfg), Batches(cfg));
    s := PollPlaced(cfg, s, Total(cfg), Extra(cfg), Filling(cfg));
    PlacedIsCalm(cfg, s, Total(cfg), Extra(cfg), Filling(cfg), Total(cfg));
  }

  /** The queue is full, every worker is busy, and the last batch is claimed; its reply takes its time. */
  lemma LastClaim(cfg: Config) returns (s: State)
    requires cfg.Valid()
    ensures Unattended(cfg, s) && Stand(cfg, s, Total(cfg), Extra(cfg), 0, cfg.workers + cfg.queueSize, Total(cfg))
    ensures s.now == DB_TIMEOUT && HandingAt(s.procs[0].disp, Batch(cfg, Filling(cfg)), 0, DB_TIMEOUT, StopCheck)
  {
    Counts(cfg);
    BeatOfSend(cfg, 0);
    hide Batch, SettledTo, Unattended, Extra, Filling, Total, Stand, HandingAt, SameElsewhere, Beat, DispatcherDue;
    s := ClaimLast(cfg);
    var s1 := WaitUntil(cfg, s, Total(cfg), Extra(cfg), 0, cfg.workers + cfg.queueSize, Total(cfg), DB_TIMEOUT);
    StandIsCalm(cfg, s1, Total(cfg), Extra(cfg), 0, cfg.workers + cfg.queueSize, Total(cfg));
    s := ReceiveIt(cfg, s1, 0);
    StandAfter(cfg, s1, s, Total(cfg), Extra(cfg), 0, cfg.workers + cfg.queueSize, Total(cfg));
  }

  lemma StandIsCalm(cfg: Config, s: State, total: nat, first: nat, n: nat, last: nat, claimed: nat)
    requires cfg.Valid() && Stand(cfg, s, total, first, n, last, claimed)
    ensures s.procs.Keys == {0} && Calm(s.procs[0])
    ensures n + cfg.workers <= last ==> |s.procs[0].queue| == last - n - cfg.workers
  {
    hide WorkerOn, RowIn;
  }

  /** The next task is offered to the full queue until the next beat. */
  lemma WaitInSend(cfg: Config, s: State, i: nat) returns (s': State)
    requires cfg.Valid() && Unattended(cfg, s) && i < cfg.batchSize
    requires Stand(cfg, s, Total(cfg), Extra(cfg), i, cfg.workers + cfg.queueSize + i, Total(cfg))
    requires s.now == (if i == 0 then DB_TIMEOUT else Beat(cfg, i))
    requires HandingAt(s.procs[0].disp, Batch(cfg, Filling(cfg)), i, s.now, StopCheck)
    ensures Unattended(cfg, s') && Stand(cfg, s', Total(cfg), Extra(cfg), i, cfg.workers + cfg.queueSize + i, Total(cfg))
    ensures s'.now == Beat(cfg, i + 1) && SettledTo(cfg, s', i, cfg.workers)
    ensures HandingAt(s'.procs[0].disp, Batch(cfg, Filling(cfg)), i, s.now, Sending)
  {
    BeatOfSend(cfg, i);
    var last, batch := cfg.workers + cfg.queueSize + i, Batch(cfg, Filling(cfg));
    StandIsCalm(cfg, s, Total(cfg), Extra(cfg), i, last, Total(cfg));
    hide Unattended, Extra, Filling, Total, Stand, SameElsewhere, Beat, Calm;
    var s1 := OfferIt(cfg, s, 0, batch, i);
    StandAfter(cfg, s, s1, Total(cfg), Extra(cfg), i, last, Total(cfg));
    s' := WaitUntil(cfg, s1, Total(cfg), Extra(cfg), i, last, Total(cfg), Beat(cfg, i + 1));
  }

  /** At a beat a worker makes room, and the waiting task is sent. */
  lemma SendAtBeat(cfg: Config, s: State, total: nat, first: nat, n: nat, last: nat, claimed: nat, batch: seq<Task>, since: nat)
    returns (s': State)
    requires cfg.Valid() && Unattended(cfg, s) && Stand(cfg, s, total, first, n, last, claimed) && SettledTo(cfg, s, n, cfg.workers)
    requires s.now == Beat(cfg, n + 1) && n + 1 != TaskCount(cfg) && first + n < claimed <= total
    requires last == n + cfg.workers + cfg.queueSize
    requires HandingAt(s.procs[0].disp, batch, n, since, Sending) && n < |batch| && batch[n] == TaskFor(first + last + 1)
    ensures Unattended(cfg, s') && Stand(cfg, s', total, first, n + 1, last + 1, claimed) && s'.now == s.now
    ensures HandingAt(s'.procs[0].disp, batch, n + 1, s.now, StopCheck)
  {
    hide Unattended, Stand, SettledTo, Beat, HandingAt, TaskCount;
    StandIsCalm(cfg, s, total, first, n, last, claimed);
    var s1 := NextBeat(cfg, s, total, first, n, last, claimed);
    s' := SendMore(cfg, s1, total, first, n + 1, last, claimed, batch, n, since);
  }

  lemma BatchAt(cfg: Config, claimed: nat, i: nat)
    requires i < cfg.batchSize
    ensures |Batch(cfg, claimed)| == cfg.batchSize && Batch(cfg, claimed)[i] == TaskFor(claimed + 1 + i)
  {
  }

  /** One send of the last batch: it waits for the next beat, which makes room for it. */
  lemma SendLate(cfg: Config, s: State, i: nat) returns (s': State)
    requires cfg.Valid() && Unattended(cfg, s) && i < cfg.batchSize
    requires Stand(cfg, s, Total(cfg), Extra(cfg), i, cfg.workers + cfg.queueSize + i, Total(cfg))
    requires s.now == (if i == 0 then DB_TIMEOUT else Beat(cfg, i))
    requires HandingAt(s.procs[0].disp, Batch(cfg, Filling(cfg)), i, s.now, StopCheck)
    ensures Unattended(cfg, s') && Stand(cfg, s', Total(cfg), Extra(cfg), i + 1, cfg.workers + cfg.queueSize + i + 1, Total(cfg))
    ensures s'.now == Beat(cfg, i + 1)
    ensures HandingAt(s'.procs[0].disp, Batch(cfg, Filling(cfg)), i + 1, s'.now, StopCheck)
  {
    Counts(cfg);
    BatchAt(cfg, Filling(cfg), i);
    hide Unattended, Extra, Filling, Total, Batch, Stand, SettledTo, Beat, HandingAt, TaskFor;
    var s1 := WaitInSend(cfg, s, i);
    s' := SendAtBeat(cfg, s1, Total(cfg), Extra(cfg), i, cfg.workers + cfg.queueSize + i, Total(cfg), Batch(cfg, Filling(cfg)), s.now);
  }

  lemma SendRest(cfg: Config, s: State, i: nat) returns (s': State)
    requires cfg.Valid() && Unattended(cfg, s) && i <= cfg.batchSize
    requires Stand(cfg, s, Total(cfg), Extra(cfg), i, cfg.workers + cfg.queueSize + i, Total(cfg))
    requires s.now == (if i == 0 then DB_TIMEOUT else Beat(cfg, i))
    requires HandingAt(s.procs[0].disp, Batch(cfg, Filling(cfg)), i, s.now, StopCheck)
    ensures Unattended(cfg, s') && Stand(cfg, s', Total(cfg), Extra(cfg), cfg.batchSize, TaskCount(cfg), Total(cfg))
    ensures s'.now == Beat(cfg, cfg.batchSize)
    ensures HandingAt(s'.procs[0].disp, Batch(cfg, Filling(cfg)), cfg.batchSize, s'.now, StopCheck)
    decreases cfg.batchSize - i
  {
    hide Unattended, Extra, Filling, Total, Stand, Beat, HandingAt;
    s' := s;
    if i < cfg.batchSize {
      s' := SendLate(cfg, s, i);
      s' := SendRest(cfg, s', i + 1);
    }
  }

  /** The dispatcher is done with the batch; its next poll fails, and from then on it waits for its ticker. */
  lemma DispatcherRests(cfg: Config, s: State, n: nat, batch: seq<Task>, since: nat) returns (s': State)
    requires cfg.Valid() && Unattended(cfg, s) && Stand(cfg, s, Total(cfg), Extra(cfg), n, TaskCount(cfg), Total(cfg))
    requires HandingAt(s.procs[0].disp, batch, |batch|, since, StopCheck) && |batch| == cfg.batchSize
    ensures Unattended(cfg, s') && Stand(cfg, s', Total(cfg), Extra(cfg), n, TaskCount(cfg), Total(cfg)) && s'.now == s.now
    ensures s'.procs[0].disp == Waiting(false)
  {
    StandIsCalm(cfg, s, Total(cfg), Extra(cfg), n, TaskCount(cfg), Total(cfg));
    hide Unattended, Extra, Total, Stand, SameElsewhere, HandingAt, Calm;
    var s1 := EndIt(cfg, s, 0, batch, since);
    var s2 := Quietly(cfg, s1, 0, BeginPoll);
    SameTwice(s, s1, s2, 0);
    s' := Quietly(cfg, s2, 0, FetchFail);
    SameTwice(s, s2, s', 0);
    StandAfter(cfg, s, s', Total(cfg), Extra(cfg), n, TaskCount(cfg), Total(cfg));
  }

  /** At a tick the dispatcher polls, the poll fails, and it waits for the next tick. */
  lemma PollInVain(cfg: Config, s: State, total: nat, first: nat, n: nat, last: nat, claimed: nat) returns (s': State)
    requires cfg.Valid() && Unattended(cfg, s) && Stand(cfg, s, total, first, n, last, claimed)
    requires s.procs[0].disp == Waiting(false) && s.procs[0].tick <= s.now
    ensures Unattended(cfg, s') && Stand(cfg, s', total, first, n, last, claimed) && s'.now == s.now
    ensures 0 in s'.procs && s'.procs[0].disp == Waiting(false) && s.now < s'.procs[0].tick
  {
    StandIsCalm(cfg, s, total, first, n, last, claimed);
    var _ := TickIsNext(s.procs[0].tick, cfg.pollInterval, s.now);
    hide Unattended, Stand, SameElsewhere, Calm, NextTick;
    var s1 := Quietly(cfg, s, 0, BeginPoll);
    s' := Quietly(cfg, s1, 0, FetchFail);
    SameTwice(s, s1, s', 0);
    StandAfter(cfg, s, s', total, first, n, last, claimed);
  }

  /** The dispatcher waits for its ticker until `t`, with a poll in vain at every tick. */
  lemma RestUntil(cfg: Config, s: State, total: nat, first: nat, n: nat, last: nat, claimed: nat, t: nat) returns (s': State)
    requires cfg.Valid() && Unattended(cfg, s) && Stand(cfg, s, total, first, n, last, claimed)
    requires s.now <= t <= Beat(cfg, n + 1) && s.procs[0].disp == Waiting(false)
    ensures Unattended(cfg, s') && Stand(cfg, s', total, first, n, last, claimed) && s'.now == t
    ensures SettledTo(cfg, s', n, cfg.workers) && s'.procs[0].disp == Waiting(false)
    decreases t - s.now
  {
    StandIsCalm(cfg, s, total, first, n, last, claimed);
    hide Unattended, Beat, Stand, SettledTo, Calm;
    s' := s;
    if s.procs[0].tick <= s.now {
      s' := PollInVain(cfg, s, total, first, n, last, claimed);
    }
    var stop := Min(t, s'.procs[0].tick);
    s' := WaitUntil(cfg, s', total, first, n, last, claimed, stop);
    if stop < t {
      s' := RestUntil(cfg, s', total, first, n, last, claimed, t);
    }
  }

  /** While the dispatcher waits for its ticker, the next beat comes. */
  lemma BeatAtRest(cfg: Config, s: State, total: nat, first: nat, n: nat, last: nat, claimed: nat) returns (s': State)
    requires cfg.Valid() && Unattended(cfg, s) && Stand(cfg, s, total, first, n, last, claimed)
    requires n < last && n + 1 != TaskCount(cfg) && first + n < claimed <= total
    requires s.now <= Beat(cfg, n + 1) && s.procs[0].disp == Waiting(false)
    ensures Unattended(cfg, s') && Stand(cfg, s', total, first, n + 1, last, claimed)
    ensures s'.now == Beat(cfg, n + 1) && s'.procs[0].disp == Waiting(false)
  {
    hide Unattended, Stand, Beat, SettledTo, TaskCount;
    var s1 := RestUntil(cfg, s, total, first, n, last, claimed, Beat(cfg, n + 1));
    s' := NextBeat(cfg, s1, total, first, n, last, claimed);
  }

  /** Beat after beat, until only the last task is left. */
  lemma RunOff(cfg: Config, s: State, total: nat, first: nat, n: nat, last: nat) returns (s': State)
    requires cfg.Valid() && Unattended(cfg, s) && Stand(cfg, s, total, first, n, last, total)
    requires n < last == TaskCount(cfg) && first + last == total
    requires s.now <= Beat(cfg, n + 1) && s.procs[0].disp == Waiting(false)
    ensures Unattended(cfg, s') && Stand(cfg, s', total, first, last - 1, last, total)
    ensures s'.procs[0].disp == Waiting(false) && s'.now <= Beat(cfg, last)
    decreases last - n
  {
    hide Unattended, Stand, Beat, TaskCount;
    s' := s;
    if n + 1 < last {
      var s1 := BeatAtRest(cfg, s, total, first, n, last, total);
      BeatRises(cfg, n + 1);
      s' := RunOff(cfg, s1, total, first, n + 1, last);
    }
  }

  /** Worker w is about to write a failure for the row. */
  predicate AboutToFail(p: Proc, w: nat, id: Id) {
    && Calm(p) && w < |p.workers| == |p.turns|
    && p.workers[w].Recording? && p.workers[w].task == TaskFor(id) && p.workers[w].result == NO_RESPONSE
  }

  /** Everything is delivered but the last row, which a worker has held since time 0. */
  ghost predicate Overheld(cfg: Config, s: State)
    requires cfg.Valid()
  {
    && Scene(cfg, s, Total(cfg), Total(cfg) - 1, Total(cfg))
    && s.now == HoldBound(cfg)
    && AboutToFail(s.procs[0], (TaskCount(cfg) - 1) % cfg.workers, Total(cfg))
  }

  lemma LastFails(cfg: Config, s: State)
    requires cfg.Valid() && Stand(cfg, s, Total(cfg), Extra(cfg), TaskCount(cfg) - 1, TaskCount(cfg), Total(cfg))
    requires SettledTo(cfg, s, TaskCount(cfg) - 1, cfg.workers) && s.now == Beat(cfg, TaskCount(cfg))
    ensures Overheld(cfg, s)
  {
    Counts(cfg);
    LastBeat(cfg);
    var n := TaskCount(cfg) - 1;
    var w := n % cfg.workers;
    NextTurn(cfg, n, w);
    assert WorkerOn(cfg, s.procs[0].workers[w], Extra(cfg), n, n + 1, w, s.now);
    assert !Overdue(cfg, s.procs[0].workers[w], Turn(cfg, n, w), s.now);
    hide Beat, Turn, OnPlan, Overdue, QueueOf, RowIn, Extra, Filling;
    PlanFinished(cfg, s.procs[0].workers[w], Extra(cfg), n + 1);
  }

  /** The last task of the backlog is held for HoldBound. */
  lemma LastOfBacklog(cfg: Config) returns (s: State)
    requires cfg.Valid()
    ensures Unattended(cfg, s) && Overheld(cfg, s)
  {
    hide Unattended, Extra, Filling, Total, Stand, SettledTo, Overheld, HandingAt, Beat;
    s := LastClaim(cfg);
    s := SendRest(cfg, s, 0);
    s := DispatcherRests(cfg, s, cfg.batchSize, Batch(cfg, Filling(cfg)), s.now);
    BeatRises(cfg, cfg.batchSize);
    Counts(cfg);
    s := RunOff(cfg, s, Total(cfg), Extra(cfg), cfg.batchSize, TaskCount(cfg));
    s := RestUntil(cfg, s, Total(cfg), Extra(cfg), TaskCount(cfg) - 1, TaskCount(cfg), Total(cfg), Beat(cfg, TaskCount(cfg)));
    LastFails(cfg, s);
  }
}
