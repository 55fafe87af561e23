/** Which configurations own their rows singly. RecordOutcome and RevertToPending check no status, so
    this is also the question whether delivered is for good. */
module Decision {
  import opened Arithmetic
  import opened Models
  import opened Recording
  import opened Table
  import opened Process
  import opened Lease
  import opened Engine
  import opened Ownership
  import opened Reachability
  import opened Schedule
  import opened Backlog
  import Breaker

  // ---------- what a hold beyond the lease leads to ----------

  lemma WriterHolds(p: Proc, w: nat, id: Id)
    requires AboutToFail(p, w, id)
    ensures TaskFor(id) in Process.Tasks(p) && HoldsRow(p, id)
  {
    WorkerTasksMember(p.workers, TaskFor(id));
    assert TaskFor(id) in WorkerTask(p.workers[w]);
  }

  lemma LastHold(cfg: Config, s: State)
    requires cfg.Valid() && Overheld(cfg, s)
    ensures HoldsRow(s.procs[0], Total(cfg))
    ensures LEASE < s.now ==> !LeaseHeld(s)
  {
    hide RowIn, Total, TaskCount, HoldBound, AboutToFail, HoldsRow, Tasks;
    WriterHolds(s.procs[0], (TaskCount(cfg) - 1) % cfg.workers, Total(cfg));
  }

  lemma OnlyTheLastIsDue(cfg: Config, s: State)
    requires cfg.Valid() && Overheld(cfg, s) && LEASE < s.now
    ensures Total(cfg) in s.rows && s.rows[Total(cfg)].status.Processing? && s.rows[Total(cfg)].number == 1
    ensures Eligible(s.rows, s.endpoints, s.now) == {Total(cfg)}
  {
    assert 0 < Total(cfg);
    hide TaskCount, HoldBound, AboutToFail;
    var total := Total(cfg);
    hide Total;
    assert total in s.rows;
  }

  /** A second process, started now, takes the row over. */
  lemma Rescue(cfg: Config, s: State) returns (s': State)
    requires cfg.Valid() && Unattended(cfg, s) && Overheld(cfg, s) && LEASE < s.now
    ensures Unattended(cfg, s') && s'.now == s.now && s'.procs.Keys == {0, 1} && s'.procs[0] == s.procs[0]
    ensures Total(cfg) in s'.rows && Calm(s'.procs[1]) && |s'.procs[1].workers| == |s'.procs[1].turns| == cfg.workers
    ensures s'.procs[1].workers[0].Free?
    ensures |s'.procs[1].queue| == 1 && s'.procs[1].queue[0].task.id == Total(cfg)
  {
    OnlyTheLastIsDue(cfg, s);
    var s1 := Go(cfg, s, Start);
    assert s1 == s.(procs := s.procs[1 := Started(cfg, s.now)], nextProc := 2);
    hide Unattended, Eligible, Total, Overheld, Next;
    s' := PollOne(cfg, s1, 1, Total(cfg));
  }

  lemma TwoHolders(s: State, id: Id)
    requires s.procs.Keys == {0, 1} && HoldsRow(s.procs[0], id)
    requires s.procs[1].queue != [] && s.procs[1].queue[0].task.id == id
    ensures !Alone(s)
  {
    var t :| t in Process.Tasks(s.procs[0]) && t.id == id;
    var u := s.procs[1].queue[0].task;
    assert u == QueueTasks(s.procs[1].queue)[0];
    assert u in Process.Tasks(s.procs[1]);
  }

  /** And delivers it. */
  lemma RescuerDelivers(cfg: Config, s: State, id: Id) returns (s': State)
    requires cfg.Valid() && Unattended(cfg, s) && s.procs.Keys == {0, 1} && id in s.rows
    requires Calm(s.procs[1]) && |s.procs[1].workers| == |s.procs[1].turns| == cfg.workers && s.procs[1].workers[0].Free?
    requires |s.procs[1].queue| == 1 && s.procs[1].queue[0].task.id == id
    ensures Unattended(cfg, s') && s'.procs.Keys == {0, 1} && s'.procs[0] == s.procs[0]
    ensures id in s'.rows && s'.rows[id].status.Delivered?
  {
    hide Unattended;
    var s1 := WorkerActs(cfg, s, 1, 0, Dequeue);
    var s2 := WorkerActs(cfg, s1, 1, 0, LimitPass);
    var s3 := WorkerActs(cfg, s2, 1, 0, Return(DeliveryResult(true, None)));
    s' := WorkerRecords(cfg, s3, 1, 0);
  }

  /** An event of a timed run takes a delivered row out of delivered. */
  ghost predicate Undoes(cfg: Config, s: State, e: Event, id: Id) {
    && Reachable(cfg, s) && EventEnabled(cfg, s, e) && Timely(cfg, s, e)
    && id in s.rows && s.rows[id].status.Delivered?
    && id in Next(cfg, s, e).rows && !Next(cfg, s, e).rows[id].status.Delivered?
  }

  /** The first holder writes its own outcome last, over the delivered row. */
  lemma StaleWrite(cfg: Config, s: State, w: nat, id: Id)
    requires Unattended(cfg, s) && s.procs.Keys == {0, 1} && id in s.rows && s.rows[id].status.Delivered?
    requires AboutToFail(s.procs[0], w, id)
    ensures Undoes(cfg, s, Local(0, ByWorker(w, RecordOk(NO_CHANCE))), id)
  {
    UnattendedIsReachable(cfg, s);
    hide Reachable, Unattended;
  }

  lemma OverheldFails(cfg: Config, s: State)
    requires cfg.Valid() && Overheld(cfg, s)
    ensures s.now == HoldBound(cfg) && s.procs.Keys == {0}
    ensures AboutToFail(s.procs[0], (TaskCount(cfg) - 1) % cfg.workers, Total(cfg))
  {
  }

  /** When HoldBound exceeds the lease, the lease is outlived, two processes hold one row, and a
      delivered row is taken back. */
  lemma OverlongHoldLosesOwnership(cfg: Config)
    requires cfg.Valid() && LEASE < HoldBound(cfg)
    ensures exists s :: Reachable(cfg, s) && !LeaseHeld(s)
    ensures exists s :: Reachable(cfg, s) && !Alone(s)
    ensures exists s, e, id :: Undoes(cfg, s, e, id)
  {
    hide Reachable, Unattended, HoldBound, LeaseHeld, Alone, AboutToFail, Undoes, Overheld, Total, TaskCount;
    var s0 := LastOfBacklog(cfg);
    OverheldFails(cfg, s0);
    LastHold(cfg, s0);
    UnattendedIsReachable(cfg, s0);
    var s1 := Rescue(cfg, s0);
    UnattendedIsReachable(cfg, s1);
    TwoHolders(s1, Total(cfg));
    var s2 := RescuerDelivers(cfg, s1, Total(cfg));
    StaleWrite(cfg, s2, (TaskCount(cfg) - 1) % cfg.workers, Total(cfg));
  }

  // ---------- what the configuration decides ----------

  /** In every timed run every hold ends within the lease, and no row has two holders. */
  ghost predicate OwnsSingly(cfg: Config) {
    forall s :: Reachable(cfg, s) ==> LeaseHeld(s) && Alone(s)
  }

  /** In no timed run is a delivered row taken back. */
  ghost predicate KeepsDelivered(cfg: Config) {
    forall s, e, id :: !Undoes(cfg, s, e, id)
  }

  lemma FittingStateOwns(cfg: Config, s: State)
    requires cfg.Valid() && Reachable(cfg, s) && HoldBound(cfg) <= LEASE
    ensures Base(cfg, s) && LeaseHeld(s) && Own(cfg, s)
  {
    hide HoldBound, Base, LeaseHeld, Own, TimedRun, Initial;
    var states, events :| EndsIn(cfg, states, events, s);
    TimedIsRun(cfg, states, events);
    ReachableBase(cfg, states, events, |events|);
    FittingConfigurationOwnsSingly(cfg, states, events, |events|);
  }

  lemma TimedIsRun(cfg: Config, states: seq<State>, events: seq<Event>)
    requires TimedRun(cfg, states, events)
    ensures Run(cfg, states, events)
  {
  }

  lemma FittingUndoesNothing(cfg: Config, s: State, e: Event, id: Id)
    requires cfg.Valid() && HoldBound(cfg) <= LEASE
    ensures !Undoes(cfg, s, e, id)
  {
    hide HoldBound, Base, LeaseHeld, Own, Next, Reachable, EventEnabled;
    if Reachable(cfg, s) && EventEnabled(cfg, s, e) && id in s.rows && id in Next(cfg, s, e).rows {
      FittingStateOwns(cfg, s);
      LifeCycle(cfg, s, e, id);
    }
  }

  /** For every configuration, ownership is single and delivered is for good if and only if the hold
      bound is within the lease. */
  lemma ConfigurationDecides(cfg: Config)
    requires cfg.Valid()
    ensures OwnsSingly(cfg) <==> HoldBound(cfg) <= LEASE
    ensures KeepsDelivered(cfg) <==> HoldBound(cfg) <= LEASE
  {
    hide Reachable, Undoes, HoldBound, LeaseHeld, Alone;
    if HoldBound(cfg) <= LEASE {
      forall s | Reachable(cfg, s) ensures LeaseHeld(s) && Alone(s) {
        FittingStateOwns(cfg, s);
      }
      forall s, e, id ensures !Undoes(cfg, s, e, id) {
        FittingUndoesNothing(cfg, s, e, id);
      }
    } else {
      OverlongHoldLosesOwnership(cfg);
    }
  }

  // ---------- whatever the limiter does ----------

  /** The same settings with a workload that the limiter delays by up to `wait`. */
  function At(cfg: Config, wait: nat): Config {
    cfg.(limiterWait := wait)
  }

  /** What a process does next does not depend on how long the limiter may delay a task. */
  lemma SameStep(cfg: Config, wait: nat, p: Proc, st: Step, now: nat)
    ensures Enabled(cfg, p, st, now) == Enabled(At(cfg, wait), p, st, now)
    ensures Enabled(cfg, p, st, now) ==> Apply(cfg, p, st, now) == Apply(At(cfg, wait), p, st, now)
  {
    if st.ByDispatcher? {
      hide Advance, NextTick;
    }
  }

  lemma SameEvent(cfg: Config, wait: nat, s: State, e: Event)
    requires EventEnabled(cfg, s, e)
    ensures EventEnabled(At(cfg, wait), s, e) && Next(cfg, s, e) == Next(At(cfg, wait), s, e)
  {
    if e.Local? {
      SameStep(cfg, wait, s.procs[e.i], e.st, s.now);
    }
    hide Enabled, Apply, SomeClaim, MarkClaimed, RevertRows, RecordRow, Decide, Breaker.RecordResult, Breaker.ApplyUpdate;
  }

  lemma LongerWaitIsDue(cfg: Config, wait: nat, p: Proc, t: nat)
    requires Due(cfg, p, t) && cfg.limiterWait <= wait
    ensures Due(At(cfg, wait), p, t)
  {
    forall w | 0 <= w < |p.workers| ensures WorkerDue(At(cfg, wait), p.workers[w], t) {
      assert WorkerDue(cfg, p.workers[w], t);
    }
  }

  lemma LongerWaitIsTimely(cfg: Config, wait: nat, s: State, e: Event)
    requires Timely(cfg, s, e) && cfg.limiterWait <= wait
    ensures Timely(At(cfg, wait), s, e)
  {
    hide Due;
    if e.Tick? {
      forall i | i in s.procs ensures Due(At(cfg, wait), s.procs[i], s.now + e.d) {
        LongerWaitIsDue(cfg, wait, s.procs[i], s.now + e.d);
      }
    }
  }

  /** A run of a workload the limiter delays less is one of a workload it may delay more. */
  lemma LongerWaitReaches(cfg: Config, wait: nat, s: State)
    requires Reachable(cfg, s) && cfg.limiterWait <= wait
    ensures Reachable(At(cfg, wait), s)
  {
    var states: seq<State>, events: seq<Event> :| EndsIn(cfg, states, events, s);
    hide Next, EventEnabled, Timely, Initial;
    forall k | 0 <= k < |events|
      ensures EventEnabled(At(cfg, wait), states[k], events[k]) && states[k + 1] == Next(At(cfg, wait), states[k], events[k])
      ensures Timely(At(cfg, wait), states[k], events[k])
    {
      SameEvent(cfg, wait, states[k], events[k]);
      assert Timely(cfg, states[k], events[k]);
      LongerWaitIsTimely(cfg, wait, states[k], events[k]);
    }
    assert EndsIn(At(cfg, wait), states, events, s);
  }

  lemma LongerWaitIsNoBetter(cfg: Config, wait: nat)
    requires cfg.limiterWait <= wait
    ensures OwnsSingly(At(cfg, wait)) ==> OwnsSingly(cfg)
    ensures KeepsDelivered(At(cfg, wait)) ==> KeepsDelivered(cfg)
  {
    hide Reachable, LeaseHeld, Alone;
    if OwnsSingly(At(cfg, wait)) {
      forall s | Reachable(cfg, s) ensures LeaseHeld(s) && Alone(s) {
        LongerWaitReaches(cfg, wait, s);
      }
    }
    if KeepsDelivered(At(cfg, wait)) {
      forall s, e, id ensures !Undoes(cfg, s, e, id) {
        if Undoes(cfg, s, e, id) {
          UndoesAt(cfg, wait, s, e, id);
        }
      }
    }
  }

  lemma UndoesAt(cfg: Config, wait: nat, s: State, e: Event, id: Id)
    requires Undoes(cfg, s, e, id) && cfg.limiterWait <= wait
    ensures Undoes(At(cfg, wait), s, e, id)
  {
    LongerWaitReaches(cfg, wait, s);
    SameEvent(cfg, wait, s, e);
    LongerWaitIsTimely(cfg, wait, s, e);
    hide Reachable, EventEnabled, Next, Timely;
  }

  /** For settings alone, whatever limits the endpoints have and whatever traffic there is. If the bound
      fits with the limiter's own timeout, ownership is single; if it does not fit without any waits,
      ownership is lost in a run in which the limiter delays nothing, and so for every workload. */
  lemma SettingsDecide(cfg: Config, wait: nat)
    requires cfg.Valid() && wait <= LIMITER_TIMEOUT
    ensures HoldBound(At(cfg, LIMITER_TIMEOUT)) <= LEASE ==> OwnsSingly(At(cfg, wait)) && KeepsDelivered(At(cfg, wait))
    ensures LEASE < HoldBound(At(cfg, 0)) ==> !OwnsSingly(At(cfg, wait)) && !KeepsDelivered(At(cfg, wait))
  {
    hide HoldBound, OwnsSingly, KeepsDelivered;
    ConfigurationDecides(At(cfg, LIMITER_TIMEOUT));
    ConfigurationDecides(At(cfg, 0));
    LongerWaitIsNoBetter(At(cfg, wait), LIMITER_TIMEOUT);
    LongerWaitIsNoBetter(At(cfg, 0), wait);
  }

  /** The default settings lose, whatever the limiter does. */
  lemma DefaultsLoseOwnership(limiterWait: nat)
    requires limiterWait <= LIMITER_TIMEOUT
    ensures !OwnsSingly(Defaults(limiterWait)) && !KeepsDelivered(Defaults(limiterWait))
  {
    DefaultsExceedLease(limiterWait);
    hide HoldBound, OwnsSingly, KeepsDelivered;
    ConfigurationDecides(Defaults(limiterWait));
  }
}
