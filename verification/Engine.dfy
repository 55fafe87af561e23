/** The whole delivery engine: the shared tables, a clock, any number of processes, and operator
    requests, interleaved step by step. */
module Engine {
  import opened Models
  import opened Recording
  import opened Table
  import opened Process
  import Breaker

  /** An UpdateEndpoint call between its read and its write. */
  datatype Snapshot = Snapshot(endpoint: Id, value: Endpoint)

  /** What the tables do not store: the process that claimed a row last, and per row the retries
      scheduled since its creation or manual retry and the delays they added up to. */
  datatype History = History(claimer: map<Id, Id>, retries: map<Id, nat>, waited: map<Id, nat>)

  datatype State = State(
    now: nat,
    rows: Rows,
    endpoints: map<Id, Endpoint>,
    procs: map<Id, Proc>,
    updates: map<Id, Snapshot>,
    nextId: Id,
    nextEndpoint: Id,
    nextProc: Id,
    history: History)

  datatype Event =
    | Local(i: Id, st: Step)
    | Start
    | Crash(i: Id)
    | Tick(d: nat)
    | Insert(targets: seq<(Id, Id)>)
    | ManualRetry(id: Id)
    | CreateEndpoint(app: Id, recipient: string, rateLimit: int)
    | DeleteEndpoint(e: Id)
    | ReadEndpoint(op: Id, e: Id)
    | WriteEndpoint(op: Id, params: Breaker.UpdateParams)
    | DropUpdate(op: Id)

  /** A claim may skip rows that other claims have locked. */
  ghost predicate LocalEnabled(cfg: Config, s: State, i: Id, st: Step) {
    && i in s.procs
    && Enabled(cfg, s.procs[i], st, s.now)
    && (st.ByDispatcher? && st.d.ClaimBatch? ==> SomeClaim(s.rows, s.endpoints, s.now, cfg.batchSize, st.d.batch))
    && (st.ByWorker? && st.ws.RecordOk? ==> s.procs[i].workers[st.w].task.id in s.rows)
  }

  ghost predicate EventEnabled(cfg: Config, s: State, e: Event) {
    match e
    case Local(i, st) => LocalEnabled(cfg, s, i, st)
    case Crash(i) => i in s.procs
    case Insert(targets) => forall p <- targets :: p.1 in s.endpoints
    case CreateEndpoint(_, _, rateLimit) => 1 <= rateLimit <= 1000
    case ReadEndpoint(op, ep) => op !in s.updates && ep in s.endpoints
    case WriteEndpoint(op, params) => op in s.updates && Breaker.ApplyUpdate(s.updates[op].value, params).Updated?
    case DropUpdate(op) => op in s.updates
    case _ => true
  }

  /** The statement a process step sends to the attempts table. */
  function RowsAfter(cfg: Config, s: State, i: Id, st: Step): Rows
    requires i in s.procs && Enabled(cfg, s.procs[i], st, s.now)
  {
    var p := s.procs[i];
    match st
    case ByDispatcher(ClaimBatch(batch)) => MarkClaimed(s.rows, Ids(batch), s.now)
    case ByDispatcher(RevertOk) => RevertRows(s.rows, Ids(p.disp.failed), s.now)
    case ByWorker(w, RecordOk(chance)) =>
      RecordRow(s.rows, Decide(p.workers[w].task, p.workers[w].result, cfg.retry, s.now, chance), s.now)
    case _ => s.rows
  }

  function EndpointsAfter(cfg: Config, s: State, i: Id, st: Step): map<Id, Endpoint>
    requires i in s.procs && Enabled(cfg, s.procs[i], st, s.now)
  {
    match st
    case ByWorker(w, HealthDone(true)) =>
      var k := s.procs[i].workers[w];
      if k.task.endpoint in s.endpoints
      then s.endpoints[k.task.endpoint := Breaker.RecordResult(s.endpoints[k.task.endpoint], k.success, cfg.maxFailures).0]
      else s.endpoints
    case _ => s.endpoints
  }

  function Add(m: map<Id, nat>, id: Id, n: nat): map<Id, nat> {
    m[id := (if id in m then m[id] else 0) + n]
  }

  function HistoryAfter(cfg: Config, s: State, i: Id, st: Step): History
    requires i in s.procs && Enabled(cfg, s.procs[i], st, s.now)
  {
    var h := s.history;
    match st
    case ByDispatcher(ClaimBatch(batch)) => h.(claimer := h.claimer + map id | id in Ids(batch) :: i)
    case ByWorker(w, RecordOk(chance)) =>
      var k := s.procs[i].workers[w];
      if Decide(k.task, k.result, cfg.retry, s.now, chance).status.Pending?
      then h.(retries := Add(h.retries, k.task.id, 1), waited := Add(h.waited, k.task.id, Delay(k.task.number, cfg.retry, chance)))
      else h
    case _ => h
  }

  function Next(cfg: Config, s: State, e: Event): State
    requires EventEnabled(cfg, s, e)
  {
    match e
    case Local(i, st) =>
      s.(procs := s.procs[i := Apply(cfg, s.procs[i], st, s.now)],
         rows := RowsAfter(cfg, s, i, st),
         endpoints := EndpointsAfter(cfg, s, i, st),
         history := HistoryAfter(cfg, s, i, st))
    case Start => s.(procs := s.procs[s.nextProc := Started(cfg, s.now)], nextProc := s.nextProc + 1)
    case Crash(i) => s.(procs := s.procs - {i})
    case Tick(d) => s.(now := s.now + d)
    case Insert(targets) => s.(rows := InsertRows(s.rows, s.nextId, targets, s.now), nextId := s.nextId + |targets|)
    case ManualRetry(id) =>
      s.(rows := RetryRow(s.rows, id, s.now),
         history := if Retryable(s.rows, id)
                    then s.history.(retries := s.history.retries[id := 0], waited := s.history.waited[id := 0])
                    else s.history)
    case CreateEndpoint(app, recipient, rateLimit) =>
      s.(endpoints := s.endpoints[s.nextEndpoint := Endpoint(app, recipient, rateLimit, Active, 0)], nextEndpoint := s.nextEndpoint + 1)
    case DeleteEndpoint(ep) => s.(endpoints := s.endpoints - {ep}, rows := DropEndpointRows(s.rows, ep))
    case ReadEndpoint(op, ep) => s.(updates := s.updates[op := Snapshot(ep, s.endpoints[ep])])
    case WriteEndpoint(op, params) =>
      var u := s.updates[op];
      s.(updates := s.updates - {op},
         endpoints := if u.endpoint in s.endpoints
                      then s.endpoints[u.endpoint := Breaker.ApplyUpdate(u.value, params).endpoint]
                      else s.endpoints)
    case DropUpdate(op) => s.(updates := s.updates - {op})
  }

  function Initial(): State {
    State(0, map[], map[], map[], map[], 1, 1, 0, History(map[], map[], map[]))
  }

  // ---------- runs ----------

  ghost predicate Run(cfg: Config, states: seq<State>, events: seq<Event>) {
    && |states| == |events| + 1
    && forall k :: 0 <= k < |events| ==> EventEnabled(cfg, states[k], events[k]) && states[k + 1] == Next(cfg, states[k], events[k])
  }

  lemma RunStep(cfg: Config, states: seq<State>, events: seq<Event>, k: nat)
    requires Run(cfg, states, events) && k < |events|
    ensures |states| == |events| + 1 && EventEnabled(cfg, states[k], events[k]) && states[k + 1] == Next(cfg, states[k], events[k])
  {
  }

  lemma RunLength(cfg: Config, states: seq<State>, events: seq<Event>)
    requires Run(cfg, states, events)
    ensures |states| == |events| + 1
  {
  }

  // ---------- what holds in every reachable state, stale holders included ----------

  predicate InBudget(cfg: Config, number: int) {
    1 <= number <= cfg.AttemptBudget()
  }

  predicate RowsBase(cfg: Config, s: State) {
    forall id <- s.rows :: id < s.nextId && InBudget(cfg, s.rows[id].number) && s.rows[id].createdAt <= s.now
  }

  ghost predicate ProcsBase(cfg: Config, s: State) {
    forall i <- s.procs :: i < s.nextProc && Ok(cfg, s.procs[i])
  }

  ghost predicate TasksBase(cfg: Config, s: State) {
    forall i, t | i in s.procs && t in Tasks(s.procs[i]) :: t.id < s.nextId && InBudget(cfg, t.number)
  }

  predicate EndpointsBase(cfg: Config, s: State) {
    && (forall ep <- s.endpoints :: ep < s.nextEndpoint && Breaker.Sound(s.endpoints[ep], cfg.maxFailures))
    && (forall op <- s.updates :: s.updates[op].endpoint < s.nextEndpoint && Breaker.Sound(s.updates[op].value, cfg.maxFailures))
  }

  predicate HistoryBase(s: State) {
    && (forall id <- s.history.retries :: id < s.nextId)
    && (forall id <- s.history.waited :: id < s.nextId)
    && (forall id <- s.history.claimer :: id < s.nextId)
  }

  ghost predicate HoldsRow(p: Proc, id: Id) {
    exists t :: t in Tasks(p) && t.id == id
  }

  /** A processing row is held by the process that claimed it last, unless that process crashed or
      had a statement fail. */
  ghost predicate ClaimersBase(s: State) {
    forall id | id in s.rows && s.rows[id].status.Processing? ::
      && id in s.history.claimer && s.history.claimer[id] < s.nextProc
      && (s.history.claimer[id] in s.procs && s.procs[s.history.claimer[id]].ledger.faults == 0
          ==> HoldsRow(s.procs[s.history.claimer[id]], id))
  }

  ghost predicate Base(cfg: Config, s: State) {
    && RowsBase(cfg, s)
    && ProcsBase(cfg, s)
    && TasksBase(cfg, s)
    && EndpointsBase(cfg, s)
    && HistoryBase(s)
    && ClaimersBase(s)
  }

  lemma InitialBase(cfg: Config)
    ensures Base(cfg, Initial())
  {
  }

  /** The tasks of the stepping process afterwards: what it had, less what it dropped, plus what it claimed. */
  lemma TasksAfter(cfg: Config, s: State, i: Id, st: Step)
    requires LocalEnabled(cfg, s, i, st)
    ensures var p, p' := s.procs[i], Apply(cfg, s.procs[i], st, s.now);
            && (forall t :: Tasks(p')[t] + Dropped(cfg, p, st, s.now)[t] == Tasks(p)[t] + Gained(st)[t])
            && (forall t :: t in Tasks(p') ==> t in Tasks(p) || t in Gained(st))
  {
    hide Tasks, Gained, Dropped, Apply, Enabled;
    StepMovesTasks(cfg, s.procs[i], st, s.now);
    var p, p' := s.procs[i], Apply(cfg, s.procs[i], st, s.now);
    forall t | t in Tasks(p') ensures t in Tasks(p) || t in Gained(st) {
      assert Tasks(p')[t] + Dropped(cfg, p, st, s.now)[t] == Tasks(p)[t] + Gained(st)[t];
    }
  }

  /** Every statement a process sends leaves a row alone or rewrites it in one of three ways. */
  datatype RowChange = Same | Claimed | Reverted | Recorded

  function ChangeOf(cfg: Config, s: State, i: Id, st: Step, id: Id): RowChange
    requires i in s.procs && Enabled(cfg, s.procs[i], st, s.now)
  {
    match st
    case ByDispatcher(ClaimBatch(batch)) => if id in Ids(batch) then Claimed else Same
    case ByDispatcher(RevertOk) => if id in Ids(s.procs[i].disp.failed) then Reverted else Same
    case ByWorker(w, RecordOk(_)) => if id == s.procs[i].workers[w].task.id then Recorded else Same
    case _ => Same
  }

  lemma RowAfter(cfg: Config, s: State, i: Id, st: Step, id: Id)
    requires LocalEnabled(cfg, s, i, st)
    ensures id in RowsAfter(cfg, s, i, st) <==> id in s.rows
    ensures id in s.rows ==>
              var row := RowsAfter(cfg, s, i, st)[id];
              match ChangeOf(cfg, s, i, st, id)
              case Same => row == s.rows[id]
              case Claimed => row == Claim(s.rows[id], s.now)
              case Reverted => row == Revert(s.rows[id], s.now)
              case Recorded =>
                var k := s.procs[i].workers[st.w];
                row == Write(s.rows[id], Decide(k.task, k.result, cfg.retry, s.now, st.ws.chance), s.now)
  {
  }

  lemma RecordingIsHeld(cfg: Config, s: State, i: Id, st: Step)
    requires LocalEnabled(cfg, s, i, st) && st.ByWorker? && st.ws.RecordOk?
    ensures s.procs[i].workers[st.w].task in Tasks(s.procs[i])
  {
    WorkerTasksMember(s.procs[i].workers, s.procs[i].workers[st.w].task);
  }

  lemma OutcomeInBudget(cfg: Config, s: State, i: Id, st: Step)
    requires cfg.Valid() && TasksBase(cfg, s) && LocalEnabled(cfg, s, i, st) && st.ByWorker? && st.ws.RecordOk?
    ensures var k := s.procs[i].workers[st.w];
            k.Recording? && InBudget(cfg, Decide(k.task, k.result, cfg.retry, s.now, st.ws.chance).number)
  {
    RecordingIsHeld(cfg, s, i, st);
    hide Tasks, Decide, SomeClaim;
    var k := s.procs[i].workers[st.w];
    assert InBudget(cfg, k.task.number);
    DecideStaysInBudget(k.task, k.result, cfg.retry, s.now, st.ws.chance);
  }

  lemma LocalKeepsRowsBase(cfg: Config, s: State, i: Id, st: Step)
    requires cfg.Valid() && RowsBase(cfg, s) && TasksBase(cfg, s) && LocalEnabled(cfg, s, i, st)
    ensures forall id <- RowsAfter(cfg, s, i, st) ::
              id < s.nextId && InBudget(cfg, RowsAfter(cfg, s, i, st)[id].number) && RowsAfter(cfg, s, i, st)[id].createdAt <= s.now
  {
    if st.ByWorker? && st.ws.RecordOk? {
      OutcomeInBudget(cfg, s, i, st);
    }
    hide Tasks, Enabled, Decide, RowsAfter, MarkClaimed, RevertRows, RecordRow, SomeClaim;
    forall id | id in RowsAfter(cfg, s, i, st)
      ensures id < s.nextId && InBudget(cfg, RowsAfter(cfg, s, i, st)[id].number) && RowsAfter(cfg, s, i, st)[id].createdAt <= s.now
    {
      RowAfter(cfg, s, i, st, id);
    }
  }

  lemma GainedIsClaimed(cfg: Config, s: State, i: Id, st: Step, t: Task)
    requires LocalEnabled(cfg, s, i, st) && t in Gained(st)
    ensures st.ByDispatcher? && st.d.ClaimBatch? && t in st.d.batch
    ensures t.id in s.rows && t == TaskOf(t.id, s.rows[t.id], s.now) && Claimable(s.rows[t.id], s.endpoints, s.now)
    ensures ChangeOf(cfg, s, i, st, t.id).Claimed?
  {
  }

  lemma LocalKeepsTasksBase(cfg: Config, s: State, i: Id, st: Step)
    requires RowsBase(cfg, s) && TasksBase(cfg, s) && LocalEnabled(cfg, s, i, st)
    ensures TasksBase(cfg, Next(cfg, s, Local(i, st)))
  {
    hide Tasks, Gained, Apply, RowsAfter, EndpointsAfter, HistoryAfter;
    TasksAfter(cfg, s, i, st);
    var s' := Next(cfg, s, Local(i, st));
    forall j, t | j in s'.procs && t in Tasks(s'.procs[j]) ensures t.id < s'.nextId && InBudget(cfg, t.number) {
      if j == i && t in Gained(st) {
        GainedIsClaimed(cfg, s, i, st, t);
      }
    }
  }

  lemma LocalKeepsEndpointsBase(cfg: Config, s: State, i: Id, st: Step)
    requires cfg.Valid() && EndpointsBase(cfg, s) && LocalEnabled(cfg, s, i, st)
    ensures EndpointsBase(cfg, Next(cfg, s, Local(i, st)))
  {
    hide Apply, RowsAfter, HistoryAfter;
    if st.ByWorker? && st.ws == HealthDone(true) {
      var k := s.procs[i].workers[st.w];
      if k.task.endpoint in s.endpoints {
        Breaker.ResultKeepsSound(s.endpoints[k.task.endpoint], k.success, cfg.maxFailures);
      }
    }
  }

  /** A statement that ends a hold rewrites the row, or counts as a fault. */
  lemma DropSettlesRow(cfg: Config, s: State, i: Id, st: Step, t: Task)
    requires LocalEnabled(cfg, s, i, st) && t in Dropped(cfg, s.procs[i], st, s.now)
    ensures || ChangeOf(cfg, s, i, st, t.id).Reverted?
            || ChangeOf(cfg, s, i, st, t.id).Recorded?
            || 0 < Apply(cfg, s.procs[i], st, s.now).ledger.faults
  {
  }

  lemma FaultsGrow(cfg: Config, s: State, i: Id, st: Step)
    requires LocalEnabled(cfg, s, i, st)
    ensures s.procs[i].ledger.faults <= Apply(cfg, s.procs[i], st, s.now).ledger.faults
  {
    hide Apply, Enabled;
    StepWritesLedger(cfg, s.procs[i], st, s.now);
  }

  lemma RecordedIsNotProcessing(cfg: Config, s: State, i: Id, st: Step, id: Id)
    requires LocalEnabled(cfg, s, i, st) && id in s.rows
    requires ChangeOf(cfg, s, i, st, id).Recorded? || ChangeOf(cfg, s, i, st, id).Reverted?
    ensures !RowsAfter(cfg, s, i, st)[id].status.Processing?
  {
  }

  lemma ClaimersAfter(cfg: Config, s: State, i: Id, st: Step, id: Id)
    requires LocalEnabled(cfg, s, i, st)
    ensures var h := HistoryAfter(cfg, s, i, st).claimer;
            if ChangeOf(cfg, s, i, st, id).Claimed? then id in h && h[id] == i
            else (id in h <==> id in s.history.claimer) && (id in h ==> h[id] == s.history.claimer[id])
  {
  }

  lemma KeptOrDropped(cfg: Config, s: State, i: Id, st: Step, t: Task)
    requires LocalEnabled(cfg, s, i, st) && (t in Tasks(s.procs[i]) || t in Gained(st))
    ensures t in Tasks(Apply(cfg, s.procs[i], st, s.now)) || t in Dropped(cfg, s.procs[i], st, s.now)
  {
    hide Tasks, Gained, Dropped, Apply, Enabled;
    TasksAfter(cfg, s, i, st);
    assert Tasks(Apply(cfg, s.procs[i], st, s.now))[t] + Dropped(cfg, s.procs[i], st, s.now)[t] == Tasks(s.procs[i])[t] + Gained(st)[t];
  }

  /** The claimer of a row that is processing after its own step still holds it. */
  lemma LocalKeepsHold(cfg: Config, s: State, i: Id, st: Step, id: Id)
    requires ClaimersBase(s) && LocalEnabled(cfg, s, i, st)
    requires id in s.rows && RowsAfter(cfg, s, i, st)[id].status.Processing?
    requires ChangeOf(cfg, s, i, st, id).Claimed? || (s.rows[id].status.Processing? && s.history.claimer[id] == i)
    requires Apply(cfg, s.procs[i], st, s.now).ledger.faults == 0
    ensures HoldsRow(Apply(cfg, s.procs[i], st, s.now), id)
  {
    FaultsGrow(cfg, s, i, st);
    hide Tasks, Apply, Enabled, SomeClaim;
    var t: Task;
    if ChangeOf(cfg, s, i, st, id).Claimed? {
      ClaimedIsGained(cfg, s, i, st, id);
      t :| t in Gained(st) && t.id == id;
    } else {
      t :| t in Tasks(s.procs[i]) && t.id == id;
    }
    KeptOrDropped(cfg, s, i, st, t);
    if t in Dropped(cfg, s.procs[i], st, s.now) {
      DropSettlesRow(cfg, s, i, st, t);
      RecordedIsNotProcessing(cfg, s, i, st, id);
    }
  }

  lemma LocalKeepsClaimer(cfg: Config, s: State, i: Id, st: Step, id: Id)
    requires ProcsBase(cfg, s) && ClaimersBase(s) && LocalEnabled(cfg, s, i, st)
    requires id in s.rows && RowsAfter(cfg, s, i, st)[id].status.Processing?
    ensures var s' := Next(cfg, s, Local(i, st));
            && id in s'.history.claimer && s'.history.claimer[id] < s'.nextProc
            && (s'.history.claimer[id] in s'.procs && s'.procs[s'.history.claimer[id]].ledger.faults == 0
                ==> HoldsRow(s'.procs[s'.history.claimer[id]], id))
  {
    RowAfter(cfg, s, i, st, id);
    ClaimersAfter(cfg, s, i, st, id);
    if ChangeOf(cfg, s, i, st, id).Recorded? || ChangeOf(cfg, s, i, st, id).Reverted? {
      RecordedIsNotProcessing(cfg, s, i, st, id);
    }
    hide Tasks, Apply, Enabled, SomeClaim, RowsAfter, HistoryAfter, EndpointsAfter, ChangeOf, HoldsRow, Ok;
    var p' := Apply(cfg, s.procs[i], st, s.now);
    if p'.ledger.faults == 0 && (ChangeOf(cfg, s, i, st, id).Claimed? || s.history.claimer[id] == i) {
      LocalKeepsHold(cfg, s, i, st, id);
    }
  }

  lemma LocalKeepsClaimersBase(cfg: Config, s: State, i: Id, st: Step)
    requires ProcsBase(cfg, s) && ClaimersBase(s) && LocalEnabled(cfg, s, i, st)
    ensures ClaimersBase(Next(cfg, s, Local(i, st)))
  {
    hide Tasks, Apply, Enabled, SomeClaim, RowsAfter, HistoryAfter, EndpointsAfter, ChangeOf, HoldsRow, Ok;
    var s' := Next(cfg, s, Local(i, st));
    forall id | id in s'.rows && s'.rows[id].status.Processing?
      ensures && id in s'.history.claimer && s'.history.claimer[id] < s'.nextProc
              && (s'.history.claimer[id] in s'.procs && s'.procs[s'.history.claimer[id]].ledger.faults == 0
                  ==> HoldsRow(s'.procs[s'.history.claimer[id]], id))
    {
      RowAfter(cfg, s, i, st, id);
      LocalKeepsClaimer(cfg, s, i, st, id);
    }
  }

  lemma ClaimHistoryBase(cfg: Config, s: State, i: Id, batch: seq<Task>)
    requires RowsBase(cfg, s) && HistoryBase(s) && SomeClaim(s.rows, s.endpoints, s.now, cfg.batchSize, batch)
    ensures forall id :: id in s.history.claimer || id in Ids(batch) ==> id < s.nextId
  {
  }

  lemma LocalKeepsHistoryBase(cfg: Config, s: State, i: Id, st: Step)
    requires RowsBase(cfg, s) && TasksBase(cfg, s) && HistoryBase(s) && LocalEnabled(cfg, s, i, st)
    ensures HistoryBase(Next(cfg, s, Local(i, st)))
  {
    hide Tasks, Apply, RowsAfter, EndpointsAfter, Decide, Delay, SomeClaim, Ids;
    if st.ByWorker? && st.ws.RecordOk? {
      RecordingIsHeld(cfg, s, i, st);
    } else if st.ByDispatcher? && st.d.ClaimBatch? {
      ClaimHistoryBase(cfg, s, i, st.d.batch);
    }
  }

  lemma LocalKeepsProcsBase(cfg: Config, s: State, i: Id, st: Step)
    requires ProcsBase(cfg, s) && LocalEnabled(cfg, s, i, st)
    ensures ProcsBase(cfg, Next(cfg, s, Local(i, st)))
  {
    hide Ok, Apply, RowsAfter, EndpointsAfter, HistoryAfter;
    StepKeepsOk(cfg, s.procs[i], st, s.now);
  }

  lemma LocalKeepsBase(cfg: Config, s: State, i: Id, st: Step)
    requires cfg.Valid() && Base(cfg, s) && LocalEnabled(cfg, s, i, st)
    ensures Base(cfg, Next(cfg, s, Local(i, st)))
  {
    LocalKeepsRowsBase(cfg, s, i, st);
    LocalKeepsProcsBase(cfg, s, i, st);
    LocalKeepsTasksBase(cfg, s, i, st);
    LocalKeepsEndpointsBase(cfg, s, i, st);
    LocalKeepsHistoryBase(cfg, s, i, st);
    LocalKeepsClaimersBase(cfg, s, i, st);
    hide LocalEnabled, ProcsBase, TasksBase, EndpointsBase, HistoryBase, ClaimersBase, InBudget, RowsAfter;
  }

  lemma InsertKeepsBase(cfg: Config, s: State, targets: seq<(Id, Id)>)
    requires cfg.Valid() && Base(cfg, s) && EventEnabled(cfg, s, Insert(targets))
    ensures Base(cfg, Next(cfg, s, Insert(targets)))
  {
    hide Tasks, HoldsRow, Ok;
    InsertedRows(s.rows, s.nextId, targets, s.now);
    var s' := Next(cfg, s, Insert(targets));
    forall id | id in s'.rows && id !in s.rows
      ensures s'.rows[id].number == 1 && s'.rows[id].status.Pending? && s'.rows[id].createdAt == s.now
    {
      assert s'.rows[s.nextId + (id - s.nextId)] == NewAttempt(targets[id - s.nextId].0, targets[id - s.nextId].1, s.now);
    }
  }

  lemma ProcessEventKeepsBase(cfg: Config, s: State, e: Event)
    requires cfg.Valid() && Base(cfg, s) && EventEnabled(cfg, s, e) && (e.Start? || e.Crash?)
    ensures Base(cfg, Next(cfg, s, e))
  {
    hide Tasks, HoldsRow, Ok, InBudget, LocalEnabled, Breaker.Sound;
    StartedOk(cfg, s.now);
  }

  lemma EndpointEventKeepsBase(cfg: Config, s: State, e: Event)
    requires cfg.Valid() && Base(cfg, s) && EventEnabled(cfg, s, e)
    requires e.CreateEndpoint? || e.ReadEndpoint? || e.WriteEndpoint? || e.DropUpdate?
    ensures Base(cfg, Next(cfg, s, e))
  {
    hide Tasks, HoldsRow, Ok, InBudget, LocalEnabled, Breaker.ApplyUpdate, Breaker.Sound;
    if e.WriteEndpoint? {
      Breaker.UpdateKeepsSound(s.updates[e.op].value, e.params, cfg.maxFailures);
    }
    if e.CreateEndpoint? {
      Breaker.NewIsSound(e.app, e.recipient, e.rateLimit, cfg.maxFailures);
    }
  }

  lemma OperatorKeepsBase(cfg: Config, s: State, e: Event)
    requires cfg.Valid() && Base(cfg, s) && EventEnabled(cfg, s, e) && !e.Local?
    ensures Base(cfg, Next(cfg, s, e))
  {
    hide Tasks, HoldsRow, Ok, LocalEnabled, Breaker.Sound;
    if e.Start? || e.Crash? {
      ProcessEventKeepsBase(cfg, s, e);
    } else if e.Insert? {
      InsertKeepsBase(cfg, s, e.targets);
    } else if !(e.Tick? || e.ManualRetry? || e.DeleteEndpoint?) {
      EndpointEventKeepsBase(cfg, s, e);
    }
  }

  lemma EventKeepsBase(cfg: Config, s: State, e: Event)
    requires cfg.Valid() && Base(cfg, s) && EventEnabled(cfg, s, e)
    ensures Base(cfg, Next(cfg, s, e))
  {
    hide Base, Next;
    if e.Local? {
      LocalKeepsBase(cfg, s, e.i, e.st);
    } else {
      OperatorKeepsBase(cfg, s, e);
    }
  }

  lemma ClaimedIsGained(cfg: Config, s: State, i: Id, st: Step, id: Id)
    requires LocalEnabled(cfg, s, i, st) && ChangeOf(cfg, s, i, st, id).Claimed?
    ensures exists t :: t in Gained(st) && t.id == id
  {
    var t :| t in st.d.batch && t.id == id;
    assert t in Gained(st);
  }
}
