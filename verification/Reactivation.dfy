/** What turns a tripped endpoint on again. UpdateEndpoint reads a row and later writes all of it back,
    so an update can undo a trip it never saw. */
module Reactivation {
  import opened Models
  import opened Recording
  import opened Table
  import opened Process
  import opened Engine
  import opened Ownership
  import opened Reachability
  import opened Traffic
  import opened Breaker
  import EndpointService

  // ---------- exactly when a write turns an endpoint on ----------

  /** The event ends the update. */
  predicate Ends(e: Event, op: Id) {
    (e.WriteEndpoint? || e.DropUpdate?) && e.op == op
  }

  lemma UpdateStays(cfg: Config, s: State, e: Event, op: Id)
    requires EventEnabled(cfg, s, e) && op in s.updates && !Ends(e, op)
    ensures op in Next(cfg, s, e).updates && Next(cfg, s, e).updates[op] == s.updates[op]
  {
    hide LocalEnabled, Apply, RowsAfter, EndpointsAfter, HistoryAfter;
  }

  lemma ReadIsKept(cfg: Config, s: State, op: Id, ep: Id)
    requires EventEnabled(cfg, s, ReadEndpoint(op, ep))
    ensures ep in s.endpoints && op in Next(cfg, s, ReadEndpoint(op, ep)).updates
    ensures Next(cfg, s, ReadEndpoint(op, ep)).updates[op] == Snapshot(ep, s.endpoints[ep])
  {
  }

  /** An update in flight keeps what it read. */
  lemma {:induction false} SnapshotStays(cfg: Config, states: seq<State>, events: seq<Event>, r: nat, k: nat, op: Id, ep: Id)
    requires Run(cfg, states, events) && r < k < |states| && events[r] == ReadEndpoint(op, ep)
    requires forall m :: r < m < k ==> !Ends(events[m], op)
    ensures ep in states[r].endpoints && op in states[k].updates && states[k].updates[op] == Snapshot(ep, states[r].endpoints[ep])
    decreases k - r
  {
    hide Run, EventEnabled, Next, Ends;
    RunLength(cfg, states, events);
    RunStep(cfg, states, events, k - 1);
    RunStep(cfg, states, events, r);
    ReadIsKept(cfg, states[r], op, ep);
    if r + 1 < k {
      SnapshotStays(cfg, states, events, r, k - 1, op, ep);
      UpdateStays(cfg, states[k - 1], events[k - 1], op);
    }
  }

  /** An update turns an inactive endpoint on exactly when it asks for it, or says nothing about the
      status and the endpoint was active when it was read. */
  lemma WhenUpdateReactivates(cfg: Config, states: seq<State>, events: seq<Event>, r: nat, k: nat, op: Id, ep: Id, params: UpdateParams)
    requires Run(cfg, states, events) && r < k < |events|
    requires events[r] == ReadEndpoint(op, ep) && events[k] == WriteEndpoint(op, params)
    requires forall m :: r < m < k ==> !Ends(events[m], op)
    requires ep in states[k].endpoints && states[k].endpoints[ep].status.Inactive?
    ensures ep in states[r].endpoints && ep in states[k + 1].endpoints
    ensures states[k + 1].endpoints[ep].status.Active?
            <==> params.status == Some("active") || (params.status.None? && states[r].endpoints[ep].status.Active?)
  {
    SnapshotStays(cfg, states, events, r, k, op, ep);
    assert EventEnabled(cfg, states[k], events[k]) && states[k + 1] == Next(cfg, states[k], events[k]);
    hide Run, ApplyUpdate;
    EndpointService.WhatReactivates(states[k].updates[op].value, params);
  }

  /** Every column an update does not name is written back as it was read, over whatever deliveries and
      other operators did since. */
  lemma UpdateWritesWhatItRead(cfg: Config, states: seq<State>, events: seq<Event>, r: nat, k: nat, op: Id, ep: Id, params: UpdateParams)
    requires Run(cfg, states, events) && r < k < |events|
    requires events[r] == ReadEndpoint(op, ep) && events[k] == WriteEndpoint(op, params)
    requires forall m :: r < m < k ==> !Ends(events[m], op)
    requires ep in states[k].endpoints
    ensures ep in states[r].endpoints && ep in states[k + 1].endpoints
    ensures var was, e := states[r].endpoints[ep], states[k + 1].endpoints[ep];
            && e.app == was.app
            && e.recipient == (if params.recipient.Some? then params.recipient.value else was.recipient)
            && e.rateLimit == (if params.rateLimit.Some? then params.rateLimit.value else was.rateLimit)
            && e.failures == (if params.status == Some("active") then 0 else was.failures)
            && (e.status == Active <==> params.status == Some("active") || (params.status.None? && was.status == Active))
  {
    SnapshotStays(cfg, states, events, r, k, op, ep);
    assert EventEnabled(cfg, states[k], events[k]) && states[k + 1] == Next(cfg, states[k], events[k]);
    hide Run;
    assert "active"[0] != "inactive"[0];
  }

  // ---------- an endpoint stays off unless someone asks ----------

  /** Every update of the endpoint in flight has read it inactive. */
  predicate OffForAll(s: State, ep: Id) {
    && Off(s, ep) && ep < s.nextEndpoint
    && forall op <- s.updates :: s.updates[op].endpoint == ep ==> s.updates[op].value.status.Inactive?
  }

  predicate AsksFor(s: State, e: Event, ep: Id) {
    OperatorWrites(s, e, ep) && e.params.status == Some("active")
  }

  lemma EventKeepsOff(cfg: Config, s: State, e: Event, ep: Id)
    requires EventEnabled(cfg, s, e) && OffForAll(s, ep) && !AsksFor(s, e, ep)
    ensures OffForAll(Next(cfg, s, e), ep)
  {
    if OperatorWrites(s, e, ep) {
      EndpointService.WhatReactivates(s.updates[e.op].value, e.params);
    } else {
      OffStaysOff(cfg, s, e, ep);
    }
    hide LocalEnabled, Apply, RowsAfter, EndpointsAfter, HistoryAfter, ApplyUpdate;
  }

  /** Once an endpoint is off and no update still holds an older read of it, it stays off until an
      operator asks for "active". */
  lemma {:induction false} OffUntilAsked(cfg: Config, states: seq<State>, events: seq<Event>, r: nat, k: nat, ep: Id)
    requires Run(cfg, states, events) && r <= k < |states| && OffForAll(states[r], ep)
    requires forall m :: r <= m < k ==> !AsksFor(states[m], events[m], ep)
    ensures OffForAll(states[k], ep)
    decreases k - r
  {
    hide Run, EventEnabled, Next, OffForAll, AsksFor;
    if r < k {
      RunLength(cfg, states, events);
      RunStep(cfg, states, events, k - 1);
      OffUntilAsked(cfg, states, events, r, k - 1, ep);
      EventKeepsOff(cfg, states[k - 1], events[k - 1], ep);
    }
  }

  // ---------- a trip undone ----------

  /** One idle process; endpoint 1 has failed `failures` times in a row since update 0 read it. */
  ghost predicate Station(cfg: Config, s: State, failures: nat) {
    && s.procs.Keys == {0} && Calm(s.procs[0]) && s.procs[0].disp.Waiting? && s.procs[0].queue == []
    && |s.procs[0].workers| == |s.procs[0].turns| == cfg.workers
    && (forall w :: 0 <= w < cfg.workers ==> s.procs[0].workers[w].Free?)
    && 1 in s.endpoints && s.endpoints[1].failures == failures
    && (s.endpoints[1].status.Active? <==> failures < cfg.maxFailures)
    && 0 in s.updates && s.updates[0].endpoint == 1 && s.updates[0].value.status.Active? && s.updates[0].value.failures == 0
    && (forall id <- s.rows :: id < s.nextId && s.rows[id].status.Failed?)
  }

  const SILENT: UpdateParams := UpdateParams(None, None, None)

  lemma OpenStation(cfg: Config) returns (s: State)
    requires cfg.Valid()
    ensures Unattended(cfg, s) && Station(cfg, s, 0)
  {
    InitialReachable(cfg);
    s := Go(cfg, Initial(), CreateEndpoint(0, "", 10));
    s := Go(cfg, s, ReadEndpoint(0, 1));
    s := Go(cfg, s, Start);
    hide Unattended;
  }

  /** Time for the next poll. */
  lemma AwaitTick(cfg: Config, s: State, failures: nat) returns (s': State)
    requires cfg.Valid() && Unattended(cfg, s) && Station(cfg, s, failures)
    ensures Unattended(cfg, s') && Station(cfg, s', failures) && DispatcherEnabled(cfg, s'.procs[0], BeginPoll, s'.now)
  {
    s' := s;
    if !s.procs[0].disp.full && s.now < s.procs[0].tick {
      s' := Go(cfg, s, Tick(s.procs[0].tick - s.now));
      hide Unattended;
    }
  }

  lemma OneRow(cfg: Config, s: State, failures: nat) returns (s': State, id: Id)
    requires cfg.Valid() && Unattended(cfg, s) && Station(cfg, s, failures) && failures < cfg.maxFailures
    ensures Unattended(cfg, s') && s'.procs == s.procs && s'.now == s.now && s'.endpoints == s.endpoints && s'.updates == s.updates
    ensures id == s.nextId && s'.nextId == id + 1 && s'.rows == s.rows[id := NewAttempt(0, 1, s.now)]
    ensures Eligible(s'.rows, s'.endpoints, s'.now) == {id}
  {
    id := s.nextId;
    s' := Go(cfg, s, Insert([(0, 1)]));
    assert InsertRows(s.rows, id, [(0, 1)], s.now) == s.rows[id := NewAttempt(0, 1, s.now)];
    hide Unattended;
  }

  /** The worker's delivery is refused for good. */
  lemma RefuseIt(cfg: Config, s: State, id: Id, endpoint: Id) returns (s': State)
    requires cfg.Valid() && Unattended(cfg, s) && s.procs.Keys == {0} && Calm(s.procs[0]) && id in s.rows && endpoint in s.endpoints
    requires |s.procs[0].workers| == |s.procs[0].turns| == cfg.workers && s.procs[0].workers[0].Free?
    requires |s.procs[0].queue| == 1 && s.procs[0].queue[0].task.id == id && s.procs[0].queue[0].task.endpoint == endpoint
    ensures Unattended(cfg, s') && s' == s.(procs := s'.procs, rows := s'.rows, endpoints := s'.endpoints, history := s'.history)
    ensures s'.procs.Keys == {0} && Calm(s'.procs[0]) && s'.procs[0].disp == s.procs[0].disp && s'.procs[0].queue == []
    ensures |s'.procs[0].turns| == cfg.workers && s'.procs[0].workers == s.procs[0].workers[0 := Free]
    ensures s'.rows.Keys == s.rows.Keys && s'.rows[id].status.Failed? && forall x <- s.rows :: x != id ==> s'.rows[x] == s.rows[x]
    ensures s'.endpoints == s.endpoints[endpoint := RecordResult(s.endpoints[endpoint], false, cfg.maxFailures).0]
  {
    hide Unattended, RecordResult;
    var s1 := WorkerActs(cfg, s, 0, 0, Dequeue);
    var s2 := WorkerActs(cfg, s1, 0, 0, LimitPass);
    var s3 := WorkerActs(cfg, s2, 0, 0, Return(DeliveryResult(false, Some(400))));
    var s4 := WorkerRecords(cfg, s3, 0, 0);
    s' := WorkerReports(cfg, s4, 0, 0);
  }

  lemma FailOnce(cfg: Config, s: State, failures: nat) returns (s': State)
    requires cfg.Valid() && Unattended(cfg, s) && Station(cfg, s, failures) && failures < cfg.maxFailures
    ensures Unattended(cfg, s') && Station(cfg, s', failures + 1)
  {
    hide Unattended, Eligible;
    var s1 := AwaitTick(cfg, s, failures);
    var s2, id := OneRow(cfg, s1, failures);
    hide DispatcherEnabled;
    var s3 := PollOne(cfg, s2, 0, id);
    s' := RefuseIt(cfg, s3, id, 1);
  }

  lemma FailUntilTrip(cfg: Config, failures: nat) returns (s: State)
    requires cfg.Valid() && failures <= cfg.maxFailures
    ensures Unattended(cfg, s) && Station(cfg, s, failures)
  {
    hide Unattended, Station;
    if failures == 0 {
      s := OpenStation(cfg);
    } else {
      s := FailUntilTrip(cfg, failures - 1);
      s := FailOnce(cfg, s, failures - 1);
    }
  }

  predicate IsOff(s: State, ep: Id) {
    ep in s.endpoints && s.endpoints[ep].status.Inactive?
  }

  /** A worker records one more failed delivery, and that trips the breaker. */
  ghost predicate Trips(cfg: Config, s: State, e: Event, ep: Id) {
    && EventEnabled(cfg, s, e) && ep in s.endpoints && s.endpoints[ep].status.Active?
    && e.Local? && e.st.ByWorker? && e.st.ws == HealthDone(true)
    && s.procs[e.i].workers[e.st.w].task.endpoint == ep && !s.procs[e.i].workers[e.st.w].success
    && IsOff(Next(cfg, s, e), ep) && Next(cfg, s, e).endpoints[ep].failures >= cfg.maxFailures
  }

  lemma OnlyDeliveriesTrip(cfg: Config, s: State, e: Event, ep: Id)
    requires EventEnabled(cfg, s, e) && !IsOff(s, ep) && IsOff(Next(cfg, s, e), ep) && !e.WriteEndpoint?
    ensures Trips(cfg, s, e, ep)
  {
    hide Apply, RowsAfter, HistoryAfter, SomeClaim;
  }

  lemma TurnsOff(states: seq<State>, r: nat, n: nat, ep: Id) returns (k: nat)
    requires r < n < |states| && !IsOff(states[r], ep) && IsOff(states[n], ep)
    ensures r <= k < n && !IsOff(states[k], ep) && IsOff(states[k + 1], ep)
    decreases n - r
  {
    hide IsOff;
    k := r;
    if !IsOff(states[r + 1], ep) {
      k := TurnsOff(states, r + 1, n, ep);
    }
  }

  /** An update in flight was read at some moment of the run. */
  lemma {:induction false} WasRead(cfg: Config, states: seq<State>, events: seq<Event>, n: nat, op: Id) returns (r: nat)
    requires Run(cfg, states, events) && n < |states| && states[0] == Initial() && op in states[n].updates
    ensures var u := states[n].updates[op];
            && r < n && r < |events| && events[r] == ReadEndpoint(op, u.endpoint)
            && u.endpoint in states[r].endpoints && states[r].endpoints[u.endpoint] == u.value
  {
    RunLength(cfg, states, events);
    if n > 0 {
      RunStep(cfg, states, events, n - 1);
      hide Run, LocalEnabled, Apply, RowsAfter, EndpointsAfter, HistoryAfter, ApplyUpdate;
      if op in states[n - 1].updates {
        r := WasRead(cfg, states, events, n - 1, op);
      } else {
        r := n - 1;
      }
    }
  }

  /** A timed run in which update `op` reads the endpoint active and without failures; then deliveries
      fail until one of them trips it; then the update, silent about the status, is written. No other
      operator writes anything. */
  ghost predicate UndoesTrip(cfg: Config, states: seq<State>, events: seq<Event>, r: nat, k: nat, op: Id, ep: Id) {
    && TimedRun(cfg, states, events) && |states| == |events| + 1 && states[0] == Initial()
    && r < k < |events| - 1
    && events[r] == ReadEndpoint(op, ep) && ep in states[r].endpoints
    && states[r].endpoints[ep].status.Active? && states[r].endpoints[ep].failures == 0
    && Trips(cfg, states[k], events[k], ep)
    && IsOff(states[|events| - 1], ep) && states[|events| - 1].endpoints[ep].failures == cfg.maxFailures
    && NoWrites(events[..|events| - 1]) && events[|events| - 1] == WriteEndpoint(op, SILENT)
    && ep in states[|events|].endpoints && states[|events|].endpoints[ep].status.Active?
  }

  /** The silent write, at the end of a run that has led to the trip. */
  lemma WriteAtEnd(cfg: Config, states: seq<State>, events: seq<Event>, s: State) returns (states': seq<State>, events': seq<Event>)
    requires cfg.Valid() && EndsIn(cfg, states, events, s) && Station(cfg, s, cfg.maxFailures)
    ensures |states'| == |states| + 1 && |events'| == |events| + 1 && |states| == |events| + 1
    ensures events'[..|events|] == events && states'[..|states|] == states && TimedRun(cfg, states', events')
    ensures events'[|events|] == WriteEndpoint(0, SILENT)
    ensures 1 in states'[|states|].endpoints && states'[|states|].endpoints[1].status.Active?
  {
    hide Run, TimedRun;
    var e := WriteEndpoint(0, SILENT);
    assert EventEnabled(cfg, s, e);
    Longer(cfg, states, events, e, Next(cfg, s, e));
    states', events' := states + [Next(cfg, s, e)], events + [e];
  }

  /** The read and the trip in a run that has led to the trip. */
  lemma ReadAndTrip(cfg: Config, states: seq<State>, events: seq<Event>, s: State) returns (r: nat, k: nat)
    requires cfg.Valid() && EndsIn(cfg, states, events, s) && NoWrites(events) && Station(cfg, s, cfg.maxFailures)
    ensures r < k < |events| < |states| && events[r] == ReadEndpoint(0, 1) && 1 in states[r].endpoints
    ensures states[r].endpoints[1].status.Active? && states[r].endpoints[1].failures == 0
    ensures Trips(cfg, states[k], events[k], 1)
  {
    r := WasRead(cfg, states, events, |events|, 0);
    k := TurnsOff(states, r, |events|, 1);
    RunStep(cfg, states, events, k);
    hide Next, EventEnabled, TimedRun, Run;
    OnlyDeliveriesTrip(cfg, states[k], events[k], 1);
  }

  /** With any settings, an operator who changes nothing about the status can undo a trip. */
  lemma TripsAreUndone(cfg: Config)
    requires cfg.Valid()
    ensures exists states, events, r, k, op, ep :: UndoesTrip(cfg, states, events, r, k, op, ep)
  {
    var s := FailUntilTrip(cfg, cfg.maxFailures);
    var states, events :| EndsIn(cfg, states, events, s) && NoWrites(events);
    hide Run, TimedRun, Trips, Next, EventEnabled, Unattended, Initial, Calm;
    assert IsOff(s, 1) && s.endpoints[1].failures == cfg.maxFailures;
    hide IsOff, Station;
    var states', events' := WriteAtEnd(cfg, states, events, s);
    var r, k := ReadAndTrip(cfg, states, events, s);
    RunsAgree(states, events, states', events', r);
    RunsAgree(states, events, states', events', k);
    RunsAgree(states, events, states', events', 0);
    RunsAgree(states, events, states', events', |events|);
    assert UndoesTrip(cfg, states', events', r, k, 0, 1);
  }

  lemma RunsAgree(states: seq<State>, events: seq<Event>, states': seq<State>, events': seq<Event>, k: nat)
    requires |states| == |events| + 1 <= |states'| && |events| <= |events'| && k <= |events|
    requires events'[..|events|] == events && states'[..|states|] == states
    ensures states'[k] == states[k] && (k < |events| ==> events'[k] == events[k])
  {
    assert states'[k] == states'[..|states|][k];
    if k < |events| {
      assert events'[k] == events'[..|events|][k];
    }
  }
}
