/** Claim statements running side by side and beside everyone else: SELECT ... FOR UPDATE SKIP LOCKED
    followed by the UPDATE, one row at a time. (internal/repository/delivery_repo.go, FetchAndClaimPending) */
module Claims {
  import opened Models
  import opened Table

  /** A claim in progress. `now` is its NOW(), `endpoints` and `seen` are what its snapshot shows: the
      endpoints and the claimable rows. `todo` are the rows still to be visited, oldest first. */
  datatype Txn = Txn(now: nat, endpoints: map<Id, Endpoint>, seen: set<Id>, todo: seq<Id>, locked: set<Id>, skipped: set<Id>)

  datatype State = State(clock: nat, rows: Rows, endpoints: map<Id, Endpoint>, open: map<Id, Txn>, nextId: Id)

  /** `Write` is an outcome, a revert or a manual retry of one row, `Delete` a cascade. */
  datatype Event =
    | Tick(d: nat)
    | Begin(t: Id, order: seq<Id>)
    | Lock(t: Id)
    | Skip(t: Id)
    | Commit(t: Id)
    | Abort(t: Id)
    | Write(id: Id, row: Attempt)
    | Insert(row: Attempt)
    | Delete(ids: set<Id>)
    | ChangeEndpoints(endpoints: map<Id, Endpoint>)

  predicate Locked(s: State, id: Id) {
    exists t <- s.open :: id in s.open[t].locked
  }

  predicate OldestFirst(rows: Rows, order: seq<Id>) {
    forall a, b :: 0 <= a < b < |order| && order[a] in rows && order[b] in rows ==> rows[order[a]].createdAt <= rows[order[b]].createdAt
  }

  /** The row is free, and claimable as it is now. */
  predicate Takes(s: State, x: Txn, id: Id) {
    !Locked(s, id) && id in s.rows && Claimable(s.rows[id], x.endpoints, x.now)
  }

  /** A claim visits its rows until it has `limit` of them. Nobody else writes a locked row. */
  predicate Enabled(s: State, limit: nat, e: Event) {
    match e
    case Begin(t, order) =>
      && t !in s.open && IdSet(order) == Eligible(s.rows, s.endpoints, s.clock)
      && NoRepeats(order) && OldestFirst(s.rows, order)
    case Lock(t) => t in s.open && s.open[t].todo != [] && |s.open[t].locked| < limit && Takes(s, s.open[t], s.open[t].todo[0])
    case Skip(t) => t in s.open && s.open[t].todo != [] && |s.open[t].locked| < limit && !Takes(s, s.open[t], s.open[t].todo[0])
    case Commit(t) => t in s.open && (s.open[t].todo == [] || |s.open[t].locked| == limit)
    case Abort(t) => t in s.open
    case Write(id, row) => id in s.rows && !Locked(s, id) && row.createdAt == s.rows[id].createdAt
    case Delete(ids) => forall id <- ids :: !Locked(s, id)
    case _ => true
  }

  /** The claim goes on to its next row. */
  function Visited(x: Txn, takes: bool): Txn
    requires x.todo != []
  {
    if takes then x.(locked := x.locked + {x.todo[0]}, todo := x.todo[1..])
    else x.(skipped := x.skipped + {x.todo[0]}, todo := x.todo[1..])
  }

  function Next(s: State, e: Event): State {
    match e
    case Tick(d) => s.(clock := s.clock + d)
    case Begin(t, order) => s.(open := s.open[t := Txn(s.clock, s.endpoints, IdSet(order), order, {}, {})])
    case Lock(t) =>
      if t in s.open && s.open[t].todo != [] then s.(open := s.open[t := Visited(s.open[t], true)]) else s
    case Skip(t) =>
      if t in s.open && s.open[t].todo != [] then s.(open := s.open[t := Visited(s.open[t], false)]) else s
    case Commit(t) =>
      if t in s.open
      then s.(rows := MarkClaimed(s.rows, s.open[t].locked, s.open[t].now), open := s.open - {t})
      else s
    case Abort(t) => s.(open := s.open - {t})
    case Write(id, row) => s.(rows := s.rows[id := row])
    case Insert(row) => s.(rows := s.rows[s.nextId := row], nextId := s.nextId + 1)
    case Delete(ids) => s.(rows := s.rows - ids)
    case ChangeEndpoints(endpoints) => s.(endpoints := endpoints)
  }

  ghost predicate Run(limit: nat, states: seq<State>, events: seq<Event>) {
    && |states| == |events| + 1 && Fresh(states[0])
    && forall k :: 0 <= k < |events| ==> Enabled(states[k], limit, events[k]) && states[k + 1] == Next(states[k], events[k])
  }

  /** No claim is open. */
  predicate Fresh(s: State) {
    s.open == map[] && forall id <- s.rows :: id < s.nextId
  }

  // ---------- what every interleaving keeps ----------

  /** The rows a claim has locked are claimable and no younger than those it has yet to visit. */
  predicate TxnOk(s: State, limit: nat, x: Txn) {
    && |x.locked| <= limit && x.now <= s.clock
    && (forall id <- x.locked :: id in s.rows && Claimable(s.rows[id], x.endpoints, x.now))
    && NoRepeats(x.todo) && OldestFirst(s.rows, x.todo) && (forall id <- x.todo :: id < s.nextId && id !in x.locked)
    && (forall a, b :: a in x.locked && b in x.todo && b in s.rows ==> s.rows[a].createdAt <= s.rows[b].createdAt)
    && (forall id <- x.seen :: id in x.todo || id in x.locked || id in x.skipped)
  }

  predicate OpenDisjoint(s: State) {
    forall t, u, id :: t in s.open && u in s.open && id in s.open[t].locked && id in s.open[u].locked ==> t == u
  }

  predicate Invariant(s: State, limit: nat) {
    && (forall id <- s.rows :: id < s.nextId)
    && (forall t <- s.open :: TxnOk(s, limit, s.open[t]))
    && OpenDisjoint(s)
  }

  lemma TailOldestFirst(rows: Rows, order: seq<Id>)
    requires order != [] && OldestFirst(rows, order) && NoRepeats(order)
    ensures OldestFirst(rows, order[1..]) && NoRepeats(order[1..]) && order[0] !in order[1..]
    ensures forall id <- order[1..] :: id in order && (order[0] in rows && id in rows ==> rows[order[0]].createdAt <= rows[id].createdAt)
  {
  }

  /** A visit moves on to the next row. */
  lemma VisitedOk(s: State, limit: nat, x: Txn, takes: bool)
    requires TxnOk(s, limit, x) && x.todo != []
    requires takes ==> |x.locked| < limit && x.todo[0] in s.rows && Claimable(s.rows[x.todo[0]], x.endpoints, x.now)
    ensures TxnOk(s, limit, Visited(x, takes))
  {
    TailOldestFirst(s.rows, x.todo);
    assert x.todo == [x.todo[0]] + x.todo[1..];
    hide Claimable, OldestFirst, NoRepeats;
  }

  lemma VisitKeepsTxn(s: State, limit: nat, e: Event)
    requires Enabled(s, limit, e) && (e.Lock? || e.Skip?) && TxnOk(s, limit, s.open[e.t])
    ensures TxnOk(s, limit, Next(s, e).open[e.t])
  {
    hide Claimable, Locked, TxnOk;
    VisitedOk(s, limit, s.open[e.t], e.Lock?);
  }

  lemma BeginsOk(s: State, limit: nat, e: Event)
    requires Enabled(s, limit, e) && e.Begin? && forall id <- s.rows :: id < s.nextId
    ensures TxnOk(s, limit, Next(s, e).open[e.t])
  {
    hide Claimable;
    forall id | id in e.order ensures id < s.nextId {
      assert id in Eligible(s.rows, s.endpoints, s.clock);
    }
  }

  /** What an open claim relies on: its locked rows stay, no row changes its age, ids are not used again. */
  lemma TxnFrame(s: State, s': State, limit: nat, x: Txn)
    requires TxnOk(s, limit, x) && s.clock <= s'.clock && s.nextId <= s'.nextId
    requires forall id <- x.locked :: id in s'.rows && s'.rows[id] == s.rows[id]
    requires forall id <- s'.rows :: id < s.nextId ==> id in s.rows && s'.rows[id].createdAt == s.rows[id].createdAt
    ensures TxnOk(s', limit, x)
  {
    hide Claimable;
  }

  /** Another claim's commit, and what others write, leave the locked rows of a claim alone. */
  lemma OtherTxnStays(s: State, limit: nat, e: Event, t: Id)
    requires Invariant(s, limit) && Enabled(s, limit, e) && t in s.open && t in Next(s, e).open && Next(s, e).open[t] == s.open[t]
    ensures TxnOk(Next(s, e), limit, s.open[t])
  {
    hide Claimable, TxnOk;
    var s', x := Next(s, e), s.open[t];
    forall id | id in x.locked ensures id in s.rows && id in s'.rows && s'.rows[id] == s.rows[id] {
      LockedRowStays(s, limit, e, t, id);
    }
    TxnFrame(s, s', limit, x);
  }

  lemma LockedRowStays(s: State, limit: nat, e: Event, t: Id, id: Id)
    requires Invariant(s, limit) && Enabled(s, limit, e) && t in s.open && id in s.open[t].locked && e != Commit(t)
    ensures id in s.rows && id in Next(s, e).rows && Next(s, e).rows[id] == s.rows[id]
  {
    hide Claimable, OldestFirst, Visited;
    assert TxnOk(s, limit, s.open[t]) && Locked(s, id);
  }

  lemma EventKeepsDisjoint(s: State, limit: nat, e: Event)
    requires OpenDisjoint(s) && Enabled(s, limit, e)
    ensures OpenDisjoint(Next(s, e))
  {
    hide Claimable, OldestFirst;
  }

  lemma EventKeepsTxn(s: State, limit: nat, e: Event, t: Id)
    requires Invariant(s, limit) && Enabled(s, limit, e) && t in Next(s, e).open
    ensures TxnOk(Next(s, e), limit, Next(s, e).open[t])
  {
    hide TxnOk, OpenDisjoint, OldestFirst, Takes, Locked, Visited, Eligible, MarkClaimed;
    var s' := Next(s, e);
    if e.Begin? && e.t == t {
      BeginsOk(s, limit, e);
      TxnFrame(s, s', limit, s'.open[t]);
    } else if (e.Lock? || e.Skip?) && e.t == t {
      VisitKeepsTxn(s, limit, e);
      TxnSameRows(s, s', limit, s'.open[t]);
    } else {
      OtherTxnStays(s, limit, e, t);
    }
  }

  lemma EventKeeps(s: State, limit: nat, e: Event)
    requires Invariant(s, limit) && Enabled(s, limit, e)
    ensures Invariant(Next(s, e), limit)
  {
    EventKeepsDisjoint(s, limit, e);
    forall t | t in Next(s, e).open ensures TxnOk(Next(s, e), limit, Next(s, e).open[t]) {
      EventKeepsTxn(s, limit, e, t);
    }
    hide TxnOk, OpenDisjoint, OldestFirst, Takes, Locked, Visited, Eligible;
  }

  lemma TxnSameRows(s: State, s': State, limit: nat, x: Txn)
    requires TxnOk(s, limit, x) && s'.clock == s.clock && s'.nextId == s.nextId && s'.rows == s.rows
    ensures TxnOk(s', limit, x)
  {
  }

  lemma {:induction false} RunKeeps(limit: nat, states: seq<State>, events: seq<Event>, k: nat)
    requires Run(limit, states, events) && k < |states|
    ensures Invariant(states[k], limit)
  {
    if k > 0 {
      RunKeeps(limit, states, events, k - 1);
      hide Invariant, Next, Enabled;
      EventKeeps(states[k - 1], limit, events[k - 1]);
    }
  }

  // ---------- a claim is one claim ----------

  lemma OneMoreTask(rest: seq<Task>, task: Task)
    ensures Ids(rest + [task]) == Ids(rest) + {task.id}
    ensures DistinctIds(rest) && task.id !in Ids(rest) ==> DistinctIds(rest + [task])
  {
    assert (rest + [task])[|rest|] == task;
    forall t | t in rest ensures t in rest + [task] {
    }
    forall a | 0 <= a < |rest| ensures rest[a].id in Ids(rest) {
    }
  }

  /** The tasks for some rows. */
  lemma BatchFor(rows: Rows, ids: set<Id>, now: nat) returns (batch: seq<Task>)
    requires forall id <- ids :: id in rows
    ensures Ids(batch) == ids && DistinctIds(batch) && |batch| == |ids|
    ensures forall t <- batch :: t.id in ids && t == TaskOf(t.id, rows[t.id], now)
    decreases |ids|
  {
    hide Ids, DistinctIds;
    if ids == {} {
      batch := [];
      NoTasks();
    } else {
      var id :| id in ids;
      var rest := BatchFor(rows, ids - {id}, now);
      batch := rest + [TaskOf(id, rows[id], now)];
      OneMoreTask(rest, TaskOf(id, rows[id], now));
    }
  }

  lemma NoTasks()
    ensures Ids([]) == {} && DistinctIds([])
  {
  }

  /** The claimable rows that a claim passes over without having reached its limit before. */
  function PassedOver(s: State, x: Txn): set<Id> {
    set id | id in Eligible(s.rows, x.endpoints, x.now) && id !in x.locked && id !in x.todo
  }

  lemma LockedAreOldest(s: State, limit: nat, x: Txn, batch: seq<Task>)
    requires TxnOk(s, limit, x) && (x.todo == [] || |x.locked| == limit)
    requires Ids(batch) == x.locked && DistinctIds(batch) && |batch| == |x.locked|
    requires forall t <- batch :: t.id in x.locked && t == TaskOf(t.id, s.rows[t.id], x.now)
    ensures ClaimSkipping(s.rows, x.endpoints, x.now, limit, PassedOver(s, x), batch)
  {
    var candidates := Eligible(s.rows, x.endpoints, x.now) - PassedOver(s, x);
    hide Claimable;
    forall id | id in x.locked ensures id in candidates {
      assert id in s.rows && Claimable(s.rows[id], x.endpoints, x.now);
    }
    assert x.locked <= candidates;
    SubsetSize(x.locked, candidates);
    if x.todo == [] {
      assert candidates == x.locked;
    }
    assert forall id <- candidates :: id in x.locked || id in x.todo;
  }

  /** Event j explains why claim x passes over the row: x came to it while it was locked or not
      claimable, or x began before it was claimable. */
  predicate Explains(s: State, e: Event, t: Id, x: Txn, id: Id) {
    || (e == Skip(t) && t in s.open && s.open[t].todo != [] && s.open[t].todo[0] == id && !Takes(s, x, id))
    || (e.Begin? && e.t == t && s.endpoints == x.endpoints && s.clock == x.now && id !in Eligible(s.rows, x.endpoints, x.now))
  }

  lemma VisitExplains(s: State, limit: nat, e: Event, t: Id, id: Id)
    requires Enabled(s, limit, e) && t in Next(s, e).open
    requires var x' := Next(s, e).open[t]; id in x'.skipped || id !in x'.seen
    ensures var x' := Next(s, e).open[t];
            || Explains(s, e, t, x', id)
            || (t in s.open && s.open[t].now == x'.now && s.open[t].endpoints == x'.endpoints
                && (id in s.open[t].skipped || id !in s.open[t].seen))
  {
    hide Claimable, Locked, OldestFirst;
  }

  lemma {:induction false} SomethingExplains(limit: nat, states: seq<State>, events: seq<Event>, m: nat, t: Id, id: Id) returns (j: nat)
    requires Run(limit, states, events) && m < |states| && t in states[m].open
    requires id in states[m].open[t].skipped || id !in states[m].open[t].seen
    ensures j < m && j < |events| && Explains(states[j], events[j], t, states[m].open[t], id)
  {
    hide Next, Enabled, Explains;
    if m > 0 {
      assert Enabled(states[m - 1], limit, events[m - 1]) && states[m] == Next(states[m - 1], events[m - 1]);
      VisitExplains(states[m - 1], limit, events[m - 1], t, id);
      j := m - 1;
      if !Explains(states[j], events[j], t, states[m].open[t], id) {
        j := SomethingExplains(limit, states, events, m - 1, t, id);
        SameExplanation(states[j], events[j], t, states[m - 1].open[t], states[m].open[t], id);
      }
    }
  }

  lemma SameExplanation(s: State, e: Event, t: Id, x: Txn, x': Txn, id: Id)
    requires Explains(s, e, t, x, id) && x.now == x'.now && x.endpoints == x'.endpoints
    ensures Explains(s, e, t, x', id)
  {
  }

  /** However claims, outcomes, reverts, retries, deletions and endpoint updates interleave, a claim that
      commits has done what one claim of the rows as they are then does, by its own NOW() and with the
      endpoints of its snapshot: it has the oldest `limit` claimable rows but for those it passed over,
      and each of those was locked or not claimable when it came to them, or when it began. */
  lemma CommittedClaimIsAClaim(limit: nat, states: seq<State>, events: seq<Event>, m: nat, t: Id) returns (batch: seq<Task>)
    requires Run(limit, states, events) && m < |events| && events[m] == Commit(t)
    ensures m + 1 < |states| && t in states[m].open
    ensures var s, x := states[m], states[m].open[t];
            && ClaimSkipping(s.rows, x.endpoints, x.now, limit, PassedOver(s, x), batch)
            && SomeClaim(s.rows, x.endpoints, x.now, limit, batch)
            && states[m + 1].rows == MarkClaimed(s.rows, Ids(batch), x.now)
            && forall id <- PassedOver(s, x) :: exists j: nat :: j < m && Explains(states[j], events[j], t, x, id)
  {
    RunKeeps(limit, states, events, m);
    var s := states[m];
    assert Enabled(s, limit, events[m]);
    var x := s.open[t];
    assert TxnOk(s, limit, x);
    batch := BatchFor(s.rows, x.locked, x.now);
    LockedAreOldest(s, limit, x, batch);
    hide ClaimSkipping, Claimable, OldestFirst, Explains, Run;
    forall id | id in PassedOver(s, x) ensures exists j: nat :: j < m && Explains(states[j], events[j], t, x, id) {
      var j := SomethingExplains(limit, states, events, m, t, id);
    }
  }

  // ---------- no row goes to two claims ----------

  /** Someone else writes the row. */
  predicate Touches(e: Event, id: Id) {
    (e.Write? && e.id == id) || (e.Delete? && id in e.ids)
  }

  /** Since a claim with this NOW() committed, nobody has written the row but later claims, and every
      claim that has it locked now began more than a lease after. */
  predicate Held(s: State, id: Id, now: nat) {
    && id in s.rows && id < s.nextId && s.rows[id].status.Processing? && now <= s.rows[id].updatedAt
    && forall u <- s.open :: id in s.open[u].locked ==> now + LEASE < s.open[u].now
  }

  lemma CommitHolds(s: State, limit: nat, t: Id, id: Id)
    requires Invariant(s, limit) && Enabled(s, limit, Commit(t)) && id in s.open[t].locked
    ensures Held(Next(s, Commit(t)), id, s.open[t].now)
  {
    assert TxnOk(s, limit, s.open[t]);
    hide OldestFirst, Claimable;
  }

  lemma EventKeepsHeld(s: State, limit: nat, e: Event, id: Id, now: nat)
    requires Invariant(s, limit) && Enabled(s, limit, e) && Held(s, id, now) && !Touches(e, id)
    ensures Held(Next(s, e), id, now)
  {
    hide OldestFirst, TxnOk;
  }

  lemma RunStep(limit: nat, states: seq<State>, events: seq<Event>, k: nat)
    requires Run(limit, states, events) && k < |events|
    ensures |states| == |events| + 1 && Enabled(states[k], limit, events[k]) && states[k + 1] == Next(states[k], events[k])
  {
  }

  lemma RunLength(limit: nat, states: seq<State>, events: seq<Event>)
    requires Run(limit, states, events)
    ensures |states| == |events| + 1
  {
  }

  lemma {:induction false} StaysHeld(limit: nat, states: seq<State>, events: seq<Event>, m: nat, k: nat, t: Id, id: Id)
    requires Run(limit, states, events) && m < k < |states| && events[m] == Commit(t)
    requires t in states[m].open && id in states[m].open[t].locked
    requires forall j :: m < j < k ==> !Touches(events[j], id)
    ensures Held(states[k], id, states[m].open[t].now)
    decreases k - m
  {
    hide Run, Invariant, Next, Enabled, Held, Touches;
    RunLength(limit, states, events);
    RunKeeps(limit, states, events, k - 1);
    RunStep(limit, states, events, k - 1);
    if m + 1 == k {
      CommitHolds(states[m], limit, t, id);
    } else {
      StaysHeld(limit, states, events, m, k - 1, t, id);
      EventKeepsHeld(states[k - 1], limit, events[k - 1], id, states[m].open[t].now);
    }
  }

  /** A row that one claim returned goes to another only after somebody has written it in between, or
      when the second one's NOW() is more than a lease after the first one's. */
  lemma ConcurrentClaimsAreDisjoint(limit: nat, states: seq<State>, events: seq<Event>, m: nat, k: nat, t: Id, u: Id, id: Id)
    requires Run(limit, states, events) && m < k < |events| && events[m] == Commit(t) && events[k] == Commit(u)
    requires t in states[m].open && id in states[m].open[t].locked
    requires u in states[k].open && id in states[k].open[u].locked
    ensures (exists j :: m < j < k && Touches(events[j], id)) || states[m].open[t].now + LEASE < states[k].open[u].now
  {
    hide Run, Touches;
    if forall j :: m < j < k ==> !Touches(events[j], id) {
      RunLength(limit, states, events);
      StaysHeld(limit, states, events, m, k, t, id);
    }
  }
}
