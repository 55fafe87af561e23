/** internal/repository/delivery_repo.go: the attempts table and the statements that change it. */
module DeliveryRepository {
  import opened Models
  import opened Recording
  import opened Table
  import Replay

  // ---------- ORDER BY ----------

  lemma OldestExists(rows: Rows, ids: set<Id>)
    requires ids != {} && forall id <- ids :: id in rows
    ensures exists id :: id in ids && forall y <- ids :: rows[id].createdAt <= rows[y].createdAt
  {
    var x :| x in ids;
    if ids == {x} {
      assert forall y <- ids :: rows[x].createdAt <= rows[y].createdAt;
    } else {
      OldestExists(rows, ids - {x});
      var z :| z in ids - {x} && forall y <- ids - {x} :: rows[z].createdAt <= rows[y].createdAt;
      if rows[z].createdAt <= rows[x].createdAt {
        assert forall y <- ids :: rows[z].createdAt <= rows[y].createdAt;
      } else {
        assert forall y <- ids :: rows[x].createdAt <= rows[y].createdAt;
      }
    }
  }

  predicate SortedByNumber(tasks: seq<Task>) {
    forall a, b :: 0 <= a < b < |tasks| ==> tasks[a].number <= tasks[b].number
  }

  lemma SortedMeans(tasks: seq<Task>)
    requires SortedByNumber(tasks)
    ensures forall a, b :: 0 <= a < b < |tasks| ==> tasks[a].number <= tasks[b].number
  {
  }

  function InsertAt(tasks: seq<Task>, k: nat, t: Task): (r: seq<Task>)
    requires k <= |tasks|
    ensures |r| == |tasks| + 1
    ensures multiset(r) == multiset(tasks) + multiset{t}
  {
    assert tasks == tasks[..k] + tasks[k..];
    tasks[..k] + [t] + tasks[k..]
  }

  lemma InsertAtKeepsSorted(tasks: seq<Task>, k: nat, t: Task)
    requires k <= |tasks| && SortedByNumber(tasks)
    requires forall j :: 0 <= j < k ==> tasks[j].number <= t.number
    requires forall j :: k <= j < |tasks| ==> t.number < tasks[j].number
    ensures SortedByNumber(InsertAt(tasks, k, t))
  {
  }

  method InsertByNumber(tasks: seq<Task>, t: Task) returns (r: seq<Task>)
    requires SortedByNumber(tasks)
    ensures SortedByNumber(r) && multiset(r) == multiset(tasks) + multiset{t}
  {
    var k := |tasks|;
    while k > 0 && tasks[k - 1].number > t.number
      invariant 0 <= k <= |tasks|
      invariant forall j :: k <= j < |tasks| ==> t.number < tasks[j].number
    {
      k := k - 1;
    }
    InsertAtKeepsSorted(tasks, k, t);
    r := InsertAt(tasks, k, t);
  }

  /** ORDER BY attempt_number ASC. */
  method SortByNumber(tasks: seq<Task>) returns (r: seq<Task>)
    ensures SortedByNumber(r) && multiset(r) == multiset(tasks)
  {
    r := [];
    var k := 0;
    while k < |tasks|
      invariant 0 <= k <= |tasks|
      invariant SortedByNumber(r) && multiset(r) == multiset(tasks[..k])
    {
      r := InsertByNumber(r, tasks[k]);
      assert tasks[..k + 1] == tasks[..k] + [tasks[k]];
      k := k + 1;
    }
    assert tasks[..k] == tasks;
  }

  lemma SameIds(a: seq<Task>, b: seq<Task>)
    requires multiset(a) == multiset(b)
    ensures |a| == |b| && Ids(a) == Ids(b)
    ensures forall t :: t in a <==> t in b
  {
    assert |multiset(a)| == |a| && |multiset(b)| == |b|;
    forall t ensures t in a <==> t in b {
      assert t in a <==> t in multiset(a);
      assert t in b <==> t in multiset(b);
    }
  }

  lemma ReorderedAnswer(rows: Rows, endpoints: map<Id, Endpoint>, now: nat, limit: nat, a: seq<Task>, b: seq<Task>)
    requires ClaimAnswer(rows, endpoints, now, limit, a) && multiset(a) == multiset(b)
    ensures ClaimAnswer(rows, endpoints, now, limit, b) && Ids(a) == Ids(b)
  {
    SameIds(a, b);
    DistinctIdsByCount(a);
    DistinctIdsByCount(b);
  }

  lemma PickedIds(picked: seq<Id>, claimed: seq<Task>)
    requires |picked| == |claimed| && forall k :: 0 <= k < |picked| ==> claimed[k].id == picked[k]
    ensures Ids(claimed) == IdSet(picked)
    ensures forall t <- claimed :: t.id in picked
  {
    forall id | id in picked ensures id in Ids(claimed) {
      var k :| 0 <= k < |picked| && picked[k] == id;
      assert claimed[k] in claimed;
    }
  }

  /** The rows SelectClaimable picks are an answer of the claim query. */
  lemma PickedAnswer(rows: Rows, endpoints: map<Id, Endpoint>, now: nat, limit: nat, picked: seq<Id>, claimed: seq<Task>)
    requires |picked| == Min(limit, |Eligible(rows, endpoints, now)|)
    requires forall a, b :: 0 <= a < b < |picked| ==> picked[a] != picked[b]
    requires forall id <- picked :: id in Eligible(rows, endpoints, now)
    requires forall x, y :: x in picked && y in Eligible(rows, endpoints, now) && y !in picked
                            ==> rows[x].createdAt <= rows[y].createdAt
    requires |claimed| == |picked|
    requires forall k :: 0 <= k < |picked| ==> picked[k] in rows && claimed[k] == TaskOf(picked[k], rows[picked[k]], now)
    ensures ClaimAnswer(rows, endpoints, now, limit, claimed)
    ensures Ids(claimed) == IdSet(picked)
  {
    PickedIds(picked, claimed);
  }

  lemma NothingClaimed(rows: Rows, endpoints: map<Id, Endpoint>, now: nat)
    ensures ClaimAnswer(rows, endpoints, now, 0, []) && SortedByNumber([])
    ensures MarkClaimed(rows, Ids([]), now) == rows
  {
  }

  /** Due for delivery: the endpoint is active, and the attempt is new, or waits for a retry whose time
      has come, or was claimed more than five minutes ago by someone who never finished it. */
  predicate IsDue(rows: Rows, endpoints: map<Id, Endpoint>, now: nat, id: Id) {
    && id in rows && rows[id].endpoint in endpoints && endpoints[rows[id].endpoint].status == Active
    && match rows[id].status
       case Pending => rows[id].nextRetryAt.Some? ==> rows[id].nextRetryAt.value <= now
       case Processing => now > rows[id].updatedAt + 300 * SECOND
       case _ => false
  }

  /** The task carries what the row says, and the row is processing from now on, otherwise as it was. */
  predicate TakenOver(rows: Rows, after: Rows, t: Task, now: nat) {
    && t.id in rows && t.id in after
    && t.event == rows[t.id].event && t.endpoint == rows[t.id].endpoint && t.number == rows[t.id].number && t.claimedAt == now
    && var was, row := rows[t.id], after[t.id];
    && row == Attempt(was.event, was.endpoint, Processing, was.number, was.nextRetryAt, was.httpStatus, was.createdAt, now)
  }

  lemma AnswerIsDue(rows: Rows, endpoints: map<Id, Endpoint>, now: nat, limit: nat, batch: seq<Task>)
    requires ClaimAnswer(rows, endpoints, now, limit, batch)
    ensures forall t <- batch :: IsDue(rows, endpoints, now, t.id)
    ensures |batch| < limit ==> forall id :: IsDue(rows, endpoints, now, id) ==> exists t <- batch :: t.id == id
  {
    assert forall id :: id in Eligible(rows, endpoints, now) <==> IsDue(rows, endpoints, now, id);
    if |batch| < limit {
      DistinctIdsByCount(batch);
      SubsetSize(Ids(batch), Eligible(rows, endpoints, now));
    }
  }

  lemma AnswerTakesOver(rows: Rows, endpoints: map<Id, Endpoint>, now: nat, limit: nat, batch: seq<Task>)
    requires ClaimAnswer(rows, endpoints, now, limit, batch)
    ensures forall t <- batch :: TakenOver(rows, MarkClaimed(rows, Ids(batch), now), t, now)
  {
    hide DistinctIds;
  }

  datatype RetryAnswer = RetriedRow(row: Attempt) | DeliveryNotFound | InvalidRetryState(status: Status)

  class DeliveryRepository {
    var rows: Rows
    var nextId: Id

    ghost predicate Valid()
      reads this
    {
      forall id <- rows :: id < nextId
    }

    constructor ()
      ensures Valid() && rows == map[]
    {
      rows := map[];
      nextId := 0;
    }

    /** The rows a claim locks: the oldest `limit` of the eligible ones, in order of creation. */
    method SelectClaimable(limit: nat, endpoints: map<Id, Endpoint>, now: nat) returns (picked: seq<Id>)
      ensures var eligible := Eligible(rows, endpoints, now);
              && |picked| == Min(limit, |eligible|)
              && (forall a, b :: 0 <= a < b < |picked| ==> picked[a] != picked[b])
              && (forall id <- picked :: id in rows && id in eligible)
              && (forall x, y :: x in picked && y in eligible && y !in picked ==> rows[x].createdAt <= rows[y].createdAt)
    {
      var rest := Eligible(rows, endpoints, now);
      picked := [];
      while |picked| < limit && rest != {}
        invariant |picked| <= limit
        invariant |picked| + |rest| == |Eligible(rows, endpoints, now)|
        invariant forall id :: id in Eligible(rows, endpoints, now) <==> id in picked || id in rest
        invariant forall id <- picked :: id !in rest
        invariant forall a, b :: 0 <= a < b < |picked| ==> picked[a] != picked[b]
        invariant forall x, y :: x in picked && y in rest ==> rows[x].createdAt <= rows[y].createdAt
        decreases rest
      {
        OldestExists(rows, rest);
        var id :| id in rest && forall y <- rest :: rows[id].createdAt <= rows[y].createdAt;
        picked := picked + [id];
        rest := rest - {id};
      }
    }

    /** The UPDATE of the claim, row by row, with its RETURNING list. */
    method MarkPicked(picked: seq<Id>, now: nat) returns (claimed: seq<Task>)
      requires Valid() && forall id <- picked :: id in rows
      requires forall a, b :: 0 <= a < b < |picked| ==> picked[a] != picked[b]
      modifies this`rows
      ensures Valid() && |claimed| == |picked|
      ensures forall k :: 0 <= k < |picked| ==> claimed[k] == TaskOf(picked[k], old(rows)[picked[k]], now)
      ensures rows == MarkClaimed(old(rows), IdSet(picked), now)
    {
      claimed := [];
      var k := 0;
      while k < |picked|
        invariant 0 <= k <= |picked| && |claimed| == k
        invariant Valid()
        invariant forall j :: 0 <= j < k ==> claimed[j] == TaskOf(picked[j], old(rows)[picked[j]], now)
        invariant rows == MarkClaimed(old(rows), IdSet(picked[..k]), now)
      {
        var id := picked[k];
        assert id !in picked[..k];
        assert picked[..k + 1] == picked[..k] + [id];
        claimed := claimed + [TaskOf(id, rows[id], now)];
        rows := rows[id := Claim(rows[id], now)];
        k := k + 1;
      }
      assert picked[..k] == picked;
    }

    /** Claims run alone: exactly the oldest min(batchSize, eligible) rows become processing, and
        come back as tasks sorted by attempt number. A non-positive size claims nothing. */
    method FetchAndClaimPending(batchSize: int, endpoints: map<Id, Endpoint>, now: nat) returns (tasks: seq<Task>)
      requires Valid()
      modifies this`rows
      ensures Valid()
      ensures ClaimAnswer(old(rows), endpoints, now, Max(0, batchSize), tasks)
      ensures forall a, b :: 0 <= a < b < |tasks| ==> tasks[a].number <= tasks[b].number
      ensures forall t <- tasks :: IsDue(old(rows), endpoints, now, t.id)
      ensures forall t <- tasks :: TakenOver(old(rows), rows, t, now)
      ensures |tasks| < batchSize ==> forall id :: IsDue(old(rows), endpoints, now, id) ==> exists t <- tasks :: t.id == id
      ensures rows == MarkClaimed(old(rows), Ids(tasks), now)
    {
      hide ClaimAnswer, MarkClaimed, Ids, Eligible, DistinctIds, SortedByNumber, IsDue, TakenOver;
      tasks := [];
      if batchSize <= 0 {
        NothingClaimed(rows, endpoints, now);
        return;
      }
      var picked := SelectClaimable(batchSize, endpoints, now);
      var claimed := MarkPicked(picked, now);
      PickedAnswer(old(rows), endpoints, now, batchSize, picked, claimed);
      tasks := SortByNumber(claimed);
      ReorderedAnswer(old(rows), endpoints, now, batchSize, claimed, tasks);
      AnswerIsDue(old(rows), endpoints, now, batchSize, tasks);
      AnswerTakesOver(old(rows), endpoints, now, batchSize, tasks);
      SortedMeans(tasks);
    }

    /** No status guard: whoever calls last wins. */
    method RecordOutcome(o: Outcome, now: nat) returns (found: bool)
      requires Valid()
      modifies this`rows
      ensures Valid()
      ensures rows == RecordRow(old(rows), o, now)
      ensures found <==> o.id in old(rows)
      ensures found ==> var was := old(rows)[o.id];
                        rows == old(rows)[o.id := Attempt(was.event, was.endpoint, o.status, o.number, o.nextRetryAt, o.httpStatus,
                                                          was.createdAt, now)]
    {
      found := o.id in rows;
      if found {
        rows := rows[o.id := Write(rows[o.id], o, now)];
      }
    }

    method RevertToPending(ids: seq<Id>, now: nat)
      requires Valid()
      modifies this`rows
      ensures Valid()
      ensures rows == RevertRows(old(rows), IdSet(ids), now)
      ensures rows.Keys == old(rows).Keys
      ensures forall id <- rows ::
                var was := old(rows)[id];
                rows[id] == if id in ids
                            then Attempt(was.event, was.endpoint, Pending, was.number, was.nextRetryAt, was.httpStatus, was.createdAt, now)
                            else was
    {
      var k := 0;
      while k < |ids|
        invariant 0 <= k <= |ids|
        invariant Valid()
        invariant rows == RevertRows(old(rows), IdSet(ids[..k]), now)
      {
        assert ids[..k + 1] == ids[..k] + [ids[k]];
        if ids[k] in rows {
          rows := rows[ids[k] := Revert(rows[ids[k]], now)];
        }
        k := k + 1;
      }
      assert ids[..k] == ids;
    }

    /** The guarded update, and the query that explains why it touched no row. */
    method ManualRetry(app: Id, id: Id, eventApp: map<Id, Id>, now: nat) returns (r: RetryAnswer)
      requires Valid()
      modifies this`rows
      ensures Valid()
      ensures var mine := id in old(rows) && old(rows)[id].event in eventApp && eventApp[old(rows)[id].event] == app;
              match r
              case RetriedRow(row) => mine && Retryable(old(rows), id) && rows == RetryRow(old(rows), id, now) && rows[id] == row
              case DeliveryNotFound => !mine && rows == old(rows)
              case InvalidRetryState(status) =>
                mine && !Retryable(old(rows), id) && status == old(rows)[id].status && rows == old(rows)
      ensures r.RetriedRow? ==>
                && var was := old(rows)[id];
                && (was.status == Failed || was.status == DeadLetter)
                && rows == old(rows)[id := Attempt(was.event, was.endpoint, Pending, 1, None, None, was.createdAt, now)]
      ensures r.InvalidRetryState? ==> r.status != Failed && r.status != DeadLetter
    {
      if id !in rows || rows[id].event !in eventApp || eventApp[rows[id].event] != app {
        return DeliveryNotFound;
      }
      if !rows[id].status.Failed? && !rows[id].status.DeadLetter? {
        return InvalidRetryState(rows[id].status);
      }
      rows := rows[id := Retried(rows[id], now)];
      return RetriedRow(rows[id]);
    }

    /** All rows of the call or none: an insert that fails rolls the earlier ones back. */
    method CreateAttempts(drafts: seq<(Id, Id)>, endpoints: map<Id, Endpoint>, now: nat) returns (ok: bool)
      requires Valid()
      modifies this
      ensures Valid()
      ensures ok <==> forall d <- drafts :: d.1 in endpoints
      ensures ok ==> rows == InsertRows(old(rows), old(nextId), drafts, now)
      ensures !ok ==> rows == old(rows)
    {
      var begun := rows;
      var k := 0;
      while k < |drafts|
        invariant 0 <= k <= |drafts|
        invariant Valid() && begun == old(rows) && old(nextId) <= nextId
        invariant forall d <- drafts[..k] :: d.1 in endpoints
        invariant InsertRows(rows, nextId, drafts[k..], now) == InsertRows(old(rows), old(nextId), drafts, now)
      {
        var d := drafts[k];
        if d.1 !in endpoints {
          rows := begun;
          return false;
        }
        assert drafts[k..][1..] == drafts[k + 1..];
        assert drafts[..k + 1] == drafts[..k] + [d];
        rows := rows[nextId := NewAttempt(d.0, d.1, now)];
        nextId := nextId + 1;
        k := k + 1;
      }
      assert drafts[..k] == drafts;
      return true;
    }

    /** DISTINCT ON (event, endpoint) ... ORDER BY created_at DESC over a set of rows. */
    method LatestPerPair(scope: set<Id>) returns (latest: map<Replay.Pair, Id>)
      requires forall id <- scope :: id in rows
      ensures forall p <- latest :: Replay.IsLatest(rows, scope, latest[p]) && Replay.PairOf(rows[latest[p]]) == p
      ensures forall id <- scope :: Replay.PairOf(rows[id]) in latest
    {
      latest := map[];
      var done: set<Id> := {};
      while scope - done != {}
        invariant done <= scope
        invariant forall p <- latest :: Replay.IsLatest(rows, done, latest[p]) && Replay.PairOf(rows[latest[p]]) == p
        invariant forall id <- done :: Replay.PairOf(rows[id]) in latest
        decreases scope - done
      {
        var id :| id in scope - done;
        var p := Replay.PairOf(rows[id]);
        if p !in latest || rows[latest[p]].createdAt < rows[id].createdAt {
          latest := latest[p := id];
        }
        done := done + {id};
      }
      assert done == scope;
    }

    /** The pairs whose kept row failed, each once, inserted as fresh pending attempts. */
    method InsertFailedPairs(scope: set<Id>, now: nat) returns (targets: seq<Replay.Pair>)
      requires Valid() && forall id <- scope :: id in rows
      modifies this
      ensures Valid() && NoRepeats(targets)
      ensures Replay.Answer(old(rows), scope, Replay.SetOf(targets))
      ensures rows == InsertRows(old(rows), old(nextId), targets, now) && nextId == old(nextId) + |targets|
    {
      var latest := LatestPerPair(scope);
      targets := [];
      var todo := latest.Keys;
      while todo != {}
        invariant todo <= latest.Keys
        invariant NoRepeats(targets) && forall p <- targets :: p !in todo
        invariant forall p :: p in targets <==> p in latest && p !in todo && Retryable(rows, latest[p])
        decreases todo
      {
        var p :| p in todo;
        if Retryable(rows, latest[p]) {
          targets := targets + [p];
        }
        todo := todo - {p};
      }
      InsertedRows(rows, nextId, targets, now);
      rows := InsertRows(rows, nextId, targets, now);
      nextId := nextId + |targets|;
    }

    method ReplayFailedAttemptsByEvent(app: Id, event: Id, eventApp: map<Id, Id>, now: nat) returns (targets: seq<Replay.Pair>)
      requires Valid()
      modifies this
      ensures Valid() && NoRepeats(targets)
      ensures var scope := if event in eventApp && eventApp[event] == app then Replay.EventScope(old(rows), event) else {};
              Replay.Answer(old(rows), scope, Replay.SetOf(targets))
      ensures Replay.ReplaysFailed(old(rows), if event in eventApp then map[event := eventApp[event]] else map[], app,
                                   Replay.NO_FILTER, Replay.SetOf(targets))
      ensures rows == InsertRows(old(rows), old(nextId), targets, now)
    {
      var scope := if event in eventApp && eventApp[event] == app then Replay.EventScope(rows, event) else {};
      targets := InsertFailedPairs(scope, now);
      Replay.EventReplaysFailed(old(rows), eventApp, app, event, Replay.SetOf(targets));
    }

    /** The filter is applied before the latest row of a pair is picked. */
    method BatchReplay(app: Id, eventApp: map<Id, Id>, filter: Replay.Filter, now: nat)
      returns (count: nat, ghost targets: seq<Replay.Pair>)
      requires Valid()
      modifies this
      ensures Valid() && NoRepeats(targets) && count == |targets|
      ensures Replay.Answer(old(rows), Replay.Passing(old(rows), Replay.AppScope(old(rows), eventApp, app), filter),
                            Replay.SetOf(targets))
      ensures Replay.ReplaysFailed(old(rows), eventApp, app, filter, Replay.SetOf(targets))
      ensures filter.endpoint.Some? ==> forall p <- targets :: p.1 == filter.endpoint.value
      ensures rows == InsertRows(old(rows), old(nextId), targets, now)
    {
      var inserted := InsertFailedPairs(Replay.Passing(rows, Replay.AppScope(rows, eventApp, app), filter), now);
      count := |inserted|;
      targets := inserted;
      Replay.BatchReplaysFailed(old(rows), eventApp, app, filter, Replay.SetOf(targets));
      assert forall p <- targets :: p in Replay.SetOf(targets);
    }
  }
}
