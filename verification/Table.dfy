/** What each statement of internal/repository/delivery_repo.go does to the delivery_attempts table,
    as a function of the table. */
module Table {
  import opened Models
  import opened Recording

  type Rows = map<Id, Attempt>

  function Eligible(rows: Rows, endpoints: map<Id, Endpoint>, now: nat): set<Id> {
    set id | id in rows && Claimable(rows[id], endpoints, now)
  }

  function IdSet(ids: seq<Id>): set<Id> {
    set id | id in ids
  }

  function Ids(batch: seq<Task>): set<Id> {
    set t | t in batch :: t.id
  }

  predicate DistinctIds(batch: seq<Task>) {
    forall a, b :: 0 <= a < b < |batch| ==> batch[a].id != batch[b].id
  }

  /** The batch is the oldest min(limit, candidates) of some candidate rows, each once. Equal
      created_at may fall either way. */
  ghost predicate Oldest(rows: Rows, candidates: set<Id>, now: nat, limit: nat, batch: seq<Task>)
    requires forall id <- candidates :: id in rows
  {
    && (forall t <- batch :: t.id in candidates && t == TaskOf(t.id, rows[t.id], now))
    && DistinctIds(batch)
    && |batch| == Min(limit, |candidates|)
    && (forall x, y :: x in Ids(batch) && y in candidates && y !in Ids(batch) ==> rows[x].createdAt <= rows[y].createdAt)
  }

  /** What FetchAndClaimPending answers when no other claim runs beside it. */
  ghost predicate ClaimAnswer(rows: Rows, endpoints: map<Id, Endpoint>, now: nat, limit: nat, batch: seq<Task>) {
    Oldest(rows, Eligible(rows, endpoints, now), now, limit, batch)
  }

  /** What it answers when other claims hold locks: it skips the rows they have locked. */
  ghost predicate ClaimSkipping(rows: Rows, endpoints: map<Id, Endpoint>, now: nat, limit: nat, locked: set<Id>, batch: seq<Task>) {
    Oldest(rows, Eligible(rows, endpoints, now) - locked, now, limit, batch)
  }

  ghost predicate SomeClaim(rows: Rows, endpoints: map<Id, Endpoint>, now: nat, limit: nat, batch: seq<Task>) {
    exists locked :: ClaimSkipping(rows, endpoints, now, limit, locked, batch)
  }

  lemma ClaimAlone(rows: Rows, endpoints: map<Id, Endpoint>, now: nat, limit: nat, batch: seq<Task>)
    requires ClaimAnswer(rows, endpoints, now, limit, batch)
    ensures SomeClaim(rows, endpoints, now, limit, batch)
  {
    assert Eligible(rows, endpoints, now) - {} == Eligible(rows, endpoints, now);
    assert ClaimSkipping(rows, endpoints, now, limit, {}, batch);
  }

  lemma IdsAtMost(tasks: seq<Task>)
    ensures |Ids(tasks)| <= |tasks|
  {
    if tasks != [] {
      var init, last := tasks[..|tasks| - 1], tasks[|tasks| - 1];
      IdsAtMost(init);
      assert tasks == init + [last];
      assert Ids(tasks) == Ids(init) + {last.id} by {
        forall t | t in tasks ensures t in init || t == last {
        }
      }
    }
  }

  /** Distinct ids do not depend on the order of the tasks. */
  lemma DistinctIdsByCount(tasks: seq<Task>)
    ensures DistinctIds(tasks) <==> |Ids(tasks)| == |tasks|
  {
    if tasks != [] {
      var init, last := tasks[..|tasks| - 1], tasks[|tasks| - 1];
      DistinctIdsByCount(init);
      assert tasks == init + [last];
      assert Ids(tasks) == Ids(init) + {last.id} by {
        forall t | t in tasks ensures t in init || t == last {
        }
      }
      IdsAtMost(init);
      if DistinctIds(tasks) {
        assert last.id !in Ids(init);
      }
      if |Ids(tasks)| == |tasks| {
        assert |Ids(init)| == |init| && last.id !in Ids(init);
        forall a, b | 0 <= a < b < |tasks| ensures tasks[a].id != tasks[b].id {
          if b == |tasks| - 1 {
            assert init[a].id in Ids(init);
          }
        }
      }
    }
  }

  lemma SubsetSize(a: set<Id>, b: set<Id>)
    requires a <= b
    ensures |a| <= |b| && (|a| == |b| ==> a == b)
  {
    if a != b {
      assert a < b && b == a + (b - a) && 0 < |b - a|;
    }
  }

  /** A batch that leaves out a candidate is a full one, of candidates no younger. */
  lemma LeavingOut(rows: Rows, candidates: set<Id>, now: nat, limit: nat, batch: seq<Task>, r: Id)
    requires forall id <- candidates :: id in rows
    requires Oldest(rows, candidates, now, limit, batch) && r in candidates && r !in Ids(batch)
    ensures |Ids(batch)| == limit
    ensures forall id <- Ids(batch) :: id in candidates && rows[id].createdAt <= rows[r].createdAt
  {
    DistinctIdsByCount(batch);
    assert Ids(batch) <= candidates;
    SubsetSize(Ids(batch), candidates);
  }

  lemma ClaimOnly(rows: Rows, endpoints: map<Id, Endpoint>, now: nat, limit: nat, id: Id)
    requires Eligible(rows, endpoints, now) == {id} && 0 < limit
    ensures id in rows && SomeClaim(rows, endpoints, now, limit, [TaskOf(id, rows[id], now)])
    ensures Ids([TaskOf(id, rows[id], now)]) == {id}
  {
    assert id in Eligible(rows, endpoints, now);
    var batch := [TaskOf(id, rows[id], now)];
    assert Ids(batch) == {id};
    assert ClaimAnswer(rows, endpoints, now, limit, batch);
    ClaimAlone(rows, endpoints, now, limit, batch);
  }

  function MarkClaimed(rows: Rows, ids: set<Id>, now: nat): Rows {
    map id | id in rows :: if id in ids then Claim(rows[id], now) else rows[id]
  }

  /** RecordOutcome: WHERE id = $1, whatever the row's status. */
  function RecordRow(rows: Rows, o: Outcome, now: nat): Rows {
    if o.id in rows then rows[o.id := Write(rows[o.id], o, now)] else rows
  }

  function Revert(row: Attempt, now: nat): Attempt {
    row.(status := Pending, updatedAt := now)
  }

  /** RevertToPending: WHERE id = ANY($1), whatever the rows' status. */
  function RevertRows(rows: Rows, ids: set<Id>, now: nat): Rows {
    map id | id in rows :: if id in ids then Revert(rows[id], now) else rows[id]
  }

  function Retried(row: Attempt, now: nat): Attempt {
    row.(status := Pending, number := 1, nextRetryAt := None, httpStatus := None, updatedAt := now)
  }

  predicate Retryable(rows: Rows, id: Id) {
    id in rows && (rows[id].status.Failed? || rows[id].status.DeadLetter?)
  }

  /** ManualRetry: guarded by the status. */
  function RetryRow(rows: Rows, id: Id, now: nat): Rows {
    if Retryable(rows, id) then rows[id := Retried(rows[id], now)] else rows
  }

  function NewAttempt(event: Id, endpoint: Id, now: nat): Attempt {
    Attempt(event, endpoint, Pending, 1, None, None, now, now)
  }

  /** Fresh attempts for (event, endpoint) pairs, inserted in order with ids from `next` on. */
  function InsertRows(rows: Rows, next: Id, targets: seq<(Id, Id)>, now: nat): Rows
    decreases |targets|
  {
    if targets == [] then rows
    else InsertRows(rows[next := NewAttempt(targets[0].0, targets[0].1, now)], next + 1, targets[1..], now)
  }

  lemma {:induction false} InsertedRows(rows: Rows, next: Id, targets: seq<(Id, Id)>, now: nat)
    requires forall id <- rows :: id < next
    ensures var after := InsertRows(rows, next, targets, now);
            && (forall id :: id in after <==> id in rows || next <= id < next + |targets|)
            && (forall id <- rows :: after[id] == rows[id])
            && (forall k :: 0 <= k < |targets| ==> after[next + k] == NewAttempt(targets[k].0, targets[k].1, now))
    decreases |targets|
  {
    if targets != [] {
      var rows1 := rows[next := NewAttempt(targets[0].0, targets[0].1, now)];
      InsertedRows(rows1, next + 1, targets[1..], now);
      var after := InsertRows(rows, next, targets, now);
      assert after[next] == rows1[next];
      forall k | 0 < k < |targets| ensures after[next + k] == NewAttempt(targets[k].0, targets[k].1, now) {
        assert after[next + 1 + (k - 1)] == NewAttempt(targets[1..][k - 1].0, targets[1..][k - 1].1, now);
      }
    }
  }

  /** They are first attempts, due at once if their endpoint is active. */
  lemma InsertedAreDue(rows: Rows, next: Id, targets: seq<(Id, Id)>, now: nat, endpoints: map<Id, Endpoint>, k: nat)
    requires forall id <- rows :: id < next
    requires k < |targets|
    ensures var after := InsertRows(rows, next, targets, now);
            && next + k in after
            && after[next + k] == Attempt(targets[k].0, targets[k].1, Pending, 1, None, None, now, now)
            && (targets[k].1 in endpoints && endpoints[targets[k].1].status == Active ==> Claimable(after[next + k], endpoints, now))
  {
    InsertedRows(rows, next, targets, now);
    hide InsertRows;
  }

  function DropEndpointRows(rows: Rows, endpoint: Id): Rows {
    map id | id in rows && rows[id].endpoint != endpoint :: rows[id]
  }

  /** A claim that is reverted leaves a pending row as it was, but for its timestamp: still due. */
  lemma ClaimThenRevert(rows: Rows, endpoints: map<Id, Endpoint>, id: Id, ids: set<Id>, claimed: nat, reverted: nat)
    requires id in ids && id in rows && Claimable(rows[id], endpoints, claimed) && claimed <= reverted
    ensures var after := RevertRows(MarkClaimed(rows, ids, claimed), ids, reverted)[id];
            && after == rows[id].(status := Pending, updatedAt := reverted)
            && (rows[id].status.Pending? ==> Claimable(after, endpoints, reverted))
  {
  }
}
