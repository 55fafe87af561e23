/** internal/engine/dispatcher.go: one poll, and the drain that repeats it. */
module Dispatcher {
  import opened Arithmetic
  import opened Models
  import opened Recording
  import opened Table
  import opened DeliveryRepository
  import opened WorkerPool
  import Process

  /** Everything a poll cannot decide itself: whether the claim fails, at which task it first sees
      the stop signal, which sends time out, and whether the revert fails. */
  datatype Weather = Weather(claimFails: bool, stopAt: Option<nat>, timeouts: set<nat>, revertFails: bool)

  const CALM: Weather := Weather(false, None, {}, false)

  predicate StopSeen(w: Weather, k: nat) {
    w.stopAt.Some? && w.stopAt.value <= k
  }

  /** The tasks among the first `n` that are handed over, and those that are not. */
  function Handed(batch: seq<Task>, n: nat, w: Weather, closed: bool): (seq<Task>, seq<Task>)
    requires n <= |batch|
  {
    if n == 0 then ([], [])
    else
      var (sent, failed) := Handed(batch, n - 1, w, closed);
      if StopSeen(w, n - 1) || closed || n - 1 in w.timeouts then (sent, failed + [batch[n - 1]])
      else (sent + [batch[n - 1]], failed)
  }

  /** Each task is handed over or not, exactly once, and in order. */
  lemma HandedSplits(batch: seq<Task>, n: nat, w: Weather, closed: bool)
    requires n <= |batch|
    ensures var (sent, failed) := Handed(batch, n, w, closed); Process.Split(batch[..n], sent, failed)
  {
    if n > 0 {
      HandedSplits(batch, n - 1, w, closed);
      var (sent, failed) := Handed(batch, n - 1, w, closed);
      assert batch[..n] == batch[..n - 1] + [batch[n - 1]];
      Process.SplitSent(batch[..n - 1], sent, failed, batch[n - 1]);
      Process.SplitFailed(batch[..n - 1], sent, failed, batch[n - 1]);
    }
  }

  /** Once the stop signal is seen, everything left is abandoned at once. */
  lemma StopAbandonsRest(batch: seq<Task>, k: nat, n: nat, w: Weather, closed: bool)
    requires k <= n <= |batch| && w.stopAt.Some? && w.stopAt.value <= k
    ensures var (sent, failed) := Handed(batch, k, w, closed);
            Handed(batch, n, w, closed) == (sent, failed + batch[k..n])
  {
    if k < n {
      StopAbandonsRest(batch, k, n - 1, w, closed);
      var (_, failed) := Handed(batch, k, w, closed);
      assert failed + batch[k..n] == failed + batch[k..n - 1] + [batch[n - 1]];
    } else {
      var (_, failed) := Handed(batch, k, w, closed);
      assert failed + batch[k..n] == failed;
    }
  }

  /** What the pool gets: of an open pool's batch, the tasks before the stop signal whose send goes
      through; of a closed one's, nothing. */
  lemma WhoIsHanded(batch: seq<Task>, n: nat, w: Weather, closed: bool, k: nat)
    requires k < n <= |batch| && forall a, b :: 0 <= a < b < |batch| ==> batch[a] != batch[b]
    ensures var (sent, failed) := Handed(batch, n, w, closed);
            var goes := !closed && k !in w.timeouts && (w.stopAt.None? || k < w.stopAt.value);
            (batch[k] in sent <==> goes) && (batch[k] in failed <==> !goes)
  {
    HandedSplits(batch, n - 1, w, closed);
    HandedFrom(batch, n - 1, w, closed);
    if k < n - 1 {
      WhoIsHanded(batch, n - 1, w, closed, k);
    }
  }

  lemma HandedFrom(batch: seq<Task>, n: nat, w: Weather, closed: bool)
    requires n <= |batch|
    ensures var (sent, failed) := Handed(batch, n, w, closed);
            forall t :: t in sent || t in failed ==> t in batch[..n]
  {
    if n > 0 {
      HandedFrom(batch, n - 1, w, closed);
      assert batch[..n] == batch[..n - 1] + [batch[n - 1]];
    }
  }

  /** Which sends time out beyond the first `n` does not matter to them. */
  lemma LaterTimeouts(batch: seq<Task>, n: nat, a: set<nat>, b: set<nat>)
    requires n <= |batch| && forall k :: k < n ==> (k in a <==> k in b)
    ensures Handed(batch, n, Weather(false, None, a, false), false) == Handed(batch, n, Weather(false, None, b, false), false)
  {
  }

  lemma HandedPrefix(batch: seq<Task>, rest: seq<Task>, n: nat, w: Weather, closed: bool)
    requires n <= |rest| <= |batch| && forall k :: 0 <= k < n ==> rest[k] == batch[k]
    ensures Handed(batch, n, w, closed) == Handed(rest, n, w, closed)
  {
  }

  /** Conversely every split of a batch comes about: the splits the interleaved machine allows are
      exactly what this poll can produce. */
  lemma EverySplitHappens(batch: seq<Task>, sent: seq<Task>, failed: seq<Task>) returns (timeouts: set<nat>)
    requires Process.Split(batch, sent, failed)
    ensures Handed(batch, |batch|, Weather(false, None, timeouts, false), false) == (sent, failed)
  {
    if batch == [] {
      timeouts := {};
    } else {
      var n := |batch| - 1;
      var rest, last := batch[..n], batch[n];
      if sent != [] && sent[|sent| - 1] == last && Process.Split(rest, sent[..|sent| - 1], failed) {
        var before := EverySplitHappens(rest, sent[..|sent| - 1], failed);
        timeouts := before - {n};
        LaterTimeouts(batch, n, before, timeouts);
        HandedPrefix(batch, rest, n, Weather(false, None, before, false), false);
        assert sent == sent[..|sent| - 1] + [last];
      } else {
        var before := EverySplitHappens(rest, sent, failed[..|failed| - 1]);
        timeouts := before + {n};
        LaterTimeouts(batch, n, before, timeouts);
        HandedPrefix(batch, rest, n, Weather(false, None, before, false), false);
        assert failed == failed[..|failed| - 1] + [last];
      }
    }
  }

  lemma CalmHandsAll(batch: seq<Task>, n: nat)
    requires n <= |batch|
    ensures Handed(batch, n, CALM, false) == (batch[..n], [])
  {
    if n > 0 {
      CalmHandsAll(batch, n - 1);
      assert batch[..n] == batch[..n - 1] + [batch[n - 1]];
    } else {
      assert batch[..0] == [];
    }
  }

  function IdsOf(tasks: seq<Task>): seq<Id> {
    seq(|tasks|, k requires 0 <= k < |tasks| => tasks[k].id)
  }

  lemma IdsOfIds(tasks: seq<Task>)
    ensures IdSet(IdsOf(tasks)) == Ids(tasks)
  {
    forall t | t in tasks ensures t.id in IdsOf(tasks) {
      var k :| 0 <= k < |tasks| && tasks[k] == t;
      assert IdsOf(tasks)[k] == t.id;
    }
  }

  /** After a claim under a fixed clock, what is left to claim is what it did not take. */
  lemma EligibleAfterClaim(rows: Rows, endpoints: map<Id, Endpoint>, now: nat, ids: set<Id>)
    requires ids <= Eligible(rows, endpoints, now)
    ensures Eligible(MarkClaimed(rows, ids, now), endpoints, now) == Eligible(rows, endpoints, now) - ids
  {
  }

  class Dispatcher {
    const source: DeliveryRepository
    const pool: WorkerPool
    const batchSize: nat

    ghost predicate Valid()
      reads this, source, pool
    {
      0 < batchSize && source.Valid() && pool.Valid()
    }

    constructor (source: DeliveryRepository, pool: WorkerPool, batchSize: nat)
      requires source.Valid() && pool.Valid() && 0 < batchSize
      ensures Valid() && this.source == source && this.pool == pool && this.batchSize == batchSize
    {
      this.source, this.pool, this.batchSize := source, pool, batchSize;
    }

    /** Offers the batch to the pool until it is done or a stop signal is seen. */
    method HandOver(tasks: seq<Task>, w: Weather) returns (failed: seq<Task>, ghost sent: seq<Task>)
      requires Valid()
      modifies pool`queue, pool`sent, pool`taken
      ensures Valid()
      ensures (sent, failed) == Handed(tasks, |tasks|, w, pool.closed)
      ensures pool.sent == old(pool.sent) + sent
    {
      failed, sent := [], [];
      var k := 0;
      while k < |tasks|
        invariant 0 <= k <= |tasks|
        invariant Valid()
        invariant (sent, failed) == Handed(tasks, k, w, pool.closed)
        invariant pool.sent == old(pool.sent) + sent
      {
        if StopSeen(w, k) {
          StopAbandonsRest(tasks, k, |tasks|, w, pool.closed);
          assert tasks[k..] == tasks[k..|tasks|];
          failed := failed + tasks[k..];
          return;
        }
        var answer := pool.Enqueue(tasks[k], k !in w.timeouts);
        if answer.Accepted? {
          sent := sent + [tasks[k]];
        } else {
          failed := failed + [tasks[k]];
        }
        k := k + 1;
      }
    }

    /** Batch conservation: for every pattern of failures and every moment of the stop signal, the
        claimed batch splits into what the pool accepted and what went back to pending, each task
        once and in order; a claim that fails, or finds nothing, changes nothing else. */
    method PollAndDispatch(endpoints: map<Id, Endpoint>, now: nat, w: Weather)
      returns (count: nat, ok: bool, ghost tasks: seq<Task>, ghost sent: seq<Task>, ghost failed: seq<Task>)
      requires Valid()
      modifies source`rows, pool`queue, pool`sent, pool`taken
      ensures Valid()
      ensures ok <==> !w.claimFails
      ensures !ok ==> count == 0 && source.rows == old(source.rows) && pool.sent == old(pool.sent) && tasks == []
      ensures ok ==> count == |tasks| && ClaimAnswer(old(source.rows), endpoints, now, batchSize, tasks)
      ensures Process.Split(tasks, sent, failed) && (sent, failed) == Handed(tasks, |tasks|, w, pool.closed)
      ensures pool.sent == old(pool.sent) + sent
      ensures ok ==> var claimed := MarkClaimed(old(source.rows), Ids(tasks), now);
                     source.rows == if w.revertFails then claimed else RevertRows(claimed, Ids(failed), now)
    {
      tasks, sent, failed := [], [], [];
      count, ok := 0, !w.claimFails;
      if !ok {
        return;
      }
      hide ClaimAnswer, MarkClaimed, RevertRows, Ids, Process.Split;
      var batch := source.FetchAndClaimPending(batchSize, endpoints, now);
      var rejected;
      rejected, sent := HandOver(batch, w);
      tasks, failed, count := batch, rejected, |batch|;
      HandedSplits(batch, |batch|, w, pool.closed);
      assert batch[..|batch|] == batch;
      if |rejected| > 0 && !w.revertFails {
        source.RevertToPending(IdsOf(rejected), now);
        IdsOfIds(rejected);
      } else if |rejected| == 0 {
        RevertNothing(source.rows, now);
      }
    }

    static lemma RevertNothing(rows: Rows, now: nat)
      ensures RevertRows(rows, Ids([]), now) == rows
    {
    }

    /** One poll of the drain: it takes a full batch, or everything that is left. */
    method DrainOnce(endpoints: map<Id, Endpoint>, now: nat, ghost rows0: Rows, ghost handed: seq<Task>)
      returns (drained: nat, ghost tasks: seq<Task>)
      requires Valid() && !pool.closed
      requires Drained(rows0, source.rows, endpoints, now, handed)
      modifies source`rows, pool`queue, pool`sent, pool`taken
      ensures Valid()
      ensures pool.sent == old(pool.sent) + tasks && drained == |tasks| <= batchSize
      ensures Drained(rows0, source.rows, endpoints, now, handed + tasks)
      ensures |Eligible(source.rows, endpoints, now)| + drained == |old(Eligible(source.rows, endpoints, now))|
      ensures drained < batchSize ==> AllDrained(rows0, source.rows, endpoints, now, handed + tasks)
    {
      ghost var before, sent, failed := source.rows, [], [];
      var ok;
      hide ClaimAnswer, MarkClaimed, RevertRows, Ids, Handed, Process.Split, Eligible, Drained, AllDrained;
      drained, ok, tasks, sent, failed := PollAndDispatch(endpoints, now, CALM);
      CalmPollKeepsAll(before, source.rows, tasks, sent, failed, now);
      DrainStep(rows0, before, source.rows, endpoints, now, batchSize, handed, tasks);
    }

    /** Adaptive drain: with n eligible rows, no failures and no stop, the loop reaches its ticker
        after exactly n / batchSize + 1 polls, and has handed over every eligible row once. */
    method DrainUntilWait(endpoints: map<Id, Endpoint>, now: nat) returns (polls: nat, ghost handed: seq<Task>)
      requires Valid() && !pool.closed
      modifies source`rows, pool`queue, pool`sent, pool`taken
      ensures Valid()
      ensures polls == |old(Eligible(source.rows, endpoints, now))| / batchSize + 1
      ensures pool.sent == old(pool.sent) + handed
      ensures |handed| == |old(Eligible(source.rows, endpoints, now))|
      ensures Ids(handed) == old(Eligible(source.rows, endpoints, now))
      ensures source.rows == MarkClaimed(old(source.rows), Ids(handed), now)
    {
      polls, handed := 0, [];
      ghost var rows0 := source.rows;
      NothingDrained(rows0, endpoints, now);
      hide MarkClaimed, Ids, Eligible, Drained, AllDrained;
      var drained: nat := batchSize;
      while drained >= batchSize
        invariant Valid() && !pool.closed
        invariant pool.sent == old(pool.sent) + handed
        invariant Drained(rows0, source.rows, endpoints, now, handed)
        invariant drained >= batchSize ==> |handed| == polls * batchSize
        invariant drained < batchSize ==> 0 < polls && |handed| == (polls - 1) * batchSize + drained
        invariant drained < batchSize ==> AllDrained(rows0, source.rows, endpoints, now, handed)
        decreases |Eligible(source.rows, endpoints, now)| + (if drained >= batchSize then 1 else 0)
      {
        ghost var tasks;
        drained, tasks := DrainOnce(endpoints, now, rows0, handed);
        TimesNext(polls, batchSize);
        handed := handed + tasks;
        polls := polls + 1;
      }
      DrainEnds(rows0, source.rows, endpoints, now, handed);
      QuotientIs(|handed|, batchSize, polls - 1);
    }

    static lemma DrainEnds(rows0: Rows, rows: Rows, endpoints: map<Id, Endpoint>, now: nat, handed: seq<Task>)
      requires Drained(rows0, rows, endpoints, now, handed) && AllDrained(rows0, rows, endpoints, now, handed)
      ensures |handed| == |Eligible(rows0, endpoints, now)| && Ids(handed) == Eligible(rows0, endpoints, now)
      ensures rows == MarkClaimed(rows0, Ids(handed), now)
    {
    }

    /** Under CALM and with the pool open, a poll reverts nothing. */
    static lemma CalmPollKeepsAll(before: Rows, after: Rows, tasks: seq<Task>, sent: seq<Task>, failed: seq<Task>, now: nat)
      requires (sent, failed) == Handed(tasks, |tasks|, CALM, false)
      requires after == RevertRows(MarkClaimed(before, Ids(tasks), now), Ids(failed), now)
      ensures sent == tasks && after == MarkClaimed(before, Ids(tasks), now)
    {
      CalmHandsAll(tasks, |tasks|);
      assert tasks[..|tasks|] == tasks;
      RevertNothing(MarkClaimed(before, Ids(tasks), now), now);
    }

    /** The drain so far has claimed and handed over some eligible rows, each once. */
    static ghost predicate Drained(rows0: Rows, rows: Rows, endpoints: map<Id, Endpoint>, now: nat, handed: seq<Task>) {
      && Ids(handed) <= Eligible(rows0, endpoints, now)
      && rows == MarkClaimed(rows0, Ids(handed), now)
      && |handed| + |Eligible(rows, endpoints, now)| == |Eligible(rows0, endpoints, now)|
    }

    static ghost predicate AllDrained(rows0: Rows, rows: Rows, endpoints: map<Id, Endpoint>, now: nat, handed: seq<Task>) {
      Ids(handed) == Eligible(rows0, endpoints, now) && Eligible(rows, endpoints, now) == {}
    }

    static lemma NothingDrained(rows: Rows, endpoints: map<Id, Endpoint>, now: nat)
      ensures Drained(rows, rows, endpoints, now, [])
    {
    }

    static lemma MarkClaimedTwice(rows: Rows, a: set<Id>, b: set<Id>, now: nat)
      ensures MarkClaimed(MarkClaimed(rows, a, now), b, now) == MarkClaimed(rows, a + b, now)
    {
    }

    static lemma AnswerSize(rows: Rows, endpoints: map<Id, Endpoint>, now: nat, size: nat, tasks: seq<Task>)
      requires ClaimAnswer(rows, endpoints, now, size, tasks)
      ensures Ids(tasks) <= Eligible(rows, endpoints, now) && |Ids(tasks)| == |tasks|
      ensures |tasks| == Min(size, |Eligible(rows, endpoints, now)|)
    {
      DistinctIdsByCount(tasks);
    }

    static lemma ClaimCounts(e: set<Id>, taken: set<Id>, size: nat)
      requires taken <= e && |taken| == Min(size, |e|)
      ensures |e - taken| + |taken| == |e| && (|taken| < size ==> taken == e && e - taken == {})
    {
      SubsetSize(taken, e);
    }

    /** A poll with nothing reverted takes a full batch of what is left, or all of it. */
    static lemma ClaimStep(before: Rows, after: Rows, endpoints: map<Id, Endpoint>, now: nat, size: nat, tasks: seq<Task>)
      requires ClaimAnswer(before, endpoints, now, size, tasks) && after == MarkClaimed(before, Ids(tasks), now)
      ensures Ids(tasks) <= Eligible(before, endpoints, now)
      ensures Eligible(after, endpoints, now) == Eligible(before, endpoints, now) - Ids(tasks)
      ensures |tasks| <= size && |Eligible(after, endpoints, now)| + |tasks| == |Eligible(before, endpoints, now)|
      ensures |tasks| < size ==> Ids(tasks) == Eligible(before, endpoints, now) && Eligible(after, endpoints, now) == {}
    {
      hide ClaimAnswer, MarkClaimed, Ids, Eligible;
      AnswerSize(before, endpoints, now, size, tasks);
      EligibleAfterClaim(before, endpoints, now, Ids(tasks));
      ClaimCounts(Eligible(before, endpoints, now), Ids(tasks), size);
    }

    static lemma DrainStep(rows0: Rows, before: Rows, after: Rows, endpoints: map<Id, Endpoint>, now: nat, size: nat,
                           handed: seq<Task>, tasks: seq<Task>)
      requires Drained(rows0, before, endpoints, now, handed) && ClaimAnswer(before, endpoints, now, size, tasks)
      requires after == MarkClaimed(before, Ids(tasks), now)
      ensures Drained(rows0, after, endpoints, now, handed + tasks)
      ensures |tasks| <= size && |Eligible(after, endpoints, now)| + |tasks| == |Eligible(before, endpoints, now)|
      ensures |tasks| < size ==> AllDrained(rows0, after, endpoints, now, handed + tasks)
    {
      hide ClaimAnswer, MarkClaimed, Ids, Eligible;
      EligibleAfterClaim(rows0, endpoints, now, Ids(handed));
      MarkClaimedTwice(rows0, Ids(handed), Ids(tasks), now);
      IdsConcat(handed, tasks);
      ClaimStep(before, after, endpoints, now, size, tasks);
      TakenSoFar(Eligible(rows0, endpoints, now), Ids(handed), Ids(tasks));
    }

    static lemma TakenSoFar(e: set<Id>, a: set<Id>, b: set<Id>)
      requires a <= e && b <= e - a
      ensures a + b <= e && (b == e - a ==> a + b == e)
    {
    }

    static lemma IdsConcat(a: seq<Task>, b: seq<Task>)
      ensures Ids(a + b) == Ids(a) + Ids(b)
    {
      assert forall t :: t in a + b <==> t in a || t in b;
    }
  }
}
