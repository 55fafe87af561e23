/** internal/repository/endpoint_repo.go and internal/service/endpoint_service.go:
    the circuit breaker of an endpoint and the operator update that races it. */
module Breaker {
  import opened Models

  /** RecordDeliveryResult on one row: the new row, and whether this call tripped the breaker. */
  function RecordResult(e: Endpoint, success: bool, maxFailures: int): (Endpoint, bool) {
    if success then (if e.failures > 0 then e.(failures := 0) else e, false)
    else if e.status.Inactive? then (e, false)
    else
      var failures := e.failures + 1;
      var status := if failures >= maxFailures then Inactive else e.status;
      (e.(failures := failures, status := status), status.Inactive? && failures >= maxFailures)
  }

  datatype UpdateParams = UpdateParams(status: Option<string>, recipient: Option<string>, rateLimit: Option<int>)

  datatype UpdateError = NotFound | InvalidStatus | InvalidRateLimit

  datatype UpdateResult = Updated(endpoint: Endpoint) | Rejected(error: UpdateError)

  /** The row UpdateEndpoint writes back, from the snapshot it read. */
  function ApplyUpdate(e: Endpoint, p: UpdateParams): UpdateResult {
    if p.status.Some? && p.status.value != "active" && p.status.value != "inactive" then Rejected(InvalidStatus)
    else if p.rateLimit.Some? && !(1 <= p.rateLimit.value <= 1000) then Rejected(InvalidRateLimit)
    else
      var e1 := match p.status
        case None => e
        case Some(s) => if s == "active" then e.(status := Active, failures := 0) else e.(status := Inactive);
      var e2 := if p.recipient.Some? then e1.(recipient := p.recipient.value) else e1;
      Updated(if p.rateLimit.Some? then e2.(rateLimit := p.rateLimit.value) else e2)
  }

  /** An active endpoint is below the threshold. */
  predicate Sound(e: Endpoint, maxFailures: int) {
    e.failures >= 0 && (e.status.Active? ==> e.failures < maxFailures)
  }

  lemma NewIsSound(app: Id, recipient: string, rateLimit: int, maxFailures: int)
    requires 0 < maxFailures
    ensures Sound(Endpoint(app, recipient, rateLimit, Active, 0), maxFailures)
  {
  }

  lemma ResultKeepsSound(e: Endpoint, success: bool, maxFailures: int)
    requires 0 < maxFailures && Sound(e, maxFailures)
    ensures Sound(RecordResult(e, success, maxFailures).0, maxFailures)
    ensures RecordResult(e, success, maxFailures).0.app == e.app
    ensures e.status.Inactive? ==> RecordResult(e, success, maxFailures).0.status.Inactive?
  {
  }

  /** Writing back a stale snapshot is harmless to the threshold, whatever happened in between. */
  lemma UpdateKeepsSound(snapshot: Endpoint, p: UpdateParams, maxFailures: int)
    requires 0 < maxFailures && Sound(snapshot, maxFailures)
    requires ApplyUpdate(snapshot, p).Updated?
    ensures Sound(ApplyUpdate(snapshot, p).endpoint, maxFailures)
    ensures ApplyUpdate(snapshot, p).endpoint.app == snapshot.app
  {
  }

  // ---------- the breaker against its history ----------

  /** The row after a history of results, oldest first, with no operator update in between. */
  function Fold(created: Endpoint, history: seq<bool>, maxFailures: int): Endpoint {
    if history == [] then created
    else RecordResult(Fold(created, history[..|history| - 1], maxFailures), history[|history| - 1], maxFailures).0
  }

  /** How many calls of the history returned tripped = true. */
  function Trips(created: Endpoint, history: seq<bool>, maxFailures: int): nat {
    if history == [] then 0
    else
      var before := history[..|history| - 1];
      Trips(created, before, maxFailures)
      + if RecordResult(Fold(created, before, maxFailures), history[|history| - 1], maxFailures).1 then 1 else 0
  }

  /** The length of the failure run the history ends with. */
  function TrailingFailures(history: seq<bool>): (n: nat)
    ensures n <= |history|
    ensures forall k :: |history| - n <= k < |history| ==> !history[k]
    ensures n < |history| ==> history[|history| - n - 1]
  {
    if history == [] || history[|history| - 1] then 0
    else 1 + TrailingFailures(history[..|history| - 1])
  }

  predicate FailuresFrom(history: seq<bool>, start: nat, count: nat) {
    start + count <= |history| && forall k :: start <= k < start + count ==> !history[k]
  }

  ghost predicate HasStreak(history: seq<bool>, count: nat) {
    exists start: nat :: FailuresFrom(history, start, count)
  }

  lemma StreakGrows(history: seq<bool>, last: bool, count: nat)
    requires 0 < count
    ensures HasStreak(history + [last], count)
            <==> HasStreak(history, count) || TrailingFailures(history + [last]) >= count
  {
    var longer := history + [last];
    if HasStreak(history, count) {
      var start: nat :| FailuresFrom(history, start, count);
      assert FailuresFrom(longer, start, count);
    }
    if TrailingFailures(longer) >= count {
      assert FailuresFrom(longer, |longer| - count, count);
    }
    if HasStreak(longer, count) && TrailingFailures(longer) < count {
      var start: nat :| FailuresFrom(longer, start, count);
      assert start + count < |longer|;
      assert FailuresFrom(history, start, count);
    }
  }

  /** A delivery begun before the trip succeeded after it. */
  ghost predicate SucceededSince(history: seq<bool>, maxFailures: int) {
    exists k :: 0 <= k < |history| && history[k] && StreakBefore(history, k, maxFailures)
  }

  ghost predicate StreakBefore(history: seq<bool>, k: nat, count: int) {
    0 <= count && k <= |history| && exists start: nat :: start + count <= k && FailuresFrom(history, start, count)
  }

  lemma SucceededSinceGrows(history: seq<bool>, last: bool, count: nat)
    ensures SucceededSince(history + [last], count) <==> SucceededSince(history, count) || (last && HasStreak(history, count))
  {
    var longer := history + [last];
    forall k | 0 <= k <= |history| ensures StreakBefore(longer, k, count) <==> StreakBefore(history, k, count) {
      StreakStays(history, last, k, count);
    }
    assert StreakBefore(history, |history|, count) <==> HasStreak(history, count);
    hide StreakBefore, HasStreak;
    if SucceededSince(history, count) {
      var k :| 0 <= k < |history| && history[k] && StreakBefore(history, k, count);
      assert longer[k] && StreakBefore(longer, k, count);
    }
    if last && HasStreak(history, count) {
      assert longer[|history|] && StreakBefore(longer, |history|, count);
    }
  }

  lemma StreakStays(history: seq<bool>, last: bool, k: nat, count: nat)
    requires k <= |history|
    ensures StreakBefore(history + [last], k, count) <==> StreakBefore(history, k, count)
  {
    var longer := history + [last];
    if StreakBefore(history, k, count) {
      var start: nat :| start + count <= k && FailuresFrom(history, start, count);
      assert FailuresFrom(longer, start, count);
    }
    if StreakBefore(longer, k, count) {
      var start: nat :| start + count <= k && FailuresFrom(longer, start, count);
      assert forall i :: start <= i < start + count ==> history[i] == longer[i];
      assert FailuresFrom(history, start, count);
    }
  }

  /** With no operator update, the endpoint is inactive exactly when its history holds
      maxFailures consecutive failures; until then the counter is the trailing failure run; after the
      trip it stays at maxFailures, whatever fails late, until a late success clears it; and exactly
      one call reports the trip. */
  lemma {:induction false} BreakerAgreesWithHistory(created: Endpoint, history: seq<bool>, maxFailures: int)
    requires 0 < maxFailures
    requires created.status.Active? && created.failures == 0
    ensures var e := Fold(created, history, maxFailures);
            && (e.status.Inactive? <==> HasStreak(history, maxFailures))
            && (e.status.Active? ==> e.failures == TrailingFailures(history) < maxFailures)
            && (e.status.Inactive? ==> e.failures == if SucceededSince(history, maxFailures) then 0 else maxFailures)
            && Trips(created, history, maxFailures) == (if e.status.Inactive? then 1 else 0)
  {
    if history == [] {
      assert !HasStreak(history, maxFailures);
    } else {
      var before, last := history[..|history| - 1], history[|history| - 1];
      assert history == before + [last];
      BreakerAgreesWithHistory(created, before, maxFailures);
      StreakGrows(before, last, maxFailures);
      SucceededSinceGrows(before, last, maxFailures);
      hide SucceededSince, HasStreak;
    }
  }
}
