/** Replay: fresh attempts for (event, endpoint) pairs whose latest attempt failed.
    (ReplayFailedAttemptsByEvent and BatchReplay of internal/repository/delivery_repo.go) */
module Replay {
  import opened Models
  import opened Table

  type Pair = (Id, Id)

  function PairOf(row: Attempt): Pair {
    (row.event, row.endpoint)
  }

  predicate IsLatest(rows: Rows, scope: set<Id>, id: Id) {
    && id in rows && id in scope
    && forall y :: y in scope && y in rows && PairOf(rows[y]) == PairOf(rows[id]) ==> rows[y].createdAt <= rows[id].createdAt
  }

  /** The row DISTINCT ON keeps for the pair may be one that failed (or one that did not). */
  ghost predicate Kept(rows: Rows, scope: set<Id>, p: Pair, failed: bool) {
    exists id :: IsLatest(rows, scope, id) && PairOf(rows[id]) == p && Retryable(rows, id) == failed
  }

  /** SELECT DISTINCT ON (event, endpoint) ... ORDER BY created_at DESC keeps one latest row per
      pair, any of them when several tie; the pairs inserted are those whose kept row failed. */
  ghost predicate Answer(rows: Rows, scope: set<Id>, pairs: set<Pair>) {
    && (forall p <- pairs :: Kept(rows, scope, p, true))
    && (forall x :: x in scope && x in rows && PairOf(rows[x]) !in pairs ==> Kept(rows, scope, PairOf(rows[x]), false))
  }

  function EventScope(rows: Rows, e: Id): set<Id> {
    set id | id in rows && rows[id].event == e
  }

  function AppScope(rows: Rows, eventApp: map<Id, Id>, app: Id): set<Id> {
    set id | id in rows && rows[id].event in eventApp && eventApp[rows[id].event] == app
  }

  function OfEvent(pairs: set<Pair>, e: Id): set<Pair> {
    set p | p in pairs && p.0 == e
  }

  // ---------- a batch is a replay of each event ----------

  lemma KeptIsLocal(rows: Rows, big: set<Id>, p: Pair, failed: bool)
    requires forall x :: x in rows && rows[x].event == p.0 ==> x in big
    ensures Kept(rows, big, p, failed) <==> Kept(rows, EventScope(rows, p.0), p, failed)
  {
    var small := EventScope(rows, p.0);
    forall id | id in rows && PairOf(rows[id]) == p ensures IsLatest(rows, big, id) <==> IsLatest(rows, small, id) {
    }
    if Kept(rows, big, p, failed) {
      var id :| IsLatest(rows, big, id) && PairOf(rows[id]) == p && Retryable(rows, id) == failed;
      assert IsLatest(rows, small, id);
    }
    if Kept(rows, small, p, failed) {
      var id :| IsLatest(rows, small, id) && PairOf(rows[id]) == p && Retryable(rows, id) == failed;
      assert IsLatest(rows, big, id);
    }
  }

  /** Restricted to one of its events, an unfiltered batch answer is an answer of that event's replay,
      ties included. */
  lemma BatchRestricts(rows: Rows, eventApp: map<Id, Id>, app: Id, pairs: set<Pair>, e: Id)
    requires Answer(rows, AppScope(rows, eventApp, app), pairs)
    requires e in eventApp && eventApp[e] == app
    ensures Answer(rows, EventScope(rows, e), OfEvent(pairs, e))
  {
    var big, small := AppScope(rows, eventApp, app), EventScope(rows, e);
    hide Kept;
    forall p | p in OfEvent(pairs, e) ensures Kept(rows, small, p, true) {
      KeptIsLocal(rows, big, p, true);
    }
    forall x | x in small && x in rows && PairOf(rows[x]) !in OfEvent(pairs, e) ensures Kept(rows, small, PairOf(rows[x]), false) {
      KeptIsLocal(rows, big, PairOf(rows[x]), false);
    }
  }

  /** Conversely, answers for every event of the application make up a batch answer. */
  lemma EventsAddUp(rows: Rows, eventApp: map<Id, Id>, app: Id, pairs: set<Pair>)
    requires forall p <- pairs :: p.0 in eventApp && eventApp[p.0] == app
    requires forall e :: e in eventApp && eventApp[e] == app ==> Answer(rows, EventScope(rows, e), OfEvent(pairs, e))
    ensures Answer(rows, AppScope(rows, eventApp, app), pairs)
  {
    var big := AppScope(rows, eventApp, app);
    hide Kept;
    forall p | p in pairs ensures Kept(rows, big, p, true) {
      assert p in OfEvent(pairs, p.0);
      KeptIsLocal(rows, big, p, true);
    }
    forall x | x in big && x in rows && PairOf(rows[x]) !in pairs ensures Kept(rows, big, PairOf(rows[x]), false) {
      var e := rows[x].event;
      assert PairOf(rows[x]) !in OfEvent(pairs, e) && x in EventScope(rows, e);
      KeptIsLocal(rows, big, PairOf(rows[x]), false);
    }
  }

  // ---------- one event after the other ----------

  function SetOf(targets: seq<Pair>): set<Pair> {
    set p | p in targets
  }

  /** Replaying one event leaves every other event's rows alone, hence its answers too. */
  lemma ReplayIsLocal(rows: Rows, next: Id, targets: seq<Pair>, now: nat, e: Id, other: Id, pairs: set<Pair>)
    requires forall id <- rows :: id < next
    requires forall p <- targets :: p.0 == e
    requires e != other
    ensures var after := InsertRows(rows, next, targets, now);
            && EventScope(after, other) == EventScope(rows, other)
            && (Answer(after, EventScope(after, other), pairs) <==> Answer(rows, EventScope(rows, other), pairs))
  {
    InsertedRows(rows, next, targets, now);
    var after := InsertRows(rows, next, targets, now);
    forall id | id in after && id !in rows ensures after[id].event == e {
      assert after[next + (id - next)] == NewAttempt(targets[id - next].0, targets[id - next].1, now);
    }
    assert EventScope(after, other) == EventScope(rows, other);
    SameScopeSameAnswer(rows, after, EventScope(rows, other), pairs);
  }

  lemma KeptOneWay(rows: Rows, after: Rows, scope: set<Id>, p: Pair, failed: bool)
    requires forall id <- scope :: id in rows && id in after && rows[id] == after[id]
    requires Kept(rows, scope, p, failed)
    ensures Kept(after, scope, p, failed)
  {
    var id :| IsLatest(rows, scope, id) && PairOf(rows[id]) == p && Retryable(rows, id) == failed;
    assert IsLatest(after, scope, id);
  }

  lemma SameScopeOneWay(rows: Rows, after: Rows, scope: set<Id>, pairs: set<Pair>)
    requires forall id <- scope :: id in rows && id in after && rows[id] == after[id]
    requires Answer(rows, scope, pairs)
    ensures Answer(after, scope, pairs)
  {
    hide Kept;
    forall p | p in pairs ensures Kept(after, scope, p, true) {
      KeptOneWay(rows, after, scope, p, true);
    }
    forall x | x in scope && x in after && PairOf(after[x]) !in pairs ensures Kept(after, scope, PairOf(after[x]), false) {
      KeptOneWay(rows, after, scope, PairOf(rows[x]), false);
    }
  }

  lemma SameScopeSameAnswer(rows: Rows, after: Rows, scope: set<Id>, pairs: set<Pair>)
    requires forall id <- scope :: id in rows && id in after && rows[id] == after[id]
    ensures Answer(rows, scope, pairs) <==> Answer(after, scope, pairs)
  {
    hide Answer;
    if Answer(rows, scope, pairs) {
      SameScopeOneWay(rows, after, scope, pairs);
    }
    if Answer(after, scope, pairs) {
      SameScopeOneWay(after, rows, scope, pairs);
    }
  }

  /** `answers[k]` is what replaying events[k] inserts, each replay seeing the inserts before it. */
  ghost predicate ReplayedInTurn(rows: Rows, next: Id, events: seq<Id>, answers: seq<seq<Pair>>, now: nat)
    decreases |events|
  {
    && |answers| == |events|
    && (events != [] ==>
        && (forall p <- answers[0] :: p.0 == events[0])
        && Answer(rows, EventScope(rows, events[0]), SetOf(answers[0]))
        && NoRepeats(answers[0])
        && ReplayedInTurn(InsertRows(rows, next, answers[0], now), next + |answers[0]|, events[1..], answers[1..], now))
  }

  function Union(answers: seq<seq<Pair>>): set<Pair> {
    if answers == [] then {} else SetOf(answers[0]) + Union(answers[1..])
  }

  /** Every event of the list is answered as it would have been on the original table. */
  lemma InTurnAnswers(rows: Rows, next: Id, events: seq<Id>, answers: seq<seq<Pair>>, now: nat, e: Id)
    requires forall id <- rows :: id < next
    requires NoRepeats(events) && ReplayedInTurn(rows, next, events, answers, now)
    ensures forall p <- Union(answers) :: p.0 in events
    ensures e in events ==> Answer(rows, EventScope(rows, e), OfEvent(Union(answers), e))
    decreases |events|
  {
    if events != [] {
      var first := SetOf(answers[0]);
      var rows1, next1 := InsertRows(rows, next, answers[0], now), next + |answers[0]|;
      InsertedRows(rows, next, answers[0], now);
      InTurnAnswers(rows1, next1, events[1..], answers[1..], now, e);
      assert Union(answers) == first + Union(answers[1..]);
      if e == events[0] {
        assert e !in events[1..];
        assert OfEvent(Union(answers), e) == first;
      } else if e in events {
        assert e in events[1..];
        assert OfEvent(Union(answers), e) == OfEvent(Union(answers[1..]), e);
        ReplayIsLocal(rows, next, answers[0], now, events[0], e, OfEvent(Union(answers), e));
      }
    }
  }

  /** Replaying every event of an application, one by one in any order, inserts the pairs of an
      unfiltered batch replay. */
  lemma ReplayAgreement(rows: Rows, next: Id, eventApp: map<Id, Id>, app: Id, events: seq<Id>, answers: seq<seq<Pair>>, now: nat)
    requires forall id <- rows :: id < next
    requires NoRepeats(events) && (forall e :: e in events <==> e in eventApp && eventApp[e] == app)
    requires ReplayedInTurn(rows, next, events, answers, now)
    ensures Answer(rows, AppScope(rows, eventApp, app), Union(answers))
  {
    forall e | e in eventApp && eventApp[e] == app ensures Answer(rows, EventScope(rows, e), OfEvent(Union(answers), e)) {
      InTurnAnswers(rows, next, events, answers, now, e);
    }
    InTurnAnswers(rows, next, events, answers, now, 0);
    EventsAddUp(rows, eventApp, app, Union(answers));
  }

  // ---------- repeats and filters ----------

  /** No two rows of a pair share created_at. */
  predicate NoTies(rows: Rows, scope: set<Id>) {
    forall x, y :: x in scope && y in scope && x in rows && y in rows && x != y && PairOf(rows[x]) == PairOf(rows[y])
                   ==> rows[x].createdAt != rows[y].createdAt
  }

  /** Without ties the answer is unique, and a pair is in it exactly when its latest row failed. */
  lemma AnswerIsUnique(rows: Rows, scope: set<Id>, pairs: set<Pair>, id: Id)
    requires NoTies(rows, scope) && Answer(rows, scope, pairs) && IsLatest(rows, scope, id)
    ensures PairOf(rows[id]) in pairs <==> Retryable(rows, id)
  {
    var y :| IsLatest(rows, scope, y) && PairOf(rows[y]) == PairOf(rows[id])
             && Retryable(rows, y) == (PairOf(rows[id]) in pairs);
    assert y == id;
  }

  /** The scope after an insert: the old one and the new rows. */
  function Widened(after: Rows, scope: set<Id>, next: Id): set<Id> {
    set id | id in after && (id in scope || next <= id)
  }

  /** A pair just replayed has a newer row than any in the old scope. */
  lemma ReplayedPairIsNewer(rows: Rows, scope: set<Id>, next: Id, targets: seq<Pair>, now: nat, id: Id)
    requires forall id <- rows :: id < next && rows[id].createdAt < now
    requires id in scope && id in rows
    requires var after := InsertRows(rows, next, targets, now); IsLatest(after, Widened(after, scope, next), id)
    ensures PairOf(rows[id]) !in targets
  {
    InsertedRows(rows, next, targets, now);
    var after := InsertRows(rows, next, targets, now);
    forall k | 0 <= k < |targets| ensures targets[k] != PairOf(rows[id]) {
      assert after[next + k] == NewAttempt(targets[k].0, targets[k].1, now);
      assert next + k in Widened(after, scope, next);
    }
  }

  lemma NewestIsPending(rows: Rows, scope: set<Id>, next: Id, targets: seq<Pair>, now: nat, id: Id)
    requires forall id <- rows :: id < next && rows[id].createdAt < now
    requires forall id <- scope :: id in rows
    requires NoTies(rows, scope) && Answer(rows, scope, SetOf(targets))
    requires var after := InsertRows(rows, next, targets, now); IsLatest(after, Widened(after, scope, next), id)
    ensures !Retryable(InsertRows(rows, next, targets, now), id)
  {
    InsertedRows(rows, next, targets, now);
    var after := InsertRows(rows, next, targets, now);
    if id in scope {
      ReplayedPairIsNewer(rows, scope, next, targets, now, id);
      assert forall y <- scope :: y in Widened(after, scope, next) && after[y] == rows[y];
      assert IsLatest(rows, scope, id);
      AnswerIsUnique(rows, scope, SetOf(targets), id);
    } else {
      assert after[next + (id - next)] == NewAttempt(targets[id - next].0, targets[id - next].1, now);
    }
  }

  /** An immediate repeat inserts nothing, when the clock has moved past every existing row. */
  lemma RepeatInsertsNone(rows: Rows, scope: set<Id>, next: Id, targets: seq<Pair>, now: nat, again: set<Pair>)
    requires forall id <- rows :: id < next && rows[id].createdAt < now
    requires forall id <- scope :: id in rows
    requires NoTies(rows, scope) && Answer(rows, scope, SetOf(targets))
    requires var after := InsertRows(rows, next, targets, now); Answer(after, Widened(after, scope, next), again)
    ensures again == {}
  {
    var after := InsertRows(rows, next, targets, now);
    forall p | p in again ensures false {
      var id :| IsLatest(after, Widened(after, scope, next), id) && PairOf(after[id]) == p && Retryable(after, id);
      NewestIsPending(rows, scope, next, targets, now, id);
    }
  }

  // ---------- filters ----------

  datatype Filter = Filter(status: Option<Status>, endpoint: Option<Id>, from: Option<nat>, to: Option<nat>)

  /** The optional conditions of BatchReplay. */
  predicate Matches(f: Filter, row: Attempt) {
    && (f.status.Some? ==> row.status == f.status.value)
    && (f.endpoint.Some? ==> row.endpoint == f.endpoint.value)
    && (f.from.Some? ==> f.from.value <= row.createdAt)
    && (f.to.Some? ==> row.createdAt <= f.to.value)
  }

  /** The rows a filter lets through, before the latest of each pair is picked. */
  function Passing(rows: Rows, scope: set<Id>, f: Filter): set<Id> {
    set id | id in scope && id in rows && Matches(f, rows[id])
  }

  /** A filter decides a pair as the unfiltered replay would whenever the pair's latest row passes it. */
  lemma FilterAgreesOnLatest(rows: Rows, scope: set<Id>, f: Filter, pairs: set<Pair>, filtered: set<Pair>, id: Id)
    requires NoTies(rows, scope) && IsLatest(rows, scope, id) && Matches(f, rows[id])
    requires Answer(rows, scope, pairs) && Answer(rows, Passing(rows, scope, f), filtered)
    ensures PairOf(rows[id]) in pairs <==> PairOf(rows[id]) in filtered
  {
    assert IsLatest(rows, Passing(rows, scope, f), id);
    AnswerIsUnique(rows, scope, pairs, id);
    AnswerIsUnique(rows, Passing(rows, scope, f), filtered, id);
  }

  predicate Touches(rows: Rows, scope: set<Id>, f: Filter, p: Pair) {
    exists id <- Passing(rows, scope, f) :: id in rows && PairOf(rows[id]) == p
  }

  lemma LatestOfPair(rows: Rows, scope: set<Id>, f: Filter, id: Id, latest: Id)
    requires f.status.None? && f.to.None? && id in Passing(rows, scope, f)
    requires IsLatest(rows, scope, latest) && PairOf(rows[latest]) == PairOf(rows[id])
    ensures Matches(f, rows[latest])
  {
  }

  lemma TouchesWhen(rows: Rows, scope: set<Id>, f: Filter, p: Pair)
    requires f.status.None? && f.to.None?
    ensures Touches(rows, scope, f, p)
            <==> && (f.endpoint.Some? ==> p.1 == f.endpoint.value)
                 && exists id :: id in scope && id in rows && PairOf(rows[id]) == p
                                 && (f.from.Some? ==> f.from.value <= rows[id].createdAt)
  {
  }

  /** Filters by endpoint and by start date only narrow a replay: to the endpoint, and to the pairs that
      have an attempt from that date on. */
  lemma ScopeFiltersNarrow(rows: Rows, scope: set<Id>, f: Filter, pairs: set<Pair>, filtered: set<Pair>, p: Pair)
    requires f.status.None? && f.to.None? && NoTies(rows, scope)
    requires Answer(rows, scope, pairs) && Answer(rows, Passing(rows, scope, f), filtered)
    ensures p in filtered <==>
              && p in pairs
              && (f.endpoint.Some? ==> p.1 == f.endpoint.value)
              && exists id :: id in scope && id in rows && PairOf(rows[id]) == p
                              && (f.from.Some? ==> f.from.value <= rows[id].createdAt)
  {
    TouchesWhen(rows, scope, f, p);
    if p in filtered {
      var y :| IsLatest(rows, Passing(rows, scope, f), y) && PairOf(rows[y]) == p && Retryable(rows, y);
      if p !in pairs {
        assert Kept(rows, scope, p, false);
      }
      var z :| IsLatest(rows, scope, z) && PairOf(rows[z]) == p && Retryable(rows, z) == (p in pairs);
      LatestOfPair(rows, scope, f, y, z);
      FilterAgreesOnLatest(rows, scope, f, pairs, filtered, z);
    } else if p in pairs && Touches(rows, scope, f, p) {
      var id :| id in Passing(rows, scope, f) && PairOf(rows[id]) == p;
      var z :| IsLatest(rows, scope, z) && PairOf(rows[z]) == p && Retryable(rows, z);
      LatestOfPair(rows, scope, f, id, z);
      FilterAgreesOnLatest(rows, scope, f, pairs, filtered, z);
    }
  }

  // ---------- what a replay inserts, from the rows alone ----------

  /** An attempt of one of the application's events that meets every condition given. */
  predicate InReach(rows: Rows, eventApp: map<Id, Id>, app: Id, f: Filter, id: Id) {
    && id in rows && rows[id].event in eventApp && eventApp[rows[id].event] == app
    && (f.status.None? || f.status == Some(rows[id].status))
    && (f.endpoint.None? || f.endpoint == Some(rows[id].endpoint))
    && (f.from.None? || f.from.value <= rows[id].createdAt)
    && (f.to.None? || rows[id].createdAt <= f.to.value)
  }

  /** Every pair replayed has a failed attempt in reach that no attempt of the pair in reach is newer
      than, and so has no pair left out. */
  ghost predicate ReplaysFailed(rows: Rows, eventApp: map<Id, Id>, app: Id, f: Filter, pairs: set<Pair>) {
    && (forall p <- pairs ::
          && p.0 in eventApp && eventApp[p.0] == app && (f.endpoint.Some? ==> p.1 == f.endpoint.value)
          && exists id :: && InReach(rows, eventApp, app, f, id) && rows[id].event == p.0 && rows[id].endpoint == p.1
                          && (rows[id].status.Failed? || rows[id].status.DeadLetter?)
                          && forall y :: InReach(rows, eventApp, app, f, y) && rows[y].event == p.0 && rows[y].endpoint == p.1
                                         ==> rows[y].createdAt <= rows[id].createdAt)
    && (forall id :: && InReach(rows, eventApp, app, f, id)
                     && (forall y :: InReach(rows, eventApp, app, f, y) && rows[y].event == rows[id].event
                                     && rows[y].endpoint == rows[id].endpoint && rows[id].createdAt <= rows[y].createdAt
                                     ==> rows[y].status.Failed? || rows[y].status.DeadLetter?)
                     ==> (rows[id].event, rows[id].endpoint) in pairs)
  }

  lemma BatchReplaysFailed(rows: Rows, eventApp: map<Id, Id>, app: Id, f: Filter, pairs: set<Pair>)
    requires Answer(rows, Passing(rows, AppScope(rows, eventApp, app), f), pairs)
    ensures ReplaysFailed(rows, eventApp, app, f, pairs)
  {
    var scope := Passing(rows, AppScope(rows, eventApp, app), f);
    assert forall id :: id in scope <==> InReach(rows, eventApp, app, f, id);
    forall p | p in pairs
      ensures p.0 in eventApp && eventApp[p.0] == app && (f.endpoint.Some? ==> p.1 == f.endpoint.value)
      ensures exists id :: && InReach(rows, eventApp, app, f, id) && rows[id].event == p.0 && rows[id].endpoint == p.1
                           && (rows[id].status.Failed? || rows[id].status.DeadLetter?)
                           && forall y :: InReach(rows, eventApp, app, f, y) && rows[y].event == p.0 && rows[y].endpoint == p.1
                                          ==> rows[y].createdAt <= rows[id].createdAt
    {
      var id :| IsLatest(rows, scope, id) && PairOf(rows[id]) == p && Retryable(rows, id);
      assert InReach(rows, eventApp, app, f, id);
    }
    forall id | && InReach(rows, eventApp, app, f, id)
                && forall y :: InReach(rows, eventApp, app, f, y) && rows[y].event == rows[id].event
                               && rows[y].endpoint == rows[id].endpoint && rows[id].createdAt <= rows[y].createdAt
                               ==> rows[y].status.Failed? || rows[y].status.DeadLetter?
      ensures (rows[id].event, rows[id].endpoint) in pairs
    {
      assert id in scope && PairOf(rows[id]) == (rows[id].event, rows[id].endpoint);
    }
  }

  const NO_FILTER: Filter := Filter(None, None, None, None)

  /** A replay of one event is the replay of an application that has no other. */
  lemma EventReplaysFailed(rows: Rows, eventApp: map<Id, Id>, app: Id, event: Id, pairs: set<Pair>)
    requires Answer(rows, if event in eventApp && eventApp[event] == app then EventScope(rows, event) else {}, pairs)
    ensures ReplaysFailed(rows, if event in eventApp then map[event := eventApp[event]] else map[], app, NO_FILTER, pairs)
  {
    var own := if event in eventApp then map[event := eventApp[event]] else map[];
    var scope := if event in eventApp && eventApp[event] == app then EventScope(rows, event) else {};
    assert Passing(rows, AppScope(rows, own, app), NO_FILTER) == scope;
    BatchReplaysFailed(rows, own, app, NO_FILTER, pairs);
  }

  predicate HasFailed(s: Status) {
    s.Failed? || s.DeadLetter?
  }

  predicate Satisfiable(f: Filter) {
    f.from.Some? && f.to.Some? ==> f.from.value <= f.to.value
  }

  /** What a caller can read off the filter: it lets nothing through, or it asks for a status that is
      never replayed, or for none at all and sets no end date. */
  predicate Cautious(f: Filter) {
    !Satisfiable(f) || (if f.status.Some? then !HasFailed(f.status.value) else f.to.None?)
  }

  /** On every table the filtered replay inserts nothing the unfiltered one would not. */
  ghost predicate NeverAdds(f: Filter) {
    forall rows: Rows, scope: set<Id>, pairs: set<Pair>, filtered: set<Pair> ::
      NoTies(rows, scope) && Answer(rows, scope, pairs) && Answer(rows, Passing(rows, scope, f), filtered) ==> filtered <= pairs
  }

  /** On every table it leaves alone the pairs whose latest row is delivered. */
  ghost predicate SparesDelivered(f: Filter) {
    forall rows: Rows, scope: set<Id>, filtered: set<Pair>, id: Id ::
      NoTies(rows, scope) && IsLatest(rows, scope, id) && rows[id].status.Delivered? && Answer(rows, Passing(rows, scope, f), filtered)
      ==> PairOf(rows[id]) !in filtered
  }

  lemma CautiousReplay(rows: Rows, scope: set<Id>, f: Filter, filtered: set<Pair>, id: Id)
    requires Cautious(f) && NoTies(rows, scope) && Answer(rows, Passing(rows, scope, f), filtered)
    requires IsLatest(rows, scope, id) && PairOf(rows[id]) in filtered
    ensures Retryable(rows, id)
  {
    var y :| IsLatest(rows, Passing(rows, scope, f), y) && PairOf(rows[y]) == PairOf(rows[id]) && Retryable(rows, y);
    LatestOfPair(rows, scope, f, y, id);
    assert y == id;
  }

  lemma CautiousNeverAdds(rows: Rows, scope: set<Id>, f: Filter, pairs: set<Pair>, filtered: set<Pair>, p: Pair)
    requires Cautious(f) && NoTies(rows, scope) && p in filtered
    requires Answer(rows, scope, pairs) && Answer(rows, Passing(rows, scope, f), filtered)
    ensures p in pairs
  {
    var y :| IsLatest(rows, Passing(rows, scope, f), y) && PairOf(rows[y]) == p && Retryable(rows, y);
    if p !in pairs {
      var z :| IsLatest(rows, scope, z) && PairOf(rows[z]) == p && !Retryable(rows, z);
      CautiousReplay(rows, scope, f, filtered, z);
    }
  }

  /** A failed attempt that passes the filter, and a delivered one of the same pair, later, that does not. */
  function Recovered(f: Filter): Rows {
    var endpoint := if f.endpoint.Some? then f.endpoint.value else 0;
    var failedAt := if f.from.Some? then f.from.value else 0;
    var deliveredAt := if f.to.Some? then f.to.value + 1 else failedAt + 1;
    map[1 := Attempt(0, endpoint, if f.status.Some? then f.status.value else Failed, 1, None, None, failedAt, failedAt),
        2 := Attempt(0, endpoint, Delivered, 1, None, None, deliveredAt, deliveredAt)]
  }

  lemma LatestKept(rows: Rows, scope: set<Id>, id: Id)
    requires IsLatest(rows, scope, id)
    ensures Kept(rows, scope, PairOf(rows[id]), Retryable(rows, id))
  {
  }

  lemma RecoveredPair(rows: Rows, f: Filter)
    requires rows.Keys == {1, 2} && PairOf(rows[1]) == PairOf(rows[2]) && rows[1].createdAt < rows[2].createdAt
    requires Retryable(rows, 1) && rows[2].status.Delivered? && Matches(f, rows[1]) && !Matches(f, rows[2])
    ensures NoTies(rows, {1, 2}) && IsLatest(rows, {1, 2}, 2)
    ensures Answer(rows, {1, 2}, {}) && Answer(rows, Passing(rows, {1, 2}, f), {PairOf(rows[2])})
  {
    assert Passing(rows, {1, 2}, f) == {1};
    LatestKept(rows, {1, 2}, 2);
    LatestKept(rows, {1}, 1);
    hide Kept, Passing, PairOf, IsLatest, Matches;
  }

  /** Exactly the cautious filters are safe: any other replays, on some table, a pair that was delivered
      since, because an older row is the latest that passes it. */
  lemma WhenFilterIsSafe(f: Filter)
    ensures NeverAdds(f) <==> Cautious(f)
    ensures SparesDelivered(f) <==> Cautious(f)
  {
    if Cautious(f) {
      hide Answer, NoTies, Passing, Cautious;
      forall rows: Rows, scope: set<Id>, pairs: set<Pair>, filtered: set<Pair>
        | NoTies(rows, scope) && Answer(rows, scope, pairs) && Answer(rows, Passing(rows, scope, f), filtered)
        ensures filtered <= pairs
      {
        forall p | p in filtered ensures p in pairs {
          CautiousNeverAdds(rows, scope, f, pairs, filtered, p);
        }
      }
      forall rows: Rows, scope: set<Id>, filtered: set<Pair>, id: Id
        | NoTies(rows, scope) && IsLatest(rows, scope, id) && rows[id].status.Delivered? && Answer(rows, Passing(rows, scope, f), filtered)
        ensures PairOf(rows[id]) !in filtered
      {
        if PairOf(rows[id]) in filtered {
          CautiousReplay(rows, scope, f, filtered, id);
        }
      }
    } else {
      var rows := Recovered(f);
      assert rows.Keys == {1, 2};
      RecoveredPair(rows, f);
    }
  }
}
