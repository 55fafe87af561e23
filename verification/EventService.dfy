/** internal/repository/event_repo.go and internal/service/event_service.go, statement by statement. */
module EventService {
  import opened Models
  import opened Table
  import opened DeliveryRepository
  import FanOut
  import Ingest
  import Replay

  datatype ReplayAnswer = Replayed(targets: seq<(Id, Id)>) | EventNotFound | ReplayFailed

  /** What the caller cannot decide: whether each lookup, the event type with its subscriptions and
      the commit go through. */
  datatype Fate = Fate(firstLookup: bool, resolve: bool, commit: bool, secondLookup: bool)

  /** What a request asks for, and the state of the subscriptions when the join runs. */
  datatype Audience = Audience(view: FanOut.State, app: Id, name: string, recipient: string)

  function Subscribed(a: Audience): seq<Id> {
    FanOut.Join(a.view, a.app, a.name, a.recipient, a.view.subscriptions)
  }

  predicate Wanted(a: Audience, endpoint: Id) {
    FanOut.Wanted(a.view, a.app, a.name, a.recipient, endpoint)
  }

  predicate AttemptAt(rows: Rows, id: Id, event: Id, endpoint: Id) {
    id in rows && rows[id].event == event && rows[id].endpoint == endpoint
  }

  /** The attempts of the event are one fresh one for each wanted endpoint, and no others. */
  ghost predicate Reaches(rows: Rows, event: Id, a: Audience, now: nat) {
    && (forall id <- rows :: rows[id].event == event
                             ==> rows[id] == NewAttempt(event, rows[id].endpoint, now) && Wanted(a, rows[id].endpoint))
    && (forall x, y, ep: Id :: AttemptAt(rows, x, event, ep) && AttemptAt(rows, y, event, ep) ==> x == y)
    && (forall ep: Id :: Wanted(a, ep) ==> exists id: Id :: AttemptAt(rows, id, event, ep))
  }

  function AttemptsOf(rows: Rows, event: Id): set<Id> {
    set id | id in rows && rows[id].event == event
  }

  predicate AllExist(targets: seq<Id>, endpoints: set<Id>) {
    forall t <- targets :: t in endpoints
  }

  datatype Created = CreatedEvent(id: Id) | DuplicateKey | InsertFailed

  function Targets(event: Id, endpoints: seq<Id>): seq<(Id, Id)> {
    seq(|endpoints|, k requires 0 <= k < |endpoints| => (event, endpoints[k]))
  }

  /** Where the attempts of a new event end up. */
  lemma NewEventRows(rows: Rows, next: Id, event: Id, targets: seq<Id>, now: nat)
    requires forall id <- rows :: id < next && rows[id].event != event
    ensures var after := InsertRows(rows, next, Targets(event, targets), now);
            && (forall id: Id :: id in after && after[id].event == event <==> next <= id < next + |targets|)
            && (forall k :: 0 <= k < |targets| ==> after[next + k] == NewAttempt(event, targets[k], now))
  {
    InsertedRows(rows, next, Targets(event, targets), now);
    var after := InsertRows(rows, next, Targets(event, targets), now);
    forall k | 0 <= k < |targets| ensures after[next + k] == NewAttempt(event, targets[k], now) {
      assert Targets(event, targets)[k] == (event, targets[k]);
    }
    forall id: Id | next <= id < next + |targets| ensures after[id].event == event {
      assert after[next + (id - next)] == NewAttempt(event, targets[id - next], now);
    }
  }

  lemma IdRange(ids: set<Id>, from: nat, count: nat)
    requires forall id: Id :: id in ids <==> from <= id < from + count
    ensures |ids| == count
  {
    if count == 0 {
      assert ids == {};
    } else {
      IdRange(ids - {from + count - 1}, from, count - 1);
    }
  }

  /** Every other row is as it was, and the new event has as many attempts as targets. */
  lemma RowsOfNewEvent(rows: Rows, next: Id, event: Id, targets: seq<Id>, now: nat)
    requires forall id <- rows :: id < next && rows[id].event != event
    ensures var after := InsertRows(rows, next, Targets(event, targets), now);
            && (forall id <- after :: id < next + |targets| && (after[id].event == event || (id in rows && after[id] == rows[id])))
            && |AttemptsOf(after, event)| == |targets|
  {
    NewEventRows(rows, next, event, targets, now);
    InsertedRows(rows, next, Targets(event, targets), now);
    IdRange(AttemptsOf(InsertRows(rows, next, Targets(event, targets), now), event), next, |targets|);
  }

  lemma RowsReach(rows: Rows, next: Id, event: Id, a: Audience, now: nat)
    requires FanOut.Invariant(a.view)
    requires forall id: Id :: id in rows && rows[id].event == event <==> next <= id < next + |Subscribed(a)|
    requires forall k :: 0 <= k < |Subscribed(a)| ==> rows[next + k] == NewAttempt(event, Subscribed(a)[k], now)
    ensures Reaches(rows, event, a, now)
  {
    FanOut.JoinIsExact(a.view, a.app, a.name, a.recipient);
    hide FanOut.Invariant, FanOut.Wanted, FanOut.Join;
    var targets := Subscribed(a);
    forall id | id in rows && rows[id].event == event
      ensures rows[id] == NewAttempt(event, rows[id].endpoint, now) && rows[id].endpoint == targets[id - next]
    {
      assert rows[next + (id - next)] == NewAttempt(event, targets[id - next], now);
    }
    forall ep: Id | Wanted(a, ep) ensures exists id: Id :: AttemptAt(rows, id, event, ep) {
      var k :| 0 <= k < |targets| && targets[k] == ep;
      assert AttemptAt(rows, next + k, event, ep);
    }
  }

  lemma NewEventReaches(rows: Rows, next: Id, event: Id, a: Audience, now: nat)
    requires FanOut.Invariant(a.view) && forall id <- rows :: id < next && rows[id].event != event
    ensures Reaches(InsertRows(rows, next, Targets(event, Subscribed(a)), now), event, a, now)
  {
    NewEventRows(rows, next, event, Subscribed(a), now);
    RowsReach(InsertRows(rows, next, Targets(event, Subscribed(a)), now), next, event, a, now);
  }

  class EventRepository {
    // the attempts this session inserted
    ghost var own: set<Id>
    var events: map<Id, Ingest.Event>
    var rows: Rows
    var nextEvent: Id
    var nextId: Id

    /** Ids are fresh, every attempt belongs to an event, and the unique index holds. */
    ghost predicate Valid()
      reads this
    {
      && (forall x <- events :: x < nextEvent)
      && (forall id <- rows :: id < nextId && rows[id].event in events)
      && (forall x, y | x in events && y in events && Ingest.Clashes(events[x], events[y]) :: x == y)
    }

    ghost predicate KeyTaken(event: Ingest.Event)
      reads this
    {
      exists x <- events :: Ingest.Clashes(event, events[x])
    }

    constructor ()
      ensures Valid() && events == map[] && rows == map[] && own == {}
    {
      events, rows, nextEvent, nextId, own := map[], map[], 0, 0, {};
    }

    /** What other sessions may commit between two statements of this one: more events and rows,
        and new states of old rows. */
    method Others()
      requires Valid()
      modifies this
      ensures Valid() && nextEvent >= old(nextEvent) && own == old(own)
      ensures forall x <- old(events) :: x in events && events[x] == old(events)[x]
    {
      var events': map<Id, Ingest.Event>, rows': Rows, nextEvent': Id, nextId': Id := *, *, *, *;
      if && nextEvent <= nextEvent'
         && (forall x <- events :: x in events' && events'[x] == events[x])
         && (forall x <- events' :: x < nextEvent')
         && (forall id <- rows' :: id < nextId' && rows'[id].event in events')
         && (forall x, y | x in events' && y in events' && Ingest.Clashes(events'[x], events'[y]) :: x == y)
      {
        events, rows, nextEvent, nextId := events', rows', nextEvent', nextId';
      }
    }

    method GetByIdempotencyKey(app: Id, key: string) returns (found: Option<Id>)
      requires Valid()
      ensures found.Some? ==> found.value in events && events[found.value] == Ingest.Event(app, Some(key))
      ensures found.None? ==> !KeyTaken(Ingest.Event(app, Some(key)))
    {
      var wanted := Ingest.Event(app, Some(key));
      if exists x <- events :: Ingest.Clashes(wanted, events[x]) {
        var x :| x in events && Ingest.Clashes(wanted, events[x]);
        return Some(x);
      }
      return None;
    }

    /** One transaction: the event and one attempt per endpoint, or nothing at all. `endpoints` are
        the rows the foreign key finds; `commits` says whether COMMIT succeeds. */
    method CreateWithAttempts(event: Ingest.Event, targets: seq<Id>, endpoints: set<Id>, now: nat, commits: bool) returns (r: Created)
      requires Valid()
      modifies this
      ensures Valid()
      ensures r.DuplicateKey? <==> old(KeyTaken(event))
      ensures r.CreatedEvent? <==> !old(KeyTaken(event)) && AllExist(targets, endpoints) && commits
      ensures r.CreatedEvent? ==>
                && r.id !in old(events) && events == old(events)[r.id := event]
                && rows == InsertRows(old(rows), old(nextId), Targets(r.id, targets), now)
      ensures r.CreatedEvent? ==> own == old(own) + AttemptsOf(rows, r.id) && |AttemptsOf(rows, r.id)| == |targets|
      ensures !r.CreatedEvent? ==> events == old(events) && rows == old(rows) && own == old(own)
    {
      if exists x <- events :: Ingest.Clashes(event, events[x]) {
        return DuplicateKey;
      }
      // what the open transaction has inserted so far is its own until it commits
      var id, txRows, txNext := nextEvent, rows, nextId;
      ghost var drafts := Targets(id, targets);
      var k := 0;
      while k < |targets|
        invariant 0 <= k <= |targets|
        invariant forall t <- targets[..k] :: t in endpoints
        invariant InsertRows(txRows, txNext, drafts[k..], now) == InsertRows(rows, nextId, drafts, now)
        invariant txNext == nextId + k
      {
        if targets[k] !in endpoints {
          return InsertFailed;
        }
        assert drafts[k..][1..] == drafts[k + 1..];
        assert targets[..k + 1] == targets[..k] + [targets[k]];
        txRows := txRows[txNext := NewAttempt(id, targets[k], now)];
        txNext := txNext + 1;
        k := k + 1;
      }
      assert targets[..k] == targets;
      if !commits {
        return InsertFailed;
      }
      RowsOfNewEvent(rows, nextId, id, targets, now);
      rows, nextId := txRows, txNext;
      events, nextEvent := events[id := event], nextEvent + 1;
      own := own + AttemptsOf(rows, id);
      return CreatedEvent(id);
    }
  }

  class EventService {
    const repo: EventRepository
    const deliveries: DeliveryRepository

    constructor (repo: EventRepository, deliveries: DeliveryRepository)
      ensures this.repo == repo && this.deliveries == deliveries
    {
      this.repo, this.deliveries := repo, deliveries;
    }

    /** Ingest with other sessions at work between any two statements. Either this call creates the
        event, with one attempt for every endpoint its audience wants, or it inserts nothing. */
    method SendEvent(key: Option<string>, audience: Audience, endpoints: set<Id>, now: nat, fate: Fate)
      returns (answer: Ingest.Answer, ghost creates: bool)
      requires repo.Valid() && FanOut.Invariant(audience.view)
      modifies repo
      ensures repo.Valid()
      ensures forall x <- old(repo.events) :: x in repo.events && repo.events[x] == old(repo.events)[x]
      ensures answer.Ok? ==> answer.event in repo.events && repo.events[answer.event] == Ingest.Event(audience.app, key)
      ensures creates ==> answer.Ok? && answer.event !in old(repo.events) && Reaches(repo.rows, answer.event, audience, now)
      ensures creates ==> repo.own == old(repo.own) + AttemptsOf(repo.rows, answer.event)
      ensures creates ==> answer.queued == |AttemptsOf(repo.rows, answer.event)|
      ensures !creates ==> repo.own == old(repo.own) && (answer.Ok? ==> answer.queued == 0)
      ensures old(repo.KeyTaken(Ingest.Event(audience.app, key))) ==> !creates && (fate.firstLookup ==> answer.Ok?)
      ensures fate.resolve && AllExist(Subscribed(audience), endpoints) && fate.commit && fate.secondLookup ==> answer.Ok?
      ensures creates ==> fate.resolve && fate.commit && AllExist(Subscribed(audience), endpoints)
      ensures answer.Ok? && !creates ==>
                key.Some? && ((fate.firstLookup && old(repo.KeyTaken(Ingest.Event(audience.app, key)))) || (fate.resolve && fate.secondLookup))
    {
      creates := false;
      var event := Ingest.Event(audience.app, key);
      if key.Some? {
        if fate.firstLookup {
          var existing := repo.GetByIdempotencyKey(audience.app, key.value);
          if existing.Some? {
            return Ingest.Ok(existing.value, 0), false;
          }
        }
      }
      hide FanOut.Invariant, Reaches;
      repo.Others();
      if !fate.resolve {
        return Ingest.Error, false;
      }
      var targets := FanOut.GetSubscribedEndpoints(audience.view, audience.app, audience.name, audience.recipient);
      repo.Others();
      ghost var rows, next := repo.rows, repo.nextId;
      var created := repo.CreateWithAttempts(event, targets, endpoints, now, fate.commit);
      if created.CreatedEvent? {
        NewEventReaches(rows, next, created.id, audience, now);
        return Ingest.Ok(created.id, |targets|), true;
      }
      if created.DuplicateKey? && key.Some? {
        repo.Others();
        if fate.secondLookup {
          var existing := repo.GetByIdempotencyKey(audience.app, key.value);
          if existing.Some? {
            return Ingest.Ok(existing.value, 0), false;
          }
        }
      }
      return Ingest.Error, false;
    }

    /** A replay of the failed pairs of one event, or of every subscribed endpoint (`targets`, None when
        a query failed). Another application's event is not found, and an error inserts nothing. */
    method ReplayEvent(app: Id, event: Id, failedOnly: bool, targets: Option<seq<Id>>, endpoints: map<Id, Endpoint>, now: nat)
      returns (r: ReplayAnswer)
      requires repo.Valid() && deliveries.Valid()
      modifies deliveries
      ensures deliveries.Valid()
      ensures r.EventNotFound? <==> event !in repo.events || repo.events[event].app != app
      ensures !r.Replayed? ==> deliveries.rows == old(deliveries.rows)
      ensures r.Replayed? ==> deliveries.rows == InsertRows(old(deliveries.rows), old(deliveries.nextId), r.targets, now)
      ensures r.Replayed? && failedOnly ==>
                && NoRepeats(r.targets)
                && Replay.Answer(old(deliveries.rows), Replay.EventScope(old(deliveries.rows), event), Replay.SetOf(r.targets))
      ensures r.Replayed? && !failedOnly ==> targets.Some? && r.targets == Targets(event, targets.value)
      ensures r.ReplayFailed? <==> !r.EventNotFound? && !failedOnly && (targets.None? || exists t <- targets.value :: t !in endpoints)
    {
      if event !in repo.events || repo.events[event].app != app {
        return EventNotFound;
      }
      if failedOnly {
        var eventApp := map x | x in repo.events :: repo.events[x].app;
        var failed := deliveries.ReplayFailedAttemptsByEvent(app, event, eventApp, now);
        return Replayed(failed);
      }
      if targets.None? {
        return ReplayFailed;
      }
      var drafts := Targets(event, targets.value);
      assert forall k :: 0 <= k < |drafts| ==> drafts[k].1 == targets.value[k] && drafts[k] in drafts;
      var ok := deliveries.CreateAttempts(drafts, endpoints, now);
      if !ok {
        return ReplayFailed;
      }
      return Replayed(drafts);
    }
  }
}
