/** Event ingest: any number of SendEvent calls, each a sequence of separate statements and one
    transaction, against the unique index on (application_id, idempotency_key), while endpoints, event
    types and subscriptions change beside them.
    (internal/service/event_service.go, internal/repository/event_repo.go) */
module Ingest {
  import opened Models
  import FanOut

  /** A blank key counts as none, and is stored as none. */
  datatype Event = Event(app: Id, key: Option<string>)

  /** What SendEvent returns: the event and the number of deliveries it says it queued. */
  datatype Answer = Ok(event: Id, queued: nat) | Error

  datatype Phase =
    | Looking                                            // before GetByIdempotencyKey
    | Resolving                                          // before the event type and subscriptions are read
    | Inserting(targets: seq<Id>)                        // before BEGIN / INSERT INTO events
    | InTx(event: Id, targets: seq<Id>, inserted: nat)   // event row inserted, attempts under way
    | Losing                                             // the unique index refused: before the second lookup
    | Done(answer: Answer)

  /** `name` and `recipient` select the endpoints the event goes to. */
  datatype Call = Call(event: Event, name: string, recipient: string, phase: Phase)

  /** `attempts` holds the endpoints of the rows each committed event came with, `creator` whose call
      made it, and `fan` the tables the join reads. */
  datatype State = State(
    calls: map<Id, Call>,
    events: map<Id, Event>,
    attempts: map<Id, seq<Id>>,
    creator: map<Id, Id>,
    fan: FanOut.State,
    nextEvent: Id)

  datatype Step =
    | Begin(c: Id, event: Event, name: string, recipient: string)
    | LookupHit(c: Id, found: Id) | LookupMiss(c: Id)
    | Reject(c: Id) | Resolve(c: Id)
    | InsertEvent(c: Id) | InsertDuplicate(c: Id) | InsertFail(c: Id)
    | InsertAttempt(c: Id) | Rollback(c: Id) | Commit(c: Id, acknowledged: bool)
    | SecondHit(c: Id, found: Id) | SecondMiss(c: Id)
    | Change(change: FanOut.Step)   // someone else's statement on endpoints, event types or subscriptions

  predicate Clashes(a: Event, b: Event) {
    a.app == b.app && a.key.Some? && a.key == b.key
  }

  /** A committed event the unique index would refuse `e` for. */
  predicate Taken(s: State, e: Event) {
    exists x <- s.events :: Clashes(e, s.events[x])
  }

  /** Another open transaction has inserted the key: the insert waits for it. */
  predicate Blocked(s: State, e: Event) {
    exists c <- s.calls :: s.calls[c].phase.InTx? && Clashes(e, s.calls[c].event)
  }

  predicate Found(s: State, e: Event, x: Id) {
    x in s.events && Clashes(e, s.events[x])
  }

  /** A lookup may also fail for other reasons; SendEvent then goes on as if nothing was found. An
      attempt needs its endpoint still to exist. */
  predicate Enabled(s: State, st: Step) {
    match st
    case Begin(c, _, _, _) => c !in s.calls
    case LookupHit(c, found) => c in s.calls && s.calls[c].phase.Looking? && Found(s, s.calls[c].event, found)
    case LookupMiss(c) => c in s.calls && s.calls[c].phase.Looking?
    case Reject(c) => c in s.calls && s.calls[c].phase.Resolving?
    case Resolve(c) => c in s.calls && s.calls[c].phase.Resolving?
    case InsertEvent(c) =>
      c in s.calls && s.calls[c].phase.Inserting? && !Taken(s, s.calls[c].event) && !Blocked(s, s.calls[c].event)
    case InsertDuplicate(c) => c in s.calls && s.calls[c].phase.Inserting? && Taken(s, s.calls[c].event)
    case InsertFail(c) => c in s.calls && s.calls[c].phase.Inserting?
    case InsertAttempt(c) =>
      && c in s.calls && s.calls[c].phase.InTx? && s.calls[c].phase.inserted < |s.calls[c].phase.targets|
      && s.calls[c].phase.targets[s.calls[c].phase.inserted] in s.fan.endpoints
    case Rollback(c) => c in s.calls && s.calls[c].phase.InTx?
    case Commit(c, _) => c in s.calls && s.calls[c].phase.InTx? && s.calls[c].phase.inserted == |s.calls[c].phase.targets|
    case SecondHit(c, found) => c in s.calls && s.calls[c].phase.Losing? && Found(s, s.calls[c].event, found)
    case SecondMiss(c) => c in s.calls && s.calls[c].phase.Losing?
    case Change(change) => FanOut.Enabled(s.fan, change)
  }

  /** What the join returns for the call. */
  function JoinFor(fan: FanOut.State, call: Call): seq<Id> {
    FanOut.Join(fan, call.event.app, call.name, call.recipient, fan.subscriptions)
  }

  function PhaseAfter(s: State, st: Step): Phase
    requires Enabled(s, st) && !st.Change?
  {
    match st
    case Begin(_, event, _, _) => if event.key.Some? then Looking else Resolving
    case LookupHit(_, found) => Done(Ok(found, 0))
    case LookupMiss(_) => Resolving
    case Reject(_) => Done(Error)
    case Resolve(c) => Inserting(JoinFor(s.fan, s.calls[c]))
    case InsertEvent(c) => InTx(s.nextEvent, s.calls[c].phase.targets, 0)
    case InsertDuplicate(c) => if s.calls[c].event.key.Some? then Losing else Done(Error)
    case InsertFail(_) => Done(Error)
    case InsertAttempt(c) => s.calls[c].phase.(inserted := s.calls[c].phase.inserted + 1)
    case Rollback(_) => Done(Error)
    case Commit(c, acknowledged) => Done(if acknowledged then Ok(s.calls[c].phase.event, |s.calls[c].phase.targets|) else Error)
    case SecondHit(_, found) => Done(Ok(found, 0))
    case SecondMiss(_) => Done(Error)
  }

  function Next(s: State, st: Step): State
    requires Enabled(s, st)
  {
    if st.Change? then s.(fan := FanOut.Next(s.fan, st.change)) else NextOf(s, st)
  }

  function NextOf(s: State, st: Step): State
    requires Enabled(s, st) && !st.Change?
  {
    var call := if st.Begin? then Call(st.event, st.name, st.recipient, PhaseAfter(s, st))
                else s.calls[st.c].(phase := PhaseAfter(s, st));
    var s1 := s.(calls := s.calls[st.c := call]);
    if st.InsertEvent? then s1.(nextEvent := s.nextEvent + 1)
    else if st.Commit? then
      var p := s.calls[st.c].phase;
      s1.(events := s.events[p.event := call.event], attempts := s.attempts[p.event := p.targets],
          creator := s.creator[p.event := st.c])
    else s1
  }

  const NOTHING: State := State(map[], map[], map[], map[], FanOut.NOTHING, 0)

  ghost predicate Run(states: seq<State>, steps: seq<Step>) {
    && |states| == |steps| + 1 && states[0] == NOTHING
    && forall k :: 0 <= k < |steps| ==> Enabled(states[k], steps[k]) && states[k + 1] == Next(states[k], steps[k])
  }

  // ---------- what every interleaving keeps ----------

  /** The unique index, over committed and uncommitted rows. */
  ghost predicate IndexOk(s: State) {
    && (forall x, y | x in s.events && y in s.events && Clashes(s.events[x], s.events[y]) :: x == y)
    && (forall c, x | c in s.calls && x in s.events && s.calls[c].phase.InTx? :: !Clashes(s.calls[c].event, s.events[x]))
    && (forall c, d | c in s.calls && d in s.calls && s.calls[c].phase.InTx? && s.calls[d].phase.InTx?
                      && Clashes(s.calls[c].event, s.calls[d].event) :: c == d)
  }

  ghost predicate IdsOk(s: State) {
    && s.events.Keys == s.attempts.Keys == s.creator.Keys
    && (forall x <- s.events :: x < s.nextEvent)
    && (forall c <- s.calls :: s.calls[c].phase.InTx? ==> s.calls[c].phase.event < s.nextEvent && s.calls[c].phase.event !in s.events)
    && (forall c, d | c in s.calls && d in s.calls && s.calls[c].phase.InTx? && s.calls[d].phase.InTx?
                      && s.calls[c].phase.event == s.calls[d].phase.event :: c == d)
  }

  /** What a call that returned reports: the creator its rows, everyone else none. */
  predicate AnswerOk(s: State, c: Id)
    requires c in s.calls
  {
    s.calls[c].phase.Done? && s.calls[c].phase.answer.Ok? ==>
      var a := s.calls[c].phase.answer;
      && a.event in s.events && a.event in s.attempts && a.event in s.creator
      && s.events[a.event] == s.calls[c].event
      && a.queued == (if s.creator[a.event] == c then |s.attempts[a.event]| else 0)
  }

  /** The call that created an event returned it with the number of its attempts, unless the
      acknowledgement of its commit was lost. */
  predicate CreatorOk(s: State, x: Id)
    requires x in s.creator
  {
    var c := s.creator[x];
    && x in s.attempts && x in s.events && c in s.calls && s.calls[c].phase.Done? && s.calls[c].event == s.events[x]
    && (s.calls[c].phase.answer == Ok(x, |s.attempts[x]|) || s.calls[c].phase.answer == Error)
  }

  ghost predicate CreatorsOk(s: State) {
    forall x <- s.creator :: CreatorOk(s, x)
  }

  ghost predicate Invariant(s: State) {
    IndexOk(s) && IdsOk(s) && CreatorsOk(s) && FanOut.Invariant(s.fan) && forall c <- s.calls :: AnswerOk(s, c)
  }

  lemma CommitKeepsIndex(s: State, st: Step)
    requires IndexOk(s) && Enabled(s, st) && st.Commit?
    ensures IndexOk(Next(s, st))
  {
    hide Clashes, Taken, Blocked, Found, JoinFor, FanOut.Next, FanOut.Enabled;
    forall x | x in s.events ensures Clashes(s.events[x], s.calls[st.c].event) == Clashes(s.calls[st.c].event, s.events[x]) {
      ClashesIsSymmetric(s.events[x], s.calls[st.c].event);
    }
    forall c | c in s.calls ensures Clashes(s.calls[c].event, s.calls[st.c].event) == Clashes(s.calls[st.c].event, s.calls[c].event) {
      ClashesIsSymmetric(s.calls[c].event, s.calls[st.c].event);
    }
  }

  lemma ClashesIsSymmetric(a: Event, b: Event)
    ensures Clashes(a, b) == Clashes(b, a)
  {
  }

  lemma InsertKeepsIndex(s: State, st: Step)
    requires IndexOk(s) && Enabled(s, st) && st.InsertEvent?
    ensures IndexOk(Next(s, st))
  {
    hide Clashes;
    forall c | c in s.calls ensures Clashes(s.calls[c].event, s.calls[st.c].event) == Clashes(s.calls[st.c].event, s.calls[c].event) {
      ClashesIsSymmetric(s.calls[c].event, s.calls[st.c].event);
    }
  }

  /** The index is about the events and the open transactions alone. */
  lemma SameOpenRows(s: State, s': State)
    requires IndexOk(s) && s'.events == s.events
    requires forall c <- s'.calls :: s'.calls[c].phase.InTx? ==>
               c in s.calls && s.calls[c].phase.InTx? && s'.calls[c].event == s.calls[c].event
    ensures IndexOk(s')
  {
    hide Clashes;
  }

  /** Only InsertEvent opens a row, and no step rewrites one. */
  lemma OpenRowsStay(s: State, st: Step, c: Id)
    requires Enabled(s, st) && c in Next(s, st).calls && Next(s, st).calls[c].phase.InTx? && !st.InsertEvent?
    ensures c in s.calls && s.calls[c].phase.InTx?
    ensures Next(s, st).calls[c].event == s.calls[c].event && Next(s, st).calls[c].phase.event == s.calls[c].phase.event
  {
    hide Taken, Blocked, Found, JoinFor, FanOut.Next, FanOut.Enabled;
  }

  lemma StepKeepsIndex(s: State, st: Step)
    requires IndexOk(s) && Enabled(s, st)
    ensures IndexOk(Next(s, st))
  {
    if st.Commit? {
      CommitKeepsIndex(s, st);
    } else if st.InsertEvent? {
      InsertKeepsIndex(s, st);
    } else {
      hide Enabled, IndexOk, PhaseAfter, FanOut.Next;
      forall c | c in Next(s, st).calls && Next(s, st).calls[c].phase.InTx?
        ensures c in s.calls && s.calls[c].phase.InTx? && Next(s, st).calls[c].event == s.calls[c].event
      {
        OpenRowsStay(s, st, c);
      }
      SameOpenRows(s, Next(s, st));
    }
  }

  lemma SameOpenIds(s: State, s': State)
    requires IdsOk(s) && s'.events == s.events && s'.attempts == s.attempts && s'.creator == s.creator && s'.nextEvent == s.nextEvent
    requires forall c <- s'.calls :: s'.calls[c].phase.InTx? ==>
               c in s.calls && s.calls[c].phase.InTx? && s'.calls[c].phase.event == s.calls[c].phase.event
    ensures IdsOk(s')
  {
  }

  lemma CommitKeepsIds(s: State, st: Step)
    requires IdsOk(s) && Enabled(s, st) && st.Commit?
    ensures IdsOk(Next(s, st))
  {
    hide Taken, Blocked, Found;
  }

  lemma InsertKeepsIds(s: State, st: Step)
    requires IdsOk(s) && Enabled(s, st) && st.InsertEvent?
    ensures IdsOk(Next(s, st))
  {
    hide Taken, Blocked, Found;
  }

  lemma StepKeepsIds(s: State, st: Step)
    requires IdsOk(s) && Enabled(s, st)
    ensures IdsOk(Next(s, st))
  {
    if st.Commit? {
      CommitKeepsIds(s, st);
    } else if st.InsertEvent? {
      InsertKeepsIds(s, st);
    } else {
      hide Enabled, IdsOk, PhaseAfter, FanOut.Next;
      forall c | c in Next(s, st).calls && Next(s, st).calls[c].phase.InTx?
        ensures c in s.calls && s.calls[c].phase.InTx? && Next(s, st).calls[c].phase.event == s.calls[c].phase.event
      {
        OpenRowsStay(s, st, c);
      }
      SameOpenIds(s, Next(s, st));
    }
  }

  /** What others do leaves a call's answer alone, and the event it names. */
  lemma StepKeepsOtherAnswer(s: State, st: Step, c: Id)
    requires IdsOk(s) && Enabled(s, st) && c in s.calls && (st.Change? || c != st.c) && AnswerOk(s, c)
    ensures AnswerOk(Next(s, st), c)
  {
    hide Taken, Blocked, Found, JoinFor, FanOut.Next, FanOut.Enabled;
  }

  lemma StepKeepsAnswer(s: State, st: Step, c: Id)
    requires Invariant(s) && Enabled(s, st) && c in Next(s, st).calls
    ensures AnswerOk(Next(s, st), c)
  {
    hide IndexOk, Taken, Blocked, JoinFor, FanOut.Next, FanOut.Enabled, FanOut.Invariant;
    if st.Change? || c != st.c {
      StepKeepsOtherAnswer(s, st, c);
    }
  }

  lemma CommitCreates(s: State, st: Step)
    requires IdsOk(s) && Enabled(s, st) && st.Commit?
    ensures var x := s.calls[st.c].phase.event;
            x !in s.creator && x in Next(s, st).creator && CreatorOk(Next(s, st), x)
  {
    hide Taken, Blocked, Found, JoinFor;
  }

  lemma StepKeepsCreator(s: State, st: Step, x: Id)
    requires IdsOk(s) && Enabled(s, st) && x in s.creator && CreatorOk(s, x)
    ensures x in Next(s, st).creator && CreatorOk(Next(s, st), x)
  {
    hide Taken, Blocked, Found, JoinFor, FanOut.Next, FanOut.Enabled;
  }

  lemma StepKeepsCreators(s: State, st: Step)
    requires IdsOk(s) && CreatorsOk(s) && Enabled(s, st)
    ensures CreatorsOk(Next(s, st))
  {
    if st.Commit? {
      CommitCreates(s, st);
    }
    var s' := Next(s, st);
    forall x | x in s'.creator ensures CreatorOk(s', x) {
      if x in s.creator {
        StepKeepsCreator(s, st, x);
      }
    }
    hide CreatorOk, IdsOk, Enabled, PhaseAfter, FanOut.Next;
  }

  lemma StepKeepsFan(s: State, st: Step)
    requires FanOut.Invariant(s.fan) && Enabled(s, st)
    ensures FanOut.Invariant(Next(s, st).fan)
  {
    hide FanOut.Invariant, FanOut.Next, FanOut.Enabled;
    if st.Change? {
      FanOut.StepKeepsInvariant(s.fan, st.change);
    }
  }

  lemma StepKeepsInvariant(s: State, st: Step)
    requires Invariant(s) && Enabled(s, st)
    ensures Invariant(Next(s, st))
  {
    StepKeepsIndex(s, st);
    StepKeepsIds(s, st);
    StepKeepsCreators(s, st);
    StepKeepsFan(s, st);
    hide IndexOk, IdsOk, CreatorsOk, AnswerOk, Next, Enabled, FanOut.Invariant;
    forall c | c in Next(s, st).calls ensures AnswerOk(Next(s, st), c) {
      StepKeepsAnswer(s, st, c);
    }
  }

  lemma {:induction false} RunKeepsInvariant(states: seq<State>, steps: seq<Step>, k: nat)
    requires Run(states, steps) && k < |states|
    ensures Invariant(states[k])
  {
    if k > 0 {
      RunKeepsInvariant(states, steps, k - 1);
      hide Invariant, Next, Enabled;
      StepKeepsInvariant(states[k - 1], steps[k - 1]);
    }
  }

  // ---------- idempotence ----------

  predicate Succeeded(s: State, c: Id, app: Id, key: string) {
    c in s.calls && s.calls[c].event == Event(app, Some(key)) && s.calls[c].phase.Done? && s.calls[c].phase.answer.Ok?
  }

  /** At most one event ever exists for a key, and every successful call returns that event. */
  lemma OneEventPerKey(states: seq<State>, steps: seq<Step>, k: nat, app: Id, key: string)
    requires Run(states, steps) && k < |states|
    ensures forall x, y | x in states[k].events && y in states[k].events
                          && states[k].events[x] == states[k].events[y] == Event(app, Some(key)) :: x == y
    ensures forall c, d | Succeeded(states[k], c, app, key) && Succeeded(states[k], d, app, key) ::
              states[k].calls[c].phase.answer.event == states[k].calls[d].phase.answer.event
  {
    RunKeepsInvariant(states, steps, k);
    var s := states[k];
    forall c | Succeeded(s, c, app, key) ensures AnswerOk(s, c) {
    }
  }

  /** Losers leave nothing: a call that was answered with someone else's event created no event, and
      so no attempts, in the whole run. Neither did a call that has not returned. */
  lemma LosersLeaveNothing(states: seq<State>, steps: seq<Step>, k: nat, c: Id, x: Id)
    requires Run(states, steps) && k < |states| && c in states[k].calls && x in states[k].creator
    requires var p := states[k].calls[c].phase;
             !p.Done? || (p.answer.Ok? && p.answer.event in states[k].creator && states[k].creator[p.answer.event] != c)
    ensures states[k].creator[x] != c
  {
    RunKeepsInvariant(states, steps, k);
    assert CreatorOk(states[k], x);
  }

  // ---------- losers are served ----------

  predicate LosersOk(s: State) {
    forall c <- s.calls :: s.calls[c].phase.Losing? ==> s.calls[c].event.key.Some? && Taken(s, s.calls[c].event)
  }

  lemma TakenStays(s: State, st: Step, e: Event)
    requires Enabled(s, st) && Taken(s, e) && IdsOk(s)
    ensures Taken(Next(s, st), e)
  {
    var x :| x in s.events && Clashes(e, s.events[x]);
    hide Clashes, Blocked, Found, JoinFor, FanOut.Next, FanOut.Enabled;
    assert x in Next(s, st).events && Next(s, st).events[x] == s.events[x];
  }

  lemma StepKeepsLosers(s: State, st: Step)
    requires Enabled(s, st) && IdsOk(s) && LosersOk(s)
    ensures LosersOk(Next(s, st))
  {
    hide Clashes, Blocked, Found, JoinFor, FanOut.Next, FanOut.Enabled, Taken, IdsOk;
    var s' := Next(s, st);
    forall c | c in s'.calls && s'.calls[c].phase.Losing? ensures s'.calls[c].event.key.Some? && Taken(s', s'.calls[c].event) {
      assert c in s.calls && s'.calls[c].event == s.calls[c].event && Taken(s, s.calls[c].event);
      TakenStays(s, st, s.calls[c].event);
    }
  }

  lemma {:induction false} RunKeepsLosers(states: seq<State>, steps: seq<Step>, k: nat)
    requires Run(states, steps) && k < |states|
    ensures LosersOk(states[k])
  {
    if k > 0 {
      RunKeepsLosers(states, steps, k - 1);
      RunKeepsInvariant(states, steps, k - 1);
      hide Next, Enabled, LosersOk, IdsOk, IndexOk, CreatorsOk, AnswerOk, FanOut.Invariant;
      StepKeepsLosers(states[k - 1], steps[k - 1]);
    }
  }

  /** A call the unique index refuses goes on to a second lookup, and from then on, whatever else
      happens, that lookup finds the event of its key and answers with it. */
  lemma LosersAreServed(states: seq<State>, steps: seq<Step>, j: nat, k: nat, c: Id) returns (x: Id)
    requires Run(states, steps) && j < k < |states| && j < |steps| && steps[j] == InsertDuplicate(c)
    requires forall m :: j < m < k ==> (steps[m].Change? || steps[m].c != c)
    ensures c in states[k].calls && states[k].calls[c].phase == Losing
    ensures x in states[k].events && states[k].events[x] == states[k].calls[c].event && states[k].calls[c].event.key.Some?
    ensures Enabled(states[k], SecondHit(c, x)) && Next(states[k], SecondHit(c, x)).calls[c].phase == Done(Ok(x, 0))
  {
    StaysLosing(states, steps, j, k, c);
    RunKeepsLosers(states, steps, k);
    var s := states[k];
    assert Taken(s, s.calls[c].event);
    x :| x in s.events && Clashes(s.calls[c].event, s.events[x]);
  }

  lemma {:induction false} StaysLosing(states: seq<State>, steps: seq<Step>, j: nat, k: nat, c: Id)
    requires Run(states, steps) && j < k < |states| && j < |steps| && steps[j] == InsertDuplicate(c)
    requires forall m :: j < m < k ==> (steps[m].Change? || steps[m].c != c)
    ensures c in states[k].calls && states[k].calls[c].phase == Losing
    decreases k - j
  {
    assert Enabled(states[k - 1], steps[k - 1]) && states[k] == Next(states[k - 1], steps[k - 1]);
    hide Run, Blocked, Found, JoinFor, FanOut.Next, FanOut.Enabled;
    if j + 1 < k {
      StaysLosing(states, steps, j, k - 1, c);
    }
  }

  // ---------- fan-out ----------

  /** Call c read its targets from the subscriptions as they stood before one of the first k steps. */
  ghost predicate ReadBefore(states: seq<State>, steps: seq<Step>, k: nat, c: Id, call: Call, targets: seq<Id>) {
    exists m: nat :: m < k && m < |states| && m < |steps| && steps[m] == Resolve(c) && targets == JoinFor(states[m].fan, call)
  }

  lemma ReadEarlier(states: seq<State>, steps: seq<Step>, k: nat, c: Id, call: Call, call': Call, targets: seq<Id>)
    requires ReadBefore(states, steps, k, c, call, targets)
    requires call.event == call'.event && call.name == call'.name && call.recipient == call'.recipient
    ensures ReadBefore(states, steps, k + 1, c, call', targets)
  {
    var m: nat :| m < k && m < |states| && m < |steps| && steps[m] == Resolve(c) && targets == JoinFor(states[m].fan, call);
    assert m < k + 1 && targets == JoinFor(states[m].fan, call');
  }

  predicate HasTargets(p: Phase) {
    p.Inserting? || p.InTx?
  }

  ghost predicate CallsFannedOut(states: seq<State>, steps: seq<Step>, k: nat)
    requires k < |states|
  {
    forall c <- states[k].calls :: HasTargets(states[k].calls[c].phase) ==>
      ReadBefore(states, steps, k, c, states[k].calls[c], states[k].calls[c].phase.targets)
  }

  ghost predicate EventsFannedOut(states: seq<State>, steps: seq<Step>, k: nat)
    requires k < |states|
  {
    forall x <- states[k].creator ::
      && x in states[k].attempts && states[k].creator[x] in states[k].calls
      && ReadBefore(states, steps, k, states[k].creator[x], states[k].calls[states[k].creator[x]], states[k].attempts[x])
  }

  /** A step keeps what a call asked for, and gives it targets only by the join. */
  lemma StepKeepsCall(s: State, st: Step, c: Id)
    requires Enabled(s, st) && c in Next(s, st).calls && (c in s.calls || HasTargets(Next(s, st).calls[c].phase))
    ensures c in s.calls
    ensures var call, call' := s.calls[c], Next(s, st).calls[c];
            && call.event == call'.event && call.name == call'.name && call.recipient == call'.recipient
            && (HasTargets(call'.phase) ==>
                  if st == Resolve(c) then call'.phase.targets == JoinFor(s.fan, call)
                  else HasTargets(call.phase) && call'.phase.targets == call.phase.targets)
  {
    hide Taken, Blocked, Found, JoinFor, FanOut.Next, FanOut.Enabled;
  }

  lemma StepFansCallsOut(states: seq<State>, steps: seq<Step>, k: nat)
    requires k + 1 < |states| && k < |steps| && Enabled(states[k], steps[k]) && states[k + 1] == Next(states[k], steps[k])
    requires CallsFannedOut(states, steps, k)
    ensures CallsFannedOut(states, steps, k + 1)
  {
    hide Enabled, Next, JoinFor, ReadBefore;
    var s, s' := states[k], states[k + 1];
    forall c | c in s'.calls && HasTargets(s'.calls[c].phase)
      ensures ReadBefore(states, steps, k + 1, c, s'.calls[c], s'.calls[c].phase.targets)
    {
      StepKeepsCall(s, steps[k], c);
      if steps[k] == Resolve(c) {
        ReadNow(states, steps, k, c, s.calls[c], s'.calls[c], s'.calls[c].phase.targets);
      } else {
        ReadEarlier(states, steps, k, c, s.calls[c], s'.calls[c], s.calls[c].phase.targets);
      }
    }
  }

  lemma ReadNow(states: seq<State>, steps: seq<Step>, k: nat, c: Id, call: Call, call': Call, targets: seq<Id>)
    requires k < |states| && k < |steps| && steps[k] == Resolve(c) && targets == JoinFor(states[k].fan, call)
    requires call.event == call'.event && call.name == call'.name && call.recipient == call'.recipient
    ensures ReadBefore(states, steps, k + 1, c, call', targets)
  {
    assert targets == JoinFor(states[k].fan, call');
  }

  /** An event comes to be with the targets of the call that commits it. */
  lemma StepKeepsEvent(s: State, st: Step, x: Id)
    requires CreatorsOk(s) && Enabled(s, st) && x in Next(s, st).creator
    ensures var s' := Next(s, st);
            && x in s'.attempts && s'.creator[x] in s.calls && s'.creator[x] in s'.calls
            && (if x in s.creator && s'.creator[x] == s.creator[x] && !(st.Commit? && s.calls[st.c].phase.event == x)
                then x in s.attempts && s'.attempts[x] == s.attempts[x]
                else HasTargets(s.calls[s'.creator[x]].phase) && s'.attempts[x] == s.calls[s'.creator[x]].phase.targets)
  {
    hide Taken, Blocked, Found, JoinFor, FanOut.Next, FanOut.Enabled;
    if x in s.creator {
      assert CreatorOk(s, x);
    }
  }

  lemma StepFansEventsOut(states: seq<State>, steps: seq<Step>, k: nat)
    requires k + 1 < |states| && k < |steps| && Enabled(states[k], steps[k]) && states[k + 1] == Next(states[k], steps[k])
    requires CreatorsOk(states[k]) && CallsFannedOut(states, steps, k) && EventsFannedOut(states, steps, k)
    ensures EventsFannedOut(states, steps, k + 1)
  {
    hide Enabled, Next, JoinFor, HasTargets, ReadBefore, CreatorsOk;
    var s, s' := states[k], states[k + 1];
    forall x | x in s'.creator
      ensures x in s'.attempts && s'.creator[x] in s'.calls
              && ReadBefore(states, steps, k + 1, s'.creator[x], s'.calls[s'.creator[x]], s'.attempts[x])
    {
      StepKeepsEvent(s, steps[k], x);
      var c := s'.creator[x];
      StepKeepsCall(s, steps[k], c);
      ReadEarlier(states, steps, k, c, s.calls[c], s'.calls[c], s'.attempts[x]);
    }
  }

  lemma {:induction false} RunFansOut(states: seq<State>, steps: seq<Step>, k: nat)
    requires Run(states, steps) && k < |states|
    ensures CallsFannedOut(states, steps, k) && EventsFannedOut(states, steps, k)
  {
    hide JoinFor, ReadBefore;
    if k > 0 {
      RunFansOut(states, steps, k - 1);
      RunKeepsInvariant(states, steps, k - 1);
      hide Next, Enabled, CallsFannedOut, EventsFannedOut;
      StepFansCallsOut(states, steps, k - 1);
      StepFansEventsOut(states, steps, k - 1);
    }
  }

  /** An event that exists came with exactly one attempt for every endpoint that the subscriptions
      wanted at the moment its creator read them, and none for any other, whoever raced for its key and
      however the subscriptions changed before and after. */
  lemma OneAttemptPerWantedEndpoint(states: seq<State>, steps: seq<Step>, k: nat, x: Id) returns (m: nat)
    requires Run(states, steps) && k < |states| && x in states[k].events
    ensures m < k && m < |steps| && x in states[k].attempts && x in states[k].creator && states[k].creator[x] in states[k].calls
    ensures steps[m] == Resolve(states[k].creator[x])
    ensures var sender := states[k].calls[states[k].creator[x]];
            && sender.event == states[k].events[x]
            && FanOut.Exactly(states[m].fan, sender.event.app, sender.name, sender.recipient, states[k].attempts[x])
  {
    RunKeepsInvariant(states, steps, k);
    RunFansOut(states, steps, k);
    var s := states[k];
    assert x in s.creator && CreatorOk(s, x);
    var c := s.creator[x];
    var call := s.calls[c];
    assert ReadBefore(states, steps, k, c, call, s.attempts[x]);
    m :| m < k && m < |states| && m < |steps| && steps[m] == Resolve(c) && s.attempts[x] == JoinFor(states[m].fan, call);
    RunKeepsInvariant(states, steps, m);
    FanOut.JoinIsExact(states[m].fan, call.event.app, call.name, call.recipient);
  }

  // ---------- foreign keys ----------

  /** Before step k call c inserted an attempt for the endpoint while the endpoint existed. */
  ghost predicate InsertedBefore(states: seq<State>, steps: seq<Step>, k: nat, c: Id, ep: Id) {
    exists j: nat :: j < k && j < |states| && j < |steps| && steps[j] == InsertAttempt(c) && ep in states[j].fan.endpoints
  }

  lemma InsertedEarlier(states: seq<State>, steps: seq<Step>, k: nat, c: Id, ep: Id)
    requires InsertedBefore(states, steps, k, c, ep)
    ensures InsertedBefore(states, steps, k + 1, c, ep)
  {
    var j: nat :| j < k && j < |states| && j < |steps| && steps[j] == InsertAttempt(c) && ep in states[j].fan.endpoints;
    assert j < k + 1;
  }

  ghost predicate OpenInserted(states: seq<State>, steps: seq<Step>, k: nat)
    requires k < |states|
  {
    forall c <- states[k].calls :: states[k].calls[c].phase.InTx? ==>
      var p := states[k].calls[c].phase;
      p.inserted <= |p.targets| && forall i :: 0 <= i < p.inserted ==> InsertedBefore(states, steps, k, c, p.targets[i])
  }

  ghost predicate EventsInserted(states: seq<State>, steps: seq<Step>, k: nat)
    requires k < |states|
  {
    forall x <- states[k].creator :: x in states[k].attempts &&
      forall i :: 0 <= i < |states[k].attempts[x]| ==> InsertedBefore(states, steps, k, states[k].creator[x], states[k].attempts[x][i])
  }

  /** A transaction opens with nothing inserted, and grows by one attempt at a time. */
  lemma StepKeepsOpen(s: State, st: Step, c: Id)
    requires Enabled(s, st) && c in Next(s, st).calls && Next(s, st).calls[c].phase.InTx?
    ensures var p := Next(s, st).calls[c].phase;
            if st == InsertEvent(c) then p.inserted == 0
            else c in s.calls && s.calls[c].phase.InTx? && p.targets == s.calls[c].phase.targets
                 && (if st == InsertAttempt(c)
                     then p.inserted == s.calls[c].phase.inserted + 1 <= |p.targets| && p.targets[p.inserted - 1] in s.fan.endpoints
                     else p.inserted == s.calls[c].phase.inserted)
  {
    hide Taken, Blocked, Found, JoinFor, FanOut.Next, FanOut.Enabled;
  }

  lemma StepInsertsOpen(states: seq<State>, steps: seq<Step>, k: nat)
    requires k + 1 < |states| && k < |steps| && Enabled(states[k], steps[k]) && states[k + 1] == Next(states[k], steps[k])
    requires OpenInserted(states, steps, k)
    ensures OpenInserted(states, steps, k + 1)
  {
    hide Enabled, Next, InsertedBefore;
    var s, s' := states[k], states[k + 1];
    forall c | c in s'.calls && s'.calls[c].phase.InTx?
      ensures s'.calls[c].phase.inserted <= |s'.calls[c].phase.targets|
      ensures forall i :: 0 <= i < s'.calls[c].phase.inserted ==> InsertedBefore(states, steps, k + 1, c, s'.calls[c].phase.targets[i])
    {
      StepKeepsOpen(s, steps[k], c);
      var p := s'.calls[c].phase;
      forall i | 0 <= i < p.inserted ensures InsertedBefore(states, steps, k + 1, c, p.targets[i]) {
        if steps[k] == InsertAttempt(c) && i == p.inserted - 1 {
          InsertedNow(states, steps, k, c, p.targets[i]);
        } else {
          InsertedEarlier(states, steps, k, c, p.targets[i]);
        }
      }
    }
  }

  lemma InsertedNow(states: seq<State>, steps: seq<Step>, k: nat, c: Id, ep: Id)
    requires k < |states| && k < |steps| && steps[k] == InsertAttempt(c) && ep in states[k].fan.endpoints
    ensures InsertedBefore(states, steps, k + 1, c, ep)
  {
    assert k < k + 1;
  }

  /** A new event has the attempts of the transaction that committed it, all inserted. */
  lemma CommittedWhole(s: State, st: Step, x: Id)
    requires IdsOk(s) && CreatorsOk(s) && Enabled(s, st) && x in Next(s, st).creator
    ensures x in Next(s, st).attempts
    ensures if x in s.creator then x in s.attempts && Next(s, st).creator[x] == s.creator[x] && Next(s, st).attempts[x] == s.attempts[x]
            else var c := Next(s, st).creator[x];
                 && c in s.calls && s.calls[c].phase.InTx? && Next(s, st).attempts[x] == s.calls[c].phase.targets
                 && s.calls[c].phase.inserted == |s.calls[c].phase.targets|
  {
    hide Taken, Blocked, Found, JoinFor, FanOut.Next, FanOut.Enabled;
    if x in s.creator {
      assert CreatorOk(s, x);
    }
  }

  lemma StepInsertsEvents(states: seq<State>, steps: seq<Step>, k: nat)
    requires k + 1 < |states| && k < |steps| && Enabled(states[k], steps[k]) && states[k + 1] == Next(states[k], steps[k])
    requires IdsOk(states[k]) && CreatorsOk(states[k]) && OpenInserted(states, steps, k) && EventsInserted(states, steps, k)
    ensures EventsInserted(states, steps, k + 1)
  {
    hide Enabled, Next, InsertedBefore, IdsOk, CreatorsOk;
    var s, s' := states[k], states[k + 1];
    forall x | x in s'.creator
      ensures x in s'.attempts
      ensures forall i :: 0 <= i < |s'.attempts[x]| ==> InsertedBefore(states, steps, k + 1, s'.creator[x], s'.attempts[x][i])
    {
      CommittedWhole(s, steps[k], x);
      forall i | 0 <= i < |s'.attempts[x]| ensures InsertedBefore(states, steps, k + 1, s'.creator[x], s'.attempts[x][i]) {
        InsertedEarlier(states, steps, k, s'.creator[x], s'.attempts[x][i]);
      }
    }
  }

  lemma {:induction false} RunInserts(states: seq<State>, steps: seq<Step>, k: nat)
    requires Run(states, steps) && k < |states|
    ensures OpenInserted(states, steps, k) && EventsInserted(states, steps, k)
  {
    hide InsertedBefore;
    if k > 0 {
      RunInserts(states, steps, k - 1);
      RunKeepsInvariant(states, steps, k - 1);
      hide Next, Enabled, OpenInserted, EventsInserted, IdsOk, CreatorsOk, IndexOk, AnswerOk, FanOut.Invariant;
      StepInsertsOpen(states, steps, k - 1);
      StepInsertsEvents(states, steps, k - 1);
    }
  }

  /** No event is committed with an attempt for an endpoint that was gone when the attempt was inserted:
      for every attempt of an event there is the step that inserted it while its endpoint existed. */
  lemma AttemptsHadEndpoints(states: seq<State>, steps: seq<Step>, k: nat, x: Id, i: nat) returns (j: nat)
    requires Run(states, steps) && k < |states| && x in states[k].events
    requires x in states[k].attempts ==> i < |states[k].attempts[x]|
    ensures x in states[k].attempts && x in states[k].creator
    ensures j < k && j < |steps| && steps[j] == InsertAttempt(states[k].creator[x])
    ensures states[k].attempts[x][i] in states[j].fan.endpoints
  {
    RunKeepsInvariant(states, steps, k);
    RunInserts(states, steps, k);
    var s := states[k];
    assert x in s.creator && CreatorOk(s, x);
    assert InsertedBefore(states, steps, k, s.creator[x], s.attempts[x][i]);
    j :| j < k && j < |states| && j < |steps| && steps[j] == InsertAttempt(s.creator[x]) && s.attempts[x][i] in states[j].fan.endpoints;
  }

  /** The queued counts of some calls, added up. */
  function Queued(s: State, calls: seq<Id>): nat {
    if calls == [] then 0
    else
      var c := calls[0];
      (if c in s.calls && s.calls[c].phase.Done? && s.calls[c].phase.answer.Ok? then s.calls[c].phase.answer.queued else 0)
      + Queued(s, calls[1..])
  }

  lemma SucceededReturns(s: State, c: Id, x: Id, app: Id, key: string)
    requires Invariant(s) && x in s.events && s.events[x] == Event(app, Some(key)) && Succeeded(s, c, app, key)
    ensures x in s.attempts && x in s.creator && c in s.calls && s.calls[c].phase.Done?
    ensures s.calls[c].phase.answer == Ok(x, if s.creator[x] == c then |s.attempts[x]| else 0)
  {
    hide CreatorsOk, FanOut.Invariant;
    assert AnswerOk(s, c);
  }

  lemma EventsAreRecorded(s: State, x: Id)
    requires Invariant(s) && x in s.events
    ensures x in s.attempts && x in s.creator
  {
    hide IndexOk, CreatorsOk, AnswerOk, FanOut.Invariant;
  }

  lemma QueuedByCreatorOnly(s: State, calls: seq<Id>, x: Id, app: Id, key: string)
    requires Invariant(s) && x in s.events && s.events[x] == Event(app, Some(key))
    requires forall a, b :: 0 <= a < b < |calls| ==> calls[a] != calls[b]
    requires forall c <- calls :: Succeeded(s, c, app, key)
    ensures x in s.attempts && x in s.creator
    ensures Queued(s, calls) == if s.creator[x] in calls then |s.attempts[x]| else 0
  {
    hide Invariant, Succeeded;
    EventsAreRecorded(s, x);
    if calls != [] {
      SucceededReturns(s, calls[0], x, app, key);
      QueuedByCreatorOnly(s, calls[1..], x, app, key);
    }
  }

  /** The counts that any set of successful callers were given add up to at most the rows the key's
      event has; to exactly those once its creator is among them. */
  lemma QueuedCountsAddUp(states: seq<State>, steps: seq<Step>, k: nat, calls: seq<Id>, x: Id, app: Id, key: string)
    requires Run(states, steps) && k < |states|
    requires x in states[k].events && states[k].events[x] == Event(app, Some(key))
    requires forall a, b :: 0 <= a < b < |calls| ==> calls[a] != calls[b]
    requires forall c <- calls :: Succeeded(states[k], c, app, key)
    ensures x in states[k].attempts && x in states[k].creator
    ensures Queued(states[k], calls) <= |states[k].attempts[x]|
    ensures states[k].creator[x] in calls ==> Queued(states[k], calls) == |states[k].attempts[x]|
  {
    RunKeepsInvariant(states, steps, k);
    QueuedByCreatorOnly(states[k], calls, x, app, key);
  }
}
