/** Subscriptions and the fan-out join. Subscribe checks both owners in separate statements before it
    inserts; the join never looks at the event type's owner and relies on those checks.
    (internal/service/subscription_service.go, internal/repository/subscription_repo.go) */
module FanOut {
  import opened Models

  datatype EventType = EventType(app: Id, name: string)

  datatype Subscription = Subscription(endpoint: Id, eventType: Id)

  /** A Subscribe call between its statements. */
  datatype Pending = CheckedEndpoint(app: Id, sub: Subscription) | CheckedBoth(app: Id, sub: Subscription)

  datatype State = State(
    endpoints: map<Id, Endpoint>,
    eventTypes: map<Id, EventType>,
    subscriptions: seq<Subscription>,
    calls: map<Id, Pending>,
    nextId: Id)

  datatype Step =
    | CreateEndpoint(e: Endpoint)
    | ChangeEndpoint(id: Id, e: Endpoint)   // Update, RecordDeliveryResult: any column but the owner
    | DeleteEndpoint(id: Id)
    | CreateEventType(t: EventType)
    | DeleteEventType(id: Id)
    | CheckEndpoint(c: Id, app: Id, sub: Subscription)
    | CheckEventType(c: Id)
    | InsertSubscription(c: Id)
    | DropCall(c: Id)
    | Unsubscribe(sub: Subscription)

  predicate Enabled(s: State, st: Step) {
    match st
    case CreateEventType(t) => forall x <- s.eventTypes :: s.eventTypes[x] != t
    case ChangeEndpoint(id, e) => id in s.endpoints && e.app == s.endpoints[id].app
    case CheckEndpoint(c, app, sub) => c !in s.calls && sub.endpoint in s.endpoints && s.endpoints[sub.endpoint].app == app
    case CheckEventType(c) =>
      && c in s.calls && s.calls[c].CheckedEndpoint?
      && s.calls[c].sub.eventType in s.eventTypes && s.eventTypes[s.calls[c].sub.eventType].app == s.calls[c].app
    case InsertSubscription(c) =>  // both foreign keys and the unique constraint
      && c in s.calls && s.calls[c].CheckedBoth?
      && s.calls[c].sub.endpoint in s.endpoints && s.calls[c].sub.eventType in s.eventTypes
      && s.calls[c].sub !in s.subscriptions
    case DropCall(c) => c in s.calls
    case _ => true
  }

  /** DELETE and ON DELETE CASCADE. */
  function Without(subs: seq<Subscription>, gone: Subscription -> bool): (r: seq<Subscription>)
    ensures forall x :: x in r <==> x in subs && !gone(x)
    ensures NoRepeats(subs) ==> NoRepeats(r)
  {
    if subs == [] then []
    else if gone(subs[0]) then Without(subs[1..], gone)
    else
      var rest := Without(subs[1..], gone);
      assert forall x <- rest :: x in subs[1..];
      [subs[0]] + rest
  }

  function Next(s: State, st: Step): State
    requires Enabled(s, st)
  {
    match st
    case CreateEndpoint(e) => s.(endpoints := s.endpoints[s.nextId := e], nextId := s.nextId + 1)
    case ChangeEndpoint(id, e) => s.(endpoints := s.endpoints[id := e])
    case DeleteEndpoint(id) =>
      s.(endpoints := s.endpoints - {id}, subscriptions := Without(s.subscriptions, (x: Subscription) => x.endpoint == id))
    case CreateEventType(t) => s.(eventTypes := s.eventTypes[s.nextId := t], nextId := s.nextId + 1)
    case DeleteEventType(id) =>
      s.(eventTypes := s.eventTypes - {id}, subscriptions := Without(s.subscriptions, (x: Subscription) => x.eventType == id))
    case CheckEndpoint(c, app, sub) => s.(calls := s.calls[c := CheckedEndpoint(app, sub)])
    case CheckEventType(c) => s.(calls := s.calls[c := CheckedBoth(s.calls[c].app, s.calls[c].sub)])
    case InsertSubscription(c) => s.(subscriptions := s.subscriptions + [s.calls[c].sub], calls := s.calls - {c})
    case DropCall(c) => s.(calls := s.calls - {c})
    case Unsubscribe(sub) => s.(subscriptions := Without(s.subscriptions, (x: Subscription) => x == sub))
  }

  const NOTHING: State := State(map[], map[], [], map[], 0)

  ghost predicate Run(states: seq<State>, steps: seq<Step>) {
    && |states| == |steps| + 1 && states[0] == NOTHING
    && forall k :: 0 <= k < |steps| ==> Enabled(states[k], steps[k]) && states[k + 1] == Next(states[k], steps[k])
  }

  // ---------- ownership ----------

  predicate KeysOk(s: State) {
    && (forall id <- s.endpoints :: id < s.nextId)
    && (forall id <- s.eventTypes :: id < s.nextId)
    && (forall x, y :: x in s.eventTypes && y in s.eventTypes && s.eventTypes[x] == s.eventTypes[y] ==> x == y)
  }

  /** Both ends of a subscription exist and belong to one application. */
  predicate SameOwner(s: State, sub: Subscription) {
    && sub.endpoint in s.endpoints && sub.eventType in s.eventTypes
    && s.endpoints[sub.endpoint].app == s.eventTypes[sub.eventType].app
  }

  predicate SubscriptionsOk(s: State) {
    NoRepeats(s.subscriptions) && forall x <- s.subscriptions :: SameOwner(s, x)
  }

  /** What a call checked stays true of the rows that still exist: owners never change and ids are
      never used again. */
  predicate CallOk(s: State, p: Pending) {
    && p.sub.endpoint < s.nextId && (p.sub.endpoint in s.endpoints ==> s.endpoints[p.sub.endpoint].app == p.app)
    && (p.CheckedBoth? ==>
          p.sub.eventType < s.nextId && (p.sub.eventType in s.eventTypes ==> s.eventTypes[p.sub.eventType].app == p.app))
  }

  predicate Invariant(s: State) {
    KeysOk(s) && SubscriptionsOk(s) && forall c <- s.calls :: CallOk(s, s.calls[c])
  }

  lemma StepKeepsSubscriptions(s: State, st: Step)
    requires Invariant(s) && Enabled(s, st)
    ensures SubscriptionsOk(Next(s, st))
  {
    if st.InsertSubscription? {
      assert CallOk(s, s.calls[st.c]);
      assert SameOwner(s, s.calls[st.c].sub);
    }
    hide CallOk, Without;
    var s' := Next(s, st);
    forall x | x in s'.subscriptions ensures SameOwner(s', x) {
      assert x in s.subscriptions || (st.InsertSubscription? && x == s.calls[st.c].sub);
      assert SameOwner(s, x);
    }
  }

  lemma StepKeepsCalls(s: State, st: Step, c: Id)
    requires Invariant(s) && Enabled(s, st) && c in Next(s, st).calls
    ensures CallOk(Next(s, st), Next(s, st).calls[c])
  {
    hide SubscriptionsOk, Without;
    if c in s.calls {
      assert CallOk(s, s.calls[c]);
    }
  }

  lemma StepKeepsInvariant(s: State, st: Step)
    requires Invariant(s) && Enabled(s, st)
    ensures Invariant(Next(s, st))
  {
    StepKeepsSubscriptions(s, st);
    forall c | c in Next(s, st).calls ensures CallOk(Next(s, st), Next(s, st).calls[c]) {
      StepKeepsCalls(s, st, c);
    }
    hide SubscriptionsOk, CallOk, Without;
  }

  lemma {:induction false} RunKeepsInvariant(states: seq<State>, steps: seq<Step>, k: nat)
    requires Run(states, steps) && k < |states|
    ensures Invariant(states[k])
  {
    if k > 0 {
      RunKeepsInvariant(states, steps, k - 1);
      hide Invariant, Next, Enabled;
      StepKeepsInvariant(states[k - 1], steps[k - 1]);
    }
  }

  // ---------- the join ----------

  /** The WHERE clause: the endpoint's owner, status and recipient, and the event type's name alone. */
  predicate Selected(s: State, app: Id, name: string, recipient: string, sub: Subscription) {
    && sub.endpoint in s.endpoints && sub.eventType in s.eventTypes
    && var e := s.endpoints[sub.endpoint];
    && e.app == app && e.status.Active? && (e.recipient == "" || e.recipient == recipient)
    && s.eventTypes[sub.eventType].name == name
  }

  function Join(s: State, app: Id, name: string, recipient: string, subs: seq<Subscription>): seq<Id> {
    if subs == [] then []
    else (if Selected(s, app, name, recipient, subs[0]) then [subs[0].endpoint] else []) + Join(s, app, name, recipient, subs[1..])
  }

  lemma JoinExtends(s: State, app: Id, name: string, recipient: string, subs: seq<Subscription>, last: Subscription)
    ensures Join(s, app, name, recipient, subs + [last])
            == Join(s, app, name, recipient, subs) + (if Selected(s, app, name, recipient, last) then [last.endpoint] else [])
  {
    hide Selected;
    if subs == [] {
      assert subs + [last] == [last];
    } else {
      assert (subs + [last])[1..] == subs[1..] + [last];
      JoinExtends(s, app, name, recipient, subs[1..], last);
    }
  }

  lemma JoinUpTo(s: State, app: Id, name: string, recipient: string, k: nat)
    requires k < |s.subscriptions|
    ensures Join(s, app, name, recipient, s.subscriptions[..k + 1])
            == Join(s, app, name, recipient, s.subscriptions[..k])
               + (if Selected(s, app, name, recipient, s.subscriptions[k]) then [s.subscriptions[k].endpoint] else [])
  {
    JoinExtends(s, app, name, recipient, s.subscriptions[..k], s.subscriptions[k]);
    assert s.subscriptions[..k + 1] == s.subscriptions[..k] + [s.subscriptions[k]];
  }

  /** The result rows: one per matching subscription. */
  method GetSubscribedEndpoints(s: State, app: Id, name: string, recipient: string) returns (endpoints: seq<Id>)
    ensures endpoints == Join(s, app, name, recipient, s.subscriptions)
  {
    endpoints := [];
    var k := 0;
    assert s.subscriptions[..0] == [];
    while k < |s.subscriptions|
      invariant 0 <= k <= |s.subscriptions|
      invariant endpoints == Join(s, app, name, recipient, s.subscriptions[..k])
    {
      hide Selected, Join;
      JoinUpTo(s, app, name, recipient, k);
      if Selected(s, app, name, recipient, s.subscriptions[k]) {
        endpoints := endpoints + [s.subscriptions[k].endpoint];
      }
      k := k + 1;
    }
    assert s.subscriptions[..k] == s.subscriptions;
  }

  /** The endpoints an event of this name should reach: those of the application, active, for this
      recipient or for all, subscribed to the application's own event type of that name. */
  predicate Wanted(s: State, app: Id, name: string, recipient: string, ep: Id) {
    && ep in s.endpoints
    && var e := s.endpoints[ep];
    && e.app == app && e.status.Active? && (e.recipient == "" || e.recipient == recipient)
    && exists t <- s.eventTypes :: s.eventTypes[t] == EventType(app, name) && Subscription(ep, t) in s.subscriptions
  }

  lemma JoinMembers(s: State, app: Id, name: string, recipient: string, subs: seq<Subscription>, ep: Id)
    ensures ep in Join(s, app, name, recipient, subs)
            <==> exists sub :: sub in subs && sub.endpoint == ep && Selected(s, app, name, recipient, sub)
  {
    if subs != [] {
      JoinMembers(s, app, name, recipient, subs[1..], ep);
      hide Selected;
      if sub :| sub in subs && sub.endpoint == ep && Selected(s, app, name, recipient, sub) {
        assert sub == subs[0] || sub in subs[1..];
      }
    }
  }

  /** Of one owner and one name there is one event type, so two matches of an endpoint are one. */
  lemma MatchIsUnique(s: State, app: Id, name: string, recipient: string, a: Subscription, b: Subscription)
    requires Invariant(s) && a in s.subscriptions && b in s.subscriptions && a.endpoint == b.endpoint
    requires Selected(s, app, name, recipient, a) && Selected(s, app, name, recipient, b)
    ensures a == b
  {
    assert SameOwner(s, a) && SameOwner(s, b);
    assert s.eventTypes[a.eventType] == s.eventTypes[b.eventType];
  }

  lemma JoinNoRepeats(s: State, app: Id, name: string, recipient: string, subs: seq<Subscription>)
    requires Invariant(s) && NoRepeats(subs) && forall x <- subs :: x in s.subscriptions
    ensures NoRepeats(Join(s, app, name, recipient, subs))
  {
    if subs != [] {
      JoinNoRepeats(s, app, name, recipient, subs[1..]);
      if Selected(s, app, name, recipient, subs[0]) {
        var ep := subs[0].endpoint;
        JoinMembers(s, app, name, recipient, subs[1..], ep);
        forall x | x in subs[1..] && x.endpoint == ep && Selected(s, app, name, recipient, x) ensures x == subs[0] {
          MatchIsUnique(s, app, name, recipient, x, subs[0]);
        }
        assert ep !in Join(s, app, name, recipient, subs[1..]);
      }
    }
  }

  /** `found` is every wanted endpoint, each once. */
  ghost predicate Exactly(s: State, app: Id, name: string, recipient: string, found: seq<Id>) {
    && NoRepeats(found)
    && forall ep: Id :: ep in found <==> Wanted(s, app, name, recipient, ep)
  }

  /** In every interleaving the join yields exactly the wanted endpoints, each once. */
  lemma FanOutExactlyOnce(states: seq<State>, steps: seq<Step>, k: nat, app: Id, name: string, recipient: string)
    requires Run(states, steps) && k < |states|
    ensures Exactly(states[k], app, name, recipient, Join(states[k], app, name, recipient, states[k].subscriptions))
  {
    RunKeepsInvariant(states, steps, k);
    JoinIsExact(states[k], app, name, recipient);
  }

  lemma JoinIsExact(s: State, app: Id, name: string, recipient: string)
    requires Invariant(s)
    ensures Exactly(s, app, name, recipient, Join(s, app, name, recipient, s.subscriptions))
  {
    JoinNoRepeats(s, app, name, recipient, s.subscriptions);
    forall ep: Id ensures ep in Join(s, app, name, recipient, s.subscriptions) <==> Wanted(s, app, name, recipient, ep) {
      JoinMembers(s, app, name, recipient, s.subscriptions, ep);
      if sub :| sub in s.subscriptions && sub.endpoint == ep && Selected(s, app, name, recipient, sub) {
        assert SameOwner(s, sub);
        assert s.eventTypes[sub.eventType] == EventType(app, name) && sub == Subscription(ep, sub.eventType);
      }
    }
  }

  /** Without the ownership invariant the join can return an endpoint twice: it would match another
      application's event type of the same name. */
  lemma JoinAloneCanRepeat()
    ensures exists s: State :: Join(s, 1, "a", "", s.subscriptions) == [7, 7]
  {
    var s := State(map[7 := Endpoint(1, "", 10, Active, 0)], map[8 := EventType(1, "a"), 9 := EventType(2, "a")],
                   [Subscription(7, 8), Subscription(7, 9)], map[], 10);
    assert s.subscriptions[1..] == [Subscription(7, 9)];
    assert Join(s, 1, "a", "", s.subscriptions) == [7, 7];
  }

  // ---------- Subscribe ----------

  datatype SubscribeAnswer = Subscribed(sub: Subscription) | EndpointNotFound | EventTypeNotFound | Duplicate | InsertFailed

  class SubscriptionService {
    var s: State

    constructor ()
      ensures Invariant(s)
    {
      s := NOTHING;
    }

    /** What other sessions may do between two statements: anything but change an owner or use an id again. */
    method Others()
      requires Invariant(s)
      modifies this
      ensures Invariant(s) && s.nextId >= old(s).nextId
      ensures forall id <- s.endpoints :: id < old(s).nextId
                ==> id in old(s).endpoints && s.endpoints[id].app == old(s).endpoints[id].app
      ensures forall id <- s.eventTypes :: id < old(s).nextId
                ==> id in old(s).eventTypes && s.eventTypes[id].app == old(s).eventTypes[id].app
    {
      var after: State := *;
      if && Invariant(after) && s.nextId <= after.nextId
         && (forall id <- after.endpoints :: id < s.nextId ==> id in s.endpoints && after.endpoints[id].app == s.endpoints[id].app)
         && (forall id <- after.eventTypes :: id < s.nextId ==> id in s.eventTypes && after.eventTypes[id].app == s.eventTypes[id].app)
      {
        s := after;
      }
    }

    /** Three statements; the checks of the first two survive whatever runs in between. */
    method Subscribe(app: Id, endpoint: Id, eventType: Id) returns (r: SubscribeAnswer)
      requires Invariant(s)
      modifies this
      ensures Invariant(s)
      ensures r.Subscribed? ==> r.sub == Subscription(endpoint, eventType) && r.sub in s.subscriptions
                                && SameOwner(s, r.sub) && s.endpoints[endpoint].app == app
      ensures r.EndpointNotFound? <==> endpoint !in old(s).endpoints || old(s).endpoints[endpoint].app != app
      ensures r.EndpointNotFound? ==> s == old(s)
      ensures r.EventTypeNotFound? ==> eventType !in s.eventTypes || s.eventTypes[eventType].app != app
      ensures r.Duplicate? ==> Subscription(endpoint, eventType) in s.subscriptions
      ensures r.InsertFailed? ==> endpoint !in s.endpoints || eventType !in s.eventTypes
    {
      if endpoint !in s.endpoints || s.endpoints[endpoint].app != app {
        return EndpointNotFound;
      }
      Others();
      if eventType !in s.eventTypes || s.eventTypes[eventType].app != app {
        return EventTypeNotFound;
      }
      Others();
      var sub := Subscription(endpoint, eventType);
      if sub in s.subscriptions {
        return Duplicate;
      }
      if endpoint !in s.endpoints || eventType !in s.eventTypes {
        return InsertFailed;
      }
      ghost var before := s;
      s := s.(subscriptions := s.subscriptions + [sub]);
      assert forall x <- s.subscriptions :: x in before.subscriptions || x == sub;
      forall x | x in s.subscriptions ensures SameOwner(s, x) {
        assert x == sub || SameOwner(before, x);
      }
      forall c | c in s.calls ensures CallOk(s, s.calls[c]) {
        assert CallOk(before, before.calls[c]);
      }
      return Subscribed(sub);
    }
  }
}
