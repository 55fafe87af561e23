/** internal/repository/endpoint_repo.go and internal/service/endpoint_service.go: the endpoint table
    and its one read-modify-write. */
module EndpointService {
  import opened Models
  import opened Breaker

  class EndpointRepository {
    var endpoints: map<Id, Endpoint>
    var nextId: Id

    ghost predicate Valid(maxFailures: int)
      reads this
    {
      forall id <- endpoints :: id < nextId && Sound(endpoints[id], maxFailures)
    }

    constructor ()
      ensures endpoints == map[] && nextId == 0
    {
      endpoints, nextId := map[], 0;
    }

    /** A new endpoint is active with a clean counter, and paced at 10 per second unless told otherwise. */
    method Create(app: Id, recipient: string, rateLimit: int, ghost maxFailures: int) returns (id: Id)
      requires Valid(maxFailures) && 0 < maxFailures
      modifies this
      ensures Valid(maxFailures)
      ensures id !in old(endpoints)
      ensures endpoints == old(endpoints)[id := Endpoint(app, recipient, if rateLimit <= 0 then 10 else rateLimit, Active, 0)]
    {
      var limit := rateLimit;
      if limit <= 0 {
        limit := 10;
      }
      id := nextId;
      endpoints, nextId := endpoints[id := Endpoint(app, recipient, limit, Active, 0)], nextId + 1;
    }

    /** Two different statements: a guarded reset, and a guarded increment that may trip the breaker. */
    method RecordDeliveryResult(id: Id, success: bool, maxFailures: int) returns (tripped: bool)
      requires Valid(maxFailures) && 0 < maxFailures
      modifies this`endpoints
      ensures Valid(maxFailures)
      ensures id !in old(endpoints) ==> endpoints == old(endpoints) && !tripped
      ensures id in old(endpoints) ==>
                var (e, t) := RecordResult(old(endpoints)[id], success, maxFailures);
                endpoints == old(endpoints)[id := e] && tripped == t
      ensures tripped <==> id in old(endpoints) && old(endpoints)[id].status.Active? && endpoints[id].status.Inactive?
      ensures id in old(endpoints) ==>
                && endpoints.Keys == old(endpoints).Keys
                && (forall x <- endpoints :: x != id ==> endpoints[x] == old(endpoints)[x])
                && var was, e := old(endpoints)[id], endpoints[id];
                && e.app == was.app && e.recipient == was.recipient && e.rateLimit == was.rateLimit
                && e.failures == (if success then 0 else if was.status.Active? then was.failures + 1 else was.failures)
                && (e.status.Inactive? <==> was.status.Inactive? || (!success && maxFailures <= was.failures + 1))
    {
      tripped := false;
      if success {
        if id in endpoints && endpoints[id].failures > 0 {
          endpoints := endpoints[id := endpoints[id].(failures := 0)];
        }
        return;
      }
      if id !in endpoints || endpoints[id].status != Active {
        return;
      }
      var failures := endpoints[id].failures + 1;
      var status := endpoints[id].status;
      if failures >= maxFailures {
        status := Inactive;
      }
      endpoints := endpoints[id := endpoints[id].(failures := failures, status := status)];
      tripped := status == Inactive && failures >= maxFailures;
    }

    /** Every mutable column is overwritten, the status and the counter included. */
    method Update(id: Id, e: Endpoint, ghost maxFailures: int) returns (found: bool)
      requires Valid(maxFailures) && Sound(e, maxFailures)
      modifies this`endpoints
      ensures Valid(maxFailures)
      ensures found <==> id in old(endpoints)
      ensures endpoints == if found then old(endpoints)[id := e] else old(endpoints)
    {
      found := id in endpoints;
      if found {
        endpoints := endpoints[id := e];
      }
    }

    /** What deliveries and other operators may commit between the read and the write of an update. */
    method Others(maxFailures: int)
      requires Valid(maxFailures)
      modifies this
      ensures Valid(maxFailures) && nextId >= old(nextId)
    {
      var endpoints': map<Id, Endpoint>, nextId': Id := *, *;
      if nextId <= nextId' && forall id <- endpoints' :: id < nextId' && Sound(endpoints'[id], maxFailures) {
        endpoints, nextId := endpoints', nextId';
      }
    }
  }

  class EndpointService {
    const repo: EndpointRepository

    constructor (repo: EndpointRepository)
      ensures this.repo == repo
    {
      this.repo := repo;
    }

    /** The rate limit is 10 unless one between 1 and 1000 is given. */
    method CreateEndpoint(app: Id, recipient: string, rateLimit: Option<int>, maxFailures: int) returns (id: Option<Id>)
      requires repo.Valid(maxFailures) && 0 < maxFailures
      modifies repo
      ensures repo.Valid(maxFailures)
      ensures id.None? <==> rateLimit.Some? && !(1 <= rateLimit.value <= 1000)
      ensures id.None? ==> repo.endpoints == old(repo.endpoints)
      ensures id.Some? ==> id.value !in old(repo.endpoints)
                           && repo.endpoints == old(repo.endpoints)[id.value :=
                                Endpoint(app, recipient, if rateLimit.Some? then rateLimit.value else 10, Active, 0)]
    {
      var limit := 10;
      if rateLimit.Some? {
        if rateLimit.value < 1 || rateLimit.value > 1000 {
          return None;
        }
        limit := rateLimit.value;
      }
      var created := repo.Create(app, recipient, limit, maxFailures);
      return Some(created);
    }

    /** The snapshot read first is what the write is computed from, so a trip in between is undone;
        yet no active endpoint ends up at or over the threshold. */
    method UpdateEndpoint(app: Id, id: Id, p: UpdateParams, maxFailures: int) returns (r: UpdateResult)
      requires repo.Valid(maxFailures) && 0 < maxFailures
      modifies repo
      ensures repo.Valid(maxFailures)
      ensures id !in old(repo.endpoints) || old(repo.endpoints)[id].app != app ==> r == Rejected(NotFound)
      ensures r.Updated? ==> id in old(repo.endpoints) && r == ApplyUpdate(old(repo.endpoints)[id], p)
                             && id in repo.endpoints && repo.endpoints[id] == r.endpoint
      ensures r.Updated? ==>
                && var was, e := old(repo.endpoints)[id], repo.endpoints[id];
                && e.app == was.app == app
                && e.recipient == (if p.recipient.Some? then p.recipient.value else was.recipient)
                && e.rateLimit == (if p.rateLimit.Some? then p.rateLimit.value else was.rateLimit)
                && (e.status.Active? <==> p.status == Some("active") || (p.status.None? && was.status.Active?))
                && e.failures == (if p.status == Some("active") then 0 else was.failures)
      ensures r == Rejected(InvalidStatus) <==>
                && id in old(repo.endpoints) && old(repo.endpoints)[id].app == app
                && p.status.Some? && p.status != Some("active") && p.status != Some("inactive")
      ensures r == Rejected(InvalidRateLimit) <==>
                && id in old(repo.endpoints) && old(repo.endpoints)[id].app == app
                && (p.status.None? || p.status == Some("active") || p.status == Some("inactive"))
                && p.rateLimit.Some? && (p.rateLimit.value < 1 || 1000 < p.rateLimit.value)
      ensures r == Rejected(NotFound) ==> id !in old(repo.endpoints) || old(repo.endpoints)[id].app != app || id !in repo.endpoints
      ensures r.Rejected? ==> r.error == NotFound
                              || (id in old(repo.endpoints) && r == ApplyUpdate(old(repo.endpoints)[id], p)
                                  && repo.endpoints == old(repo.endpoints))
    {
      if id !in repo.endpoints || repo.endpoints[id].app != app {
        return Rejected(NotFound);
      }
      var e := repo.endpoints[id];
      ghost var snapshot := e;
      if p.status.Some? {
        if p.status.value != "active" && p.status.value != "inactive" {
          return Rejected(InvalidStatus);
        }
        if p.status.value == "active" {
          e := e.(status := Active, failures := 0);
        } else {
          e := e.(status := Inactive);
        }
      }
      if p.recipient.Some? {
        e := e.(recipient := p.recipient.value);
      }
      if p.rateLimit.Some? {
        if p.rateLimit.value < 1 || p.rateLimit.value > 1000 {
          return Rejected(InvalidRateLimit);
        }
        e := e.(rateLimit := p.rateLimit.value);
      }
      assert ApplyUpdate(snapshot, p) == Updated(e);
      assert "active"[0] != "inactive"[0];
      UpdateKeepsSound(snapshot, p, maxFailures);
      repo.Others(maxFailures);
      var found := repo.Update(id, e, maxFailures);
      if !found {
        return Rejected(NotFound);
      }
      return Updated(e);
    }
  }

  /** An update turns an endpoint on exactly when it asks for it, or says nothing about the status
      and its snapshot was still active: then it undoes a trip it never saw. */
  lemma WhatReactivates(snapshot: Endpoint, p: UpdateParams)
    requires ApplyUpdate(snapshot, p).Updated?
    ensures ApplyUpdate(snapshot, p).endpoint.status.Active?
            <==> p.status == Some("active") || (p.status.None? && snapshot.status.Active?)
  {
    if p.status.Some? {
      assert "active"[0] != "inactive"[0];
    }
  }
}
