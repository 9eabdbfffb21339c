/**
  Mutation outcomes and fencing leases (src/mutations/store.py, src/mutations/lease.py).
  Instants and durations are integers.
 */
module Leases {
  import opened Wrappers

  datatype Status =
    | Pending
    | FailedNoMutation
    | Uncertain
    | ResolvedPresent
    | ResolvedAbsent
    | Conflict
  {
    predicate Terminal() {
      ResolvedPresent? || ResolvedAbsent? || FailedNoMutation?
    }
  }

  datatype Outcome = Outcome(
    key: string,
    status: Status,
    payloadHash: string,
    externalReference: Option<string>,
    result: Option<string>,
    created: bool)

  datatype Lease = Lease(key: string, fencingToken: int, claimedAt: int, ttl: int) {
    predicate Valid() {
      fencingToken > 0 && ttl > 0
    }

    function ExpiresAt(): int {
      claimedAt + ttl
    }

    predicate IsExpired(at: int) {
      at >= ExpiresAt()
    }

    function AssertFresh(presented: int, at: int): Freshness {
      if presented != fencingToken then StaleToken
      else if IsExpired(at) then LeaseExpired
      else Fresh
    }
  }

  datatype Freshness = Fresh | StaleToken | LeaseExpired

  // The process-wide token counter. A token is drawn even when the lease it is drawn for is refused.
  class LeaseIssuer {
    var nextToken: int
    ghost var issued: seq<Lease>

    constructor ()
      ensures nextToken == 1 && issued == [] && Valid()
    {
      nextToken, issued := 1, [];
    }

    ghost predicate Valid()
      reads this
    {
      && nextToken >= 1
      && (forall i :: 0 <= i < |issued| ==> issued[i].Valid() && issued[i].fencingToken < nextToken)
      && (forall i, j :: 0 <= i < j < |issued| ==> issued[i].fencingToken < issued[j].fencingToken)
    }

    // Tokens of issued leases only ever grow, so no two leases share one.
    method Claim(key: string, at: int, ttl: int) returns (lease: Option<Lease>)
      requires Valid()
      modifies this
      ensures Valid()
      ensures lease.Some? <==> ttl > 0
      ensures issued == old(issued) + (if lease.Some? then [lease.value] else [])
      ensures lease.Some? ==> lease.value.key == key && lease.value.claimedAt == at && lease.value.ttl == ttl
      ensures forall l :: l in old(issued) && lease.Some? ==> l.fencingToken < lease.value.fencingToken
    {
      var token := nextToken;
      nextToken := nextToken + 1;
      if ttl <= 0 {
        return None;
      }
      lease := Some(Lease(key, token, at, ttl));
      issued := issued + [lease.value];
    }
  }
}
