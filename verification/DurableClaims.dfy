/**
  The durable claim store (src/mutations/durable_store.py).

  Every claim is one atomic transaction over the rows. The theorems range over arbitrary
  sequences of claims, presented at arbitrary (not necessarily increasing) times, interleaved
  with arbitrary settlements of rows by whoever finishes the mutation.
 */
module DurableClaims {
  import opened Wrappers
  import opened Leases

  datatype Row = Row(
    payloadHash: string,
    version: int,
    token: int,
    status: Status,
    externalReference: Option<string>,
    result: Option<string>,
    leaseExpiresAt: int)

  datatype Call = Call(key: string, payloadHash: string, version: int, lease: Lease, presented: int, at: int)

  datatype Result =
    | Acquired(outcome: Outcome)
    | ClaimHeld(outcome: Outcome)
    | AlreadyResolved(outcome: Outcome)
    | PayloadConflict
    | StaleFencing(outcome: Outcome)
    | RaisedStaleToken
    | RaisedLeaseExpired
    | RaisedStorageFull

  type Rows = map<string, Row>

  function Stored(key: string, row: Row): Outcome {
    Outcome(key, row.status, row.payloadHash, row.externalReference, row.result, false)
  }

  function ClaimRow(rows: Rows, capacity: int, c: Call): (Rows, Result) {
    match c.lease.AssertFresh(c.presented, c.at)
    case StaleToken => (rows, RaisedStaleToken)
    case LeaseExpired => (rows, RaisedLeaseExpired)
    case Fresh =>
      if c.key in rows then
        var row := rows[c.key];
        var outcome := Stored(c.key, row);
        if row.payloadHash != c.payloadHash || row.version != c.version then (rows, PayloadConflict)
        else if row.status.Terminal() then (rows, AlreadyResolved(outcome))
        else if c.presented < row.token then (rows, StaleFencing(outcome))
        else if c.presented == row.token then (rows, ClaimHeld(outcome))
        else if c.at < row.leaseExpiresAt then (rows, StaleFencing(outcome))
        else (rows[c.key := row.(token := c.presented, leaseExpiresAt := c.lease.ExpiresAt())], Acquired(outcome))
      else if |rows| >= capacity then (rows, RaisedStorageFull)
      else
        (rows[c.key := Row(c.payloadHash, c.version, c.lease.fencingToken, Pending, None, None, c.lease.ExpiresAt())],
         Acquired(Outcome(c.key, Pending, c.payloadHash, None, None, true)))
  }

  class DurableMutationStore {
    const capacity: int
    var rows: Rows

    constructor (capacity: int)
      ensures this.capacity == capacity && rows == map[]
    {
      this.capacity, rows := capacity, map[];
    }

    method Claim(key: string, payloadHash: string, version: int, lease: Lease, presented: int, at: int)
      returns (r: Result)
      modifies this
      ensures (rows, r) == ClaimRow(old(rows), capacity, Call(key, payloadHash, version, lease, presented, at))
    {
      match lease.AssertFresh(presented, at) {
        case StaleToken => return RaisedStaleToken;
        case LeaseExpired => return RaisedLeaseExpired;
        case Fresh =>
      }
      if key in rows {
        var row := rows[key];
        if row.payloadHash != payloadHash || row.version != version {
          return PayloadConflict;
        }
        var outcome := Stored(key, row);
        if row.status.Terminal() {
          return AlreadyResolved(outcome);
        }
        if presented < row.token {
          return StaleFencing(outcome);
        }
        if presented == row.token {
          return ClaimHeld(outcome);
        }
        if at < row.leaseExpiresAt {
          return StaleFencing(outcome);
        }
        rows := rows[key := row.(token := presented, leaseExpiresAt := lease.ExpiresAt())];
        return Acquired(outcome);
      }
      if |rows| >= capacity {
        return RaisedStorageFull;
      }
      rows := rows[key := Row(payloadHash, version, lease.fencingToken, Pending, None, None, lease.ExpiresAt())];
      return Acquired(Outcome(key, Pending, payloadHash, None, None, true));
    }

    method CurrentFencingToken(key: string) returns (token: int)
      ensures token == if key in rows then rows[key].token else 0
    {
      token := 0;
      if key in rows {
        token := rows[key].token;
      }
    }
  }

  // Runs

  datatype Event =
    | Claim(call: Call)
    | Settle(key: string, status: Status, reference: Option<string>)

  // An ACQUIRED answer: the token it went to, from the instant of the claim to the stored expiry.
  datatype Grant = Grant(key: string, token: int, from: int, until: int)

  datatype World = World(rows: Rows, capacity: int, grants: seq<Grant>)

  function Start(capacity: int): World {
    World(map[], capacity, [])
  }

  function Step(w: World, e: Event): World {
    match e
    case Claim(c) =>
      var (rows, r) := ClaimRow(w.rows, w.capacity, c);
      w.(rows := rows,
         grants := if r.Acquired? then w.grants + [Grant(c.key, c.presented, c.at, rows[c.key].leaseExpiresAt)] else w.grants)
    case Settle(k, status, reference) =>
      if k in w.rows then w.(rows := w.rows[k := w.rows[k].(status := status, externalReference := reference)]) else w
  }

  function Run(w: World, es: seq<Event>): World {
    if es == [] then w else Step(Run(w, es[..|es| - 1]), es[|es| - 1])
  }

  // The latest grant of a key, if it has one.
  function LastGrant(grants: seq<Grant>, key: string): Option<Grant> {
    if grants == [] then None
    else if grants[|grants| - 1].key == key then Some(grants[|grants| - 1])
    else LastGrant(grants[..|grants| - 1], key)
  }

  lemma {:induction false} LastGrantIsLast(grants: seq<Grant>, key: string)
    ensures match LastGrant(grants, key)
      case None => forall i :: 0 <= i < |grants| ==> grants[i].key != key
      case Some(g) => exists i :: 0 <= i < |grants| && grants[i] == g && g.key == key
                        && forall j :: i < j < |grants| ==> grants[j].key != key
  {
    if grants != [] && grants[|grants| - 1].key != key {
      var shorter := grants[..|grants| - 1];
      LastGrantIsLast(shorter, key);
      match LastGrant(shorter, key)
      case None =>
        forall i | 0 <= i < |grants| ensures grants[i].key != key { assert i < |shorter| ==> grants[i] == shorter[i]; }
      case Some(g) =>
        var i :| 0 <= i < |shorter| && shorter[i] == g && g.key == key && forall j :: i < j < |shorter| ==> shorter[j].key != key;
        assert grants[i] == g;
        forall j | i < j < |grants| ensures grants[j].key != key { assert j < |shorter| ==> grants[j] == shorter[j]; }
    }
  }

  predicate Follows(earlier: Grant, later: Grant) {
    earlier.token < later.token && earlier.until <= later.from
  }

  // A row stores the token and the expiry of the latest grant of its key.
  predicate RowMatches(w: World, key: string) {
    match LastGrant(w.grants, key)
    case None => key !in w.rows
    case Some(g) => key in w.rows && w.rows[key].token == g.token && w.rows[key].leaseExpiresAt == g.until
  }

  ghost predicate Inv(w: World) {
    && (forall key :: RowMatches(w, key))
    && (forall i :: 0 <= i < |w.grants| ==> w.grants[i].from < w.grants[i].until)
    && (forall i, j :: 0 <= i < j < |w.grants| && w.grants[i].key == w.grants[j].key ==> Follows(w.grants[i], w.grants[j]))
  }

  // An accepted claim is presented with a greater token, and only once the stored lease is over.
  lemma {:induction false} AcquiredFollows(rows: Rows, capacity: int, c: Call)
    requires ClaimRow(rows, capacity, c).1.Acquired?
    ensures var rows' := ClaimRow(rows, capacity, c).0;
      && c.key in rows' && rows' == rows[c.key := rows'[c.key]]
      && rows'[c.key].token == c.presented && c.at < rows'[c.key].leaseExpiresAt
      && (c.key in rows ==> rows[c.key].token < c.presented && rows[c.key].leaseExpiresAt <= c.at)
  {
  }

  lemma {:induction false} OthersKeepRows(w: World, e: Event)
    requires Inv(w) && Step(w, e).grants == w.grants
    ensures Inv(Step(w, e))
  {
    forall key ensures RowMatches(Step(w, e), key) { assert RowMatches(w, key); }
  }

  // The new grant follows every earlier one of its key, because it follows the latest.
  lemma {:induction false} NewGrantFollows(w: World, g: Grant, i: nat)
    requires Inv(w) && i < |w.grants| && w.grants[i].key == g.key && g.key in w.rows
    requires w.rows[g.key].token < g.token && w.rows[g.key].leaseExpiresAt <= g.from
    ensures Follows(w.grants[i], g)
  {
    LastGrantIsLast(w.grants, g.key);
    assert RowMatches(w, g.key);
    var last := LastGrant(w.grants, g.key).value;
    assert w.grants[i] == last || Follows(w.grants[i], last);
    assert last.from < last.until;
  }

  lemma {:induction false} AcquiringKeepsInv(w: World, c: Call)
    requires Inv(w) && ClaimRow(w.rows, w.capacity, c).1.Acquired?
    ensures Inv(Step(w, Claim(c)))
  {
    AcquiredFollows(w.rows, w.capacity, c);
    var w' := Step(w, Claim(c));
    var g := Grant(c.key, c.presented, c.at, w'.rows[c.key].leaseExpiresAt);
    assert w'.grants == w.grants + [g] && w'.grants[..|w.grants|] == w.grants;
    forall key ensures RowMatches(w', key) { assert RowMatches(w, key); }
    forall i | 0 <= i < |w.grants| && w.grants[i].key == c.key ensures Follows(w.grants[i], g) {
      assert RowMatches(w, c.key);
      LastGrantIsLast(w.grants, c.key);
      NewGrantFollows(w, g, i);
    }
  }

  lemma {:induction false} StepKeepsInv(w: World, e: Event)
    requires Inv(w)
    ensures Inv(Step(w, e))
  {
    if e.Claim? && ClaimRow(w.rows, w.capacity, e.call).1.Acquired? {
      AcquiringKeepsInv(w, e.call);
    } else {
      OthersKeepRows(w, e);
    }
  }

  lemma {:induction false} RunKeepsInv(w: World, es: seq<Event>)
    requires Inv(w)
    ensures Inv(Run(w, es))
  {
    if es != [] {
      RunKeepsInv(w, es[..|es| - 1]);
      StepKeepsInv(Run(w, es[..|es| - 1]), es[|es| - 1]);
    }
  }

  // No two grants of one key overlap and their tokens strictly increase, whatever the claim times.
  lemma {:induction false} GrantsAreDisjoint(capacity: int, es: seq<Event>, i: nat, j: nat)
    requires i < j < |Run(Start(capacity), es).grants|
    requires Run(Start(capacity), es).grants[i].key == Run(Start(capacity), es).grants[j].key
    ensures var g, h := Run(Start(capacity), es).grants[i], Run(Start(capacity), es).grants[j];
      g.token < h.token && g.from < g.until <= h.from < h.until
  {
    RunKeepsInv(Start(capacity), es);
    var grants := Run(Start(capacity), es).grants;
    assert Follows(grants[i], grants[j]);
  }

  predicate Bound(rows: Rows, rows': Rows, key: string) {
    && key in rows && key in rows'
    && rows'[key].payloadHash == rows[key].payloadHash && rows'[key].version == rows[key].version && rows'[key].token >= rows[key].token
  }

  lemma {:induction false} StepBinds(w: World, e: Event, key: string)
    requires key in w.rows
    ensures Bound(w.rows, Step(w, e).rows, key)
  {
  }

  // Once claimed, a key stays bound to its payload and canonicalization version, and its token never falls.
  lemma {:induction false} BindingIsForever(w: World, es: seq<Event>, key: string)
    requires key in w.rows
    ensures var w' := Run(w, es);
      && key in w'.rows
      && w'.rows[key].payloadHash == w.rows[key].payloadHash
      && w'.rows[key].version == w.rows[key].version
      && w'.rows[key].token >= w.rows[key].token
  {
    if es != [] {
      BindingIsForever(w, es[..|es| - 1], key);
      StepBinds(Run(w, es[..|es| - 1]), es[|es| - 1], key);
    }
  }

  // CLAIM_HELD

  // The world that event i of a run meets.
  function Before(capacity: int, es: seq<Event>, i: nat): World
    requires i <= |es|
  {
    Run(Start(capacity), es[..i])
  }

  function AnswerTo(w: World, c: Call): Result {
    ClaimRow(w.rows, w.capacity, c).1
  }

  // Event i is a claim of the key that acquires it.
  predicate Acquires(capacity: int, es: seq<Event>, i: nat, key: string)
    requires i < |es|
  {
    es[i].Claim? && es[i].call.key == key && AnswerTo(Before(capacity, es, i), es[i].call).Acquired?
  }

  // Event i is the latest acquisition of the key.
  ghost predicate LastAcquires(capacity: int, es: seq<Event>, i: nat, key: string)
    requires i < |es|
  {
    Acquires(capacity, es, i, key) && forall j: nat :: i < j < |es| ==> !Acquires(capacity, es, j, key)
  }

  predicate Holds(capacity: int, es: seq<Event>, j: nat)
    requires j < |es|
  {
    es[j].Claim? && AnswerTo(Before(capacity, es, j), es[j].call).ClaimHeld?
  }

  function GrantTo(c: Call): Grant {
    Grant(c.key, c.presented, c.at, c.lease.ExpiresAt())
  }

  // The call falls into the latest grant of its key, which has its token.
  predicate InGrant(w: World, c: Call) {
    match LastGrant(w.grants, c.key)
    case None => false
    case Some(g) => g.token == c.presented && g.from <= c.at < g.until
  }

  // Claims under one fencing token present one lease.
  predicate UniqueTokens(es: seq<Event>) {
    forall i, j ::
      0 <= i < |es| && 0 <= j < |es| && es[i].Claim? && es[j].Claim? && es[i].call.lease.fencingToken == es[j].call.lease.fencingToken ==>
        es[i].call.lease == es[j].call.lease
  }

  lemma {:induction false} AcquiresShorter(capacity: int, es: seq<Event>, i: nat, key: string)
    requires i + 1 < |es|
    ensures Acquires(capacity, es, i, key) <==> Acquires(capacity, es[..|es| - 1], i, key)
  {
    assert es[..|es| - 1][..i] == es[..i];
  }

  // Only an accepted claim of the key itself changes its latest grant.
  lemma {:induction false} LastGrantAfter(w: World, e: Event, key: string)
    ensures LastGrant(Step(w, e).grants, key) ==
      if e.Claim? && e.call.key == key && AnswerTo(w, e.call).Acquired? then Some(GrantTo(e.call)) else LastGrant(w.grants, key)
  {
    var longer := Step(w, e).grants;
    assert longer == w.grants || longer[..|w.grants|] == w.grants;
  }

  lemma {:induction false} StillLast(capacity: int, es: seq<Event>, i: nat, key: string)
    requires i + 1 < |es| && LastAcquires(capacity, es[..|es| - 1], i, key) && !Acquires(capacity, es, |es| - 1, key)
    ensures LastAcquires(capacity, es, i, key)
  {
    AcquiresShorter(capacity, es, i, key);
    forall j: nat | i < j < |es| ensures !Acquires(capacity, es, j, key) {
      if j + 1 < |es| {
        AcquiresShorter(capacity, es, j, key);
      }
    }
  }

  // The latest grant of a key is that of its latest acquisition.
  lemma {:induction false} LastGrantIsAcquired(capacity: int, es: seq<Event>, key: string)
    ensures var last := LastGrant(Run(Start(capacity), es).grants, key);
      last.Some? ==> exists i: nat :: i < |es| && LastAcquires(capacity, es, i, key) && last.value == GrantTo(es[i].call)
  {
    if es != [] {
      var n := |es| - 1;
      var front := es[..n];
      var w := Run(Start(capacity), front);
      LastGrantIsAcquired(capacity, front, key);
      LastGrantAfter(w, es[n], key);
      if Acquires(capacity, es, n, key) {
        assert LastAcquires(capacity, es, n, key);
      } else if LastGrant(w.grants, key).Some? {
        var i: nat :| i < n && LastAcquires(capacity, front, i, key) && LastGrant(w.grants, key).value == GrantTo(front[i].call);
        StillLast(capacity, es, i, key);
      }
    }
  }

  // A CLAIM_HELD answer goes to the caller whose call was the latest to acquire the key, with the same lease; it
  // falls into that grant exactly when it is not before the instant of that call. Nothing in the store checks this.
  lemma {:induction false} HeldWithinGrant(capacity: int, es: seq<Event>, c: Call)
    requires UniqueTokens(es + [Claim(c)]) && AnswerTo(Run(Start(capacity), es), c).ClaimHeld?
    ensures exists i: nat ::
      && i < |es| && LastAcquires(capacity, es, i, c.key)
      && es[i].call.lease == c.lease
      && LastGrant(Run(Start(capacity), es).grants, c.key) == Some(GrantTo(es[i].call))
      && (InGrant(Run(Start(capacity), es), c) <==> es[i].call.at <= c.at)
  {
    var w := Run(Start(capacity), es);
    RunKeepsInv(Start(capacity), es);
    assert RowMatches(w, c.key);
    LastGrantIsAcquired(capacity, es, c.key);
    var i: nat :| i < |es| && LastAcquires(capacity, es, i, c.key) && LastGrant(w.grants, c.key).value == GrantTo(es[i].call);
    var all := es + [Claim(c)];
    assert all[i] == es[i] && all[|es|] == Claim(c);
    assert es[i].call.presented == es[i].call.lease.fencingToken;
  }

  // Event i acquires the key, and event j is answered CLAIM_HELD for it under the same lease.
  predicate HeldAgain(capacity: int, es: seq<Event>, i: nat, j: nat)
    requires i < j < |es|
  {
    Holds(capacity, es, j) && Acquires(capacity, es, i, es[j].call.key) && es[i].call.lease == es[j].call.lease
  }

  // No held call comes at an earlier instant than the acquisition.
  predicate NoStepBack(capacity: int, es: seq<Event>) {
    forall i, j :: 0 <= i < j < |es| && HeldAgain(capacity, es, i, j) ==> es[i].call.at <= es[j].call.at
  }

  // No lease is ever presented at an earlier instant than before.
  predicate InOrder(es: seq<Event>) {
    forall i, j ::
      0 <= i < j < |es| && es[i].Claim? && es[j].Claim? && es[i].call.lease == es[j].call.lease ==> es[i].call.at <= es[j].call.at
  }

  lemma {:induction false} HeldByItsGrant(capacity: int, es: seq<Event>, j: nat) returns (i: nat)
    requires UniqueTokens(es) && j < |es| && Holds(capacity, es, j)
    ensures i < j && HeldAgain(capacity, es, i, j)
    ensures InGrant(Before(capacity, es, j), es[j].call) <==> es[i].call.at <= es[j].call.at
    ensures LastGrant(Before(capacity, es, j).grants, es[j].call.key) == Some(GrantTo(es[i].call))
  {
    var front := es[..j];
    assert front + [Claim(es[j].call)] == es[..j + 1];
    HeldWithinGrant(capacity, front, es[j].call);
    i :| i < j && LastAcquires(capacity, front, i, es[j].call.key) && front[i].call.lease == es[j].call.lease
         && LastGrant(Run(Start(capacity), front).grants, es[j].call.key) == Some(GrantTo(front[i].call))
         && (InGrant(Run(Start(capacity), front), es[j].call) <==> front[i].call.at <= es[j].call.at);
    assert front[..i] == es[..i];
  }

  // The grant a held call belongs to was acquired by one event only.
  lemma {:induction false} OneAcquisition(capacity: int, es: seq<Event>, i: nat, k: nat)
    requires i < k < |es| && es[i].Claim? && es[k].Claim? && es[i].call.key == es[k].call.key
    requires Acquires(capacity, es, i, es[k].call.key) && Acquires(capacity, es, k, es[k].call.key)
    ensures es[i].call.presented < es[k].call.presented
  {
    var key := es[k].call.key;
    var after := es[..i + 1];
    assert after[..i] == es[..i];
    var w, w1 := Before(capacity, es, i), Before(capacity, es, i + 1);
    assert w1 == Step(w, es[i]);
    TokenOnlyGrows(capacity, es, i + 1, k, key);
  }

  lemma {:induction false} TokenOnlyGrows(capacity: int, es: seq<Event>, i: nat, k: nat, key: string)
    requires i <= k <= |es| && key in Before(capacity, es, i).rows
    ensures key in Before(capacity, es, k).rows && Before(capacity, es, k).rows[key].token >= Before(capacity, es, i).rows[key].token
    decreases k
  {
    if i < k {
      TokenOnlyGrows(capacity, es, i, k - 1, key);
      assert es[..k][..k - 1] == es[..k - 1];
      StepBinds(Before(capacity, es, k - 1), es[k - 1], key);
    }
  }

  // Over a run: every CLAIM_HELD falls into its grant exactly when none comes at an earlier instant than the call that
  // acquired the key under the same lease. In particular, every one does if no lease is ever presented at an earlier
  // instant than before.
  lemma {:induction false} EveryHeldInItsGrant(capacity: int, es: seq<Event>)
    requires UniqueTokens(es)
    ensures (forall j :: 0 <= j < |es| && Holds(capacity, es, j) ==> InGrant(Before(capacity, es, j), es[j].call)) <==> NoStepBack(capacity, es)
    ensures InOrder(es) ==> NoStepBack(capacity, es)
  {
    forall j | 0 <= j < |es| && Holds(capacity, es, j) && NoStepBack(capacity, es)
      ensures InGrant(Before(capacity, es, j), es[j].call)
    {
      var i := HeldByItsGrant(capacity, es, j);
      assert HeldAgain(capacity, es, i, j);
    }
    forall i, j | 0 <= i < j < |es| && HeldAgain(capacity, es, i, j) && InGrant(Before(capacity, es, j), es[j].call)
      ensures es[i].call.at <= es[j].call.at
    {
      var k := HeldByItsGrant(capacity, es, j);
      if i < k {
        OneAcquisition(capacity, es, i, k);
      } else if k < i {
        OneAcquisition(capacity, es, k, i);
      }
    }
  }

  // The lower side does fail: granted at 5, held again "at" 3.
  lemma {:induction false} HeldBeforeItsGrant()
    ensures var lease := Lease("k", 1, 0, 10); var c := Call("k", "p", 1, lease, 1, 3);
      var w := Run(Start(1), [Claim(Call("k", "p", 1, lease, 1, 5))]);
      && LastGrant(w.grants, "k") == Some(Grant("k", 1, 5, 10))
      && AnswerTo(w, c).ClaimHeld? && !InGrant(w, c)
  {
    var lease := Lease("k", 1, 0, 10);
    var first := Claim(Call("k", "p", 1, lease, 1, 5));
    var w := Step(Start(1), first);
    assert [first][..0] == [];
    assert Run(Start(1), [first]) == w;
    assert w.grants == [Grant("k", 1, 5, 10)];
  }
}
