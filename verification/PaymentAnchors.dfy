/**
  Which pending payments can still be reconciled (src/workflows/payments/workflow.py): what the search for an
  anchor finds, who can reconcile what, and which reconciliations leave every other pending payment its claim.
 */
module PaymentAnchors {
  import opened Wrappers
  import opened References
  import Q = ReconciliationQueue
  import QR = QueueRuns
  import opened ErpLedger
  import opened LedgerRuns
  import opened LedgerBalance
  import opened PaymentFlow
  import opened PaymentRuns

  predicate IsUnclear(f: Flow, s: Scope) {
    s in f.claims && f.claims[s].outcome.Unclear?
  }

  // The search

  // An unclear claim made under the key that is the evidence itself.
  predicate Keyed(f: Flow, evidence: string, s: Scope) {
    IsUnclear(f, s) && s.key == evidence
  }

  // The one unclear claim of its actor.
  ghost predicate Sole(f: Flow, s: Scope) {
    IsUnclear(f, s) && forall t :: IsUnclear(f, t) && t.actor == s.actor ==> t == s
  }

  predicate LastKeyed(f: Flow, order: seq<Scope>, evidence: string, s: Scope) {
    exists i :: 0 <= i < |order| && order[i] == s && Keyed(f, evidence, s) && forall j :: i < j < |order| ==> !Keyed(f, evidence, order[j])
  }

  predicate NoneKeyed(f: Flow, order: seq<Scope>, evidence: string) {
    forall i :: 0 <= i < |order| ==> !Keyed(f, evidence, order[i])
  }

  predicate Distinct(order: seq<Scope>) {
    forall i, j :: 0 <= i < j < |order| ==> order[i] != order[j]
  }

  // The caller's unclear claims under other keys.
  function Others(f: Flow, order: seq<Scope>, evidence: string, actor: string): seq<Scope> {
    if order == [] then []
    else
      var rest, s := Others(f, order[..|order| - 1], evidence, actor), order[|order| - 1];
      if IsUnclear(f, s) && s.actor == actor && s.key != evidence then rest + [s] else rest
  }

  lemma {:induction false} OthersAre(f: Flow, order: seq<Scope>, evidence: string, actor: string)
    requires Distinct(order)
    ensures var own := Others(f, order, evidence, actor);
      Distinct(own) && forall s :: s in own <==> s in order && IsUnclear(f, s) && s.actor == actor && s.key != evidence
  {
    if order != [] {
      var n := |order| - 1;
      OthersAre(f, order[..n], evidence, actor);
      assert order == order[..n] + [order[n]];
    }
  }

  // What the search has found after part of the claims.
  ghost predicate SearchIs(f: Flow, order: seq<Scope>, evidence: string, actor: string, so: Search) {
    match so
    case Found(invoiceRef) =>
      var mine := Scope(actor, evidence);
      mine in order && IsUnclear(f, mine) && f.claims[mine].invoiceRef == Some(invoiceRef)
    case Looking(exact, own) =>
      && !(Scope(actor, evidence) in order && IsUnclear(f, Scope(actor, evidence)))
      && (exact.None? ==> NoneKeyed(f, order, evidence))
      && (exact.Some? ==> exists s :: LastKeyed(f, order, evidence, s) && f.claims[s].invoiceRef == exact)
      && OwnAre(f, Others(f, order, evidence, actor), own)
  }

  predicate OwnAre(f: Flow, scopes: seq<Scope>, own: seq<string>) {
    |scopes| == |own| && forall k :: 0 <= k < |own| ==> scopes[k] in f.claims && f.claims[scopes[k]].invoiceRef == Some(own[k])
  }

  lemma {:induction false} LastKeyedMoves(f: Flow, order: seq<Scope>, evidence: string, s: Scope)
    requires order != [] && LastKeyed(f, order[..|order| - 1], evidence, s) && !Keyed(f, evidence, order[|order| - 1])
    ensures LastKeyed(f, order, evidence, s)
  {
    var front := order[..|order| - 1];
    var i :| 0 <= i < |front| && front[i] == s && Keyed(f, evidence, s) && forall j :: i < j < |front| ==> !Keyed(f, evidence, front[j]);
    assert order[i] == s;
    forall j | i < j < |order| ensures !Keyed(f, evidence, order[j]) {
      if j < |front| { assert order[j] == front[j]; }
    }
  }

  lemma {:induction false} LookIs(f: Flow, order: seq<Scope>, evidence: string, actor: string, so: Search)
    requires ClaimsInv(f) && order != [] && SearchIs(f, order[..|order| - 1], evidence, actor, so)
    ensures SearchIs(f, order, evidence, actor, Look(f, order[|order| - 1], evidence, actor, so))
  {
    var n := |order| - 1;
    var front, s := order[..n], order[n];
    assert order == front + [s];
    var next := Look(f, s, evidence, actor, so);
    if so.Looking? && next.Looking? {
      if Keyed(f, evidence, s) {
        assert order[n] == s;
        assert LastKeyed(f, order, evidence, s);
      } else {
        if so.exact.Some? {
          var t :| LastKeyed(f, front, evidence, t) && f.claims[t].invoiceRef == so.exact;
          LastKeyedMoves(f, order, evidence, t);
        } else {
          forall i | 0 <= i < |order| ensures !Keyed(f, evidence, order[i]) {
            if i < n { assert order[i] == front[i]; }
          }
        }
      }
    }
  }

  lemma {:induction false} SearchFinds(f: Flow, order: seq<Scope>, evidence: string, actor: string)
    requires ClaimsInv(f)
    ensures SearchIs(f, order, evidence, actor, SearchClaims(f, order, evidence, actor))
  {
    if order != [] {
      SearchFinds(f, order[..|order| - 1], evidence, actor);
      LookIs(f, order, evidence, actor, SearchClaims(f, order[..|order| - 1], evidence, actor));
    }
  }

  // The claim whose invoice decides: the caller's own under the evidence, else the latest of anybody under the
  // evidence, else the only unclear one the caller has.
  ghost predicate AnchoredBy(f: Flow, evidence: string, actor: string, s: Scope) {
    if IsUnclear(f, Scope(actor, evidence)) then s == Scope(actor, evidence)
    else if !NoneKeyed(f, f.order, evidence) then LastKeyed(f, f.order, evidence, s)
    else Sole(f, s) && s.actor == actor
  }

  lemma {:induction false} OneOther(f: Flow, evidence: string, actor: string, s: Scope)
    requires ClaimsInv(f) && Distinct(f.order) && NoneKeyed(f, f.order, evidence)
    ensures Others(f, f.order, evidence, actor) == [s] <==> Sole(f, s) && s.actor == actor
  {
    var own := Others(f, f.order, evidence, actor);
    OthersAre(f, f.order, evidence, actor);
    assert forall t :: IsUnclear(f, t) ==> t in f.order && t.key != evidence;
    if Sole(f, s) && s.actor == actor {
      assert s in own;
      assert own[0] in own && own[|own| - 1] in own;
      assert own[0] == own[|own| - 1];
    }
    if own == [s] {
      assert s in own;
      forall t | IsUnclear(f, t) && t.actor == s.actor ensures t == s { assert t in own; }
    }
  }

  lemma {:induction false} LastKeyedUnique(f: Flow, order: seq<Scope>, evidence: string, s: Scope, t: Scope)
    requires LastKeyed(f, order, evidence, s) && LastKeyed(f, order, evidence, t)
    ensures s == t
  {
  }

  // The search answers with the invoice of that claim, and with nothing exactly when there is none.
  lemma {:induction false} AnchorIs(f: Flow, evidence: string, actor: string)
    requires ClaimsInv(f) && Distinct(f.order)
    ensures Anchor(f, evidence, actor).Some? <==> exists s :: AnchoredBy(f, evidence, actor, s)
    ensures forall s :: AnchoredBy(f, evidence, actor, s) ==> IsUnclear(f, s) && Anchor(f, evidence, actor) == f.claims[s].invoiceRef
  {
    var so := SearchClaims(f, f.order, evidence, actor);
    SearchFinds(f, f.order, evidence, actor);
    match so
    case Found(_) => assert AnchoredBy(f, evidence, actor, Scope(actor, evidence));
    case Looking(exact, own) =>
      if exact.Some? {
        var s :| LastKeyed(f, f.order, evidence, s) && f.claims[s].invoiceRef == exact;
        assert AnchoredBy(f, evidence, actor, s);
        forall t | AnchoredBy(f, evidence, actor, t) ensures t == s { LastKeyedUnique(f, f.order, evidence, s, t); }
      } else {
        forall s ensures Others(f, f.order, evidence, actor) == [s] <==> AnchoredBy(f, evidence, actor, s) { OneOther(f, evidence, actor, s); }
        if |own| == 1 {
          assert Others(f, f.order, evidence, actor) == [Others(f, f.order, evidence, actor)[0]];
        }
      }
  }

  // An actor has an anchor exactly when some unclear claim is keyed by the evidence, or the actor has exactly one.
  lemma {:induction false} HasAnchor(f: Flow, evidence: string, actor: string)
    requires ClaimsInv(f) && Distinct(f.order)
    ensures Anchor(f, evidence, actor).Some? <==> (exists s :: Keyed(f, evidence, s)) || (exists s :: Sole(f, s) && s.actor == actor)
  {
    AnchorIs(f, evidence, actor);
    if exists s :: Keyed(f, evidence, s) {
      var s :| Keyed(f, evidence, s);
      assert s in f.order;
      var last := LatestKeyed(f, f.order, evidence, s);
      assert AnchoredBy(f, evidence, actor, Scope(actor, evidence)) || AnchoredBy(f, evidence, actor, last);
    } else {
      forall s ensures AnchoredBy(f, evidence, actor, s) <==> Sole(f, s) && s.actor == actor {
        assert !Keyed(f, evidence, Scope(actor, evidence));
      }
    }
  }

  lemma {:induction false} LatestKeyed(f: Flow, order: seq<Scope>, evidence: string, s: Scope) returns (last: Scope)
    requires s in order && Keyed(f, evidence, s)
    ensures LastKeyed(f, order, evidence, last)
  {
    var n := |order| - 1;
    if Keyed(f, evidence, order[n]) {
      last := order[n];
      assert LastKeyed(f, order, evidence, last);
    } else {
      assert order == order[..n] + [order[n]];
      last := LatestKeyed(f, order[..n], evidence, s);
      LastKeyedMoves(f, order, evidence, last);
    }
  }

  // Invariant

  // An unclear claim is anchored on an invoice the provider has, and its evidence is reserved.
  predicate Tied(l: Ledger, c: Claim) {
    c.invoiceRef == Some(c.payload.invoiceRef) && RowOf(l, c.payload.invoiceRef).Some? && c.payload.evidence in l.evidence
  }

  // No two unclear claims are for the same evidence.
  ghost predicate OneEach(f: Flow) {
    forall s, t :: IsUnclear(f, s) && IsUnclear(f, t) && f.claims[s].payload.evidence == f.claims[t].payload.evidence ==> s == t
  }

  ghost predicate UnclearInv(w: World) {
    && Distinct(w.flow.order) && OneEach(w.flow)
    && forall s :: IsUnclear(w.flow, s) ==> Tied(w.ledger, w.flow.claims[s])
  }

  // The evidence stays reserved, and handles keep their rows.
  predicate Lasts(l: Ledger, l': Ledger) {
    l.evidence <= l'.evidence && KeepsHandles(l, l') && |l'.invoices| >= |l.invoices|
  }

  lemma {:induction false} StaysTied(l: Ledger, l': Ledger, c: Claim)
    requires Tied(l, c) && Lasts(l, l')
    ensures Tied(l', c)
  {
  }

  // The unclear claims are the same as before.
  ghost predicate SameUnclear(f: Flow, f': Flow) {
    && f'.pending == f.pending && Distinct(f'.order)
    && forall s :: (IsUnclear(f', s) <==> IsUnclear(f, s)) && (IsUnclear(f, s) ==> f'.claims[s] == f.claims[s])
  }

  // One more is unclear, and its evidence pending.
  ghost predicate AddsUnclear(f: Flow, f': Flow, s: Scope, p: Payload) {
    && f'.pending == f.pending + {p.evidence} && Distinct(f'.order)
    && IsUnclear(f', s) && f'.claims[s].payload == p && f'.claims[s].invoiceRef == Some(p.invoiceRef) && !IsUnclear(f, s)
    && forall t :: t != s ==> (IsUnclear(f', t) <==> IsUnclear(f, t)) && (IsUnclear(f, t) ==> f'.claims[t] == f.claims[t])
  }

  // What a step other than a reconciliation does to the unclear claims.
  ghost predicate Steady(w: World, w': World) {
    SameUnclear(w.flow, w'.flow) && Lasts(w.ledger, w'.ledger)
  }

  ghost predicate Adds(w: World, w': World, s: Scope, p: Payload) {
    && AddsUnclear(w.flow, w'.flow, s, p) && Lasts(w.ledger, w'.ledger)
    && p.evidence !in w.ledger.evidence && p.evidence in w'.ledger.evidence && RowOf(w'.ledger, p.invoiceRef).Some?
  }

  lemma {:induction false} SteadyKeeps(w: World, w': World)
    requires UnclearInv(w) && Steady(w, w')
    ensures UnclearInv(w')
  {
    forall s | IsUnclear(w'.flow, s) ensures Tied(w'.ledger, w'.flow.claims[s]) {
      StaysTied(w.ledger, w'.ledger, w.flow.claims[s]);
    }
  }

  lemma {:induction false} AddsKeeps(w: World, w': World, s: Scope, p: Payload)
    requires UnclearInv(w) && Adds(w, w', s, p)
    ensures UnclearInv(w')
  {
    forall t | IsUnclear(w'.flow, t) ensures Tied(w'.ledger, w'.flow.claims[t]) {
      if t != s { StaysTied(w.ledger, w'.ledger, w.flow.claims[t]); }
    }
  }

  // Steps

  lemma {:induction false} PutDistinct(f: Flow, s: Scope, c: Claim)
    requires Distinct(f.order) && (forall t :: t in f.order ==> t in f.claims)
    ensures Distinct(PutClaim(f, s, c).order) && forall t :: t in PutClaim(f, s, c).order ==> t in PutClaim(f, s, c).claims
  {
  }

  // The claim made before the provider is asked.
  function Opened(f: Flow, a: Ask): Flow {
    PutClaim(f, ScopeOf(a), Claim(a.payload, Pending, None, None))
  }

  // After it, a final claim under the same key that is not unclear leaves the unclear claims as they were.
  lemma {:induction false} ClosedSame(f: Flow, a: Ask, c: Claim)
    requires Distinct(f.order) && ClaimsInv(f) && !IsUnclear(f, ScopeOf(a)) && !c.outcome.Unclear?
    ensures SameUnclear(f, PutClaim(Opened(f, a), ScopeOf(a), c))
  {
    PutDistinct(f, ScopeOf(a), Claim(a.payload, Pending, None, None));
    PutDistinct(Opened(f, a), ScopeOf(a), c);
  }

  lemma {:induction false} UnsettledAdds(env: Q.Env, w: World, f: Flow, a: Ask, reference: Option<string>, reply: Reply)
    requires Distinct(f.order) && ClaimsInv(f) && !IsUnclear(f, ScopeOf(a)) && w.flow == Opened(f, a)
    ensures var w' := Unsettled(env, w, a, reference, reply).0;
      AddsUnclear(f, w'.flow, ScopeOf(a), a.payload) && w'.ledger == w.ledger
  {
    PutDistinct(f, ScopeOf(a), Claim(a.payload, Pending, None, None));
    PutDistinct(w.flow, ScopeOf(a), Claim(a.payload, Unclear, reference, Some(a.payload.invoiceRef)));
  }

  lemma {:induction false} AfterRecordForm(env: Q.Env, w: World, f: Flow, a: Ask, r: Answer<string>, outage: bool)
    requires Distinct(f.order) && ClaimsInv(f) && !IsUnclear(f, ScopeOf(a)) && w.flow == Opened(f, a)
    ensures var w' := AfterRecord(env, w, a, r, outage).0;
      && (w'.ledger == w.ledger || w'.ledger == Under(w.ledger, outage))
      && (SameUnclear(f, w'.flow) || (!r.Rejected? && AddsUnclear(f, w'.flow, ScopeOf(a), a.payload)))
  {
    match r
    case Uncertain => UnsettledAdds(env, w, f, a, None, StillUnclear);
    case Rejected => ClosedSame(f, a, Claim(a.payload, Refused, None, None));
    case Ok(reference) =>
      UnsettledAdds(env, w.(ledger := Under(w.ledger, outage)), f, a, Some(reference), Blocked);
      ClosedSame(f, a, Claim(a.payload, Recorded, Some(reference), None));
  }

  lemma {:induction false} RecordReserves(l: Ledger, c: PaymentCommand)
    ensures var (l', r) := RecordStep(l, c);
      && Lasts(l, l')
      && (!r.Rejected? ==> c.evidence !in l.evidence && c.evidence in l'.evidence && RowOf(l', c.invoiceRef).Some?)
  {
  }

  lemma {:induction false} AttemptForm(env: Q.Env, w: World, a: Ask, o: Weather)
    requires UnclearInv(w) && ClaimsInv(w.flow) && !IsUnclear(w.flow, ScopeOf(a))
    ensures var w' := Attempt(env, w, a, o).0; Steady(w, w') || Adds(w, w', ScopeOf(a), a.payload)
  {
    var (l, r) := RecordStep(Under(w.ledger, o.write), CommandOf(a.payload));
    RecordReserves(Under(w.ledger, o.write), CommandOf(a.payload));
    AfterRecordForm(env, World(l, w.queue, Opened(w.flow, a)), w.flow, a, r, o.readBack);
  }

  lemma {:induction false} RecordForm(env: Q.Env, w: World, a: Ask, o: Weather)
    requires UnclearInv(w) && ClaimsInv(w.flow)
    ensures var w' := RecordFlow(env, w, a, o).0; Steady(w, w') || Adds(w, w', ScopeOf(a), a.payload)
  {
    if GoodAsk(w, a) {
      var l := Under(w.ledger, o.read);
      var read := ReadInvoice(l, a.payload.invoiceRef);
      if read.Ok? && ClaimVerdict(w.flow, a).Go? {
        AttemptForm(env, w.(ledger := l), a, o);
      }
    }
  }

  lemma {:induction false} DoLasts(l: Ledger, op: Op)
    requires LedgerInv(l)
    ensures Lasts(l, Do(l, op))
  {
    DoGrows(l, op);
    DoGrowsHandles(l, op);
    DoContinues(l, op);
  }

  lemma {:induction false} ReverseAtForm(w: World, reference: string, reason: string, invoiceRef: string, o: Weather)
    requires LedgerInv(Under(w.ledger, o.write)) && Distinct(w.flow.order)
    ensures Steady(w, ReverseAt(w, reference, reason, invoiceRef, o).0)
  {
    DoLasts(Under(w.ledger, o.write), Reverse(reference, reason));
  }

  lemma {:induction false} ReverseForm(w: World, a: Action)
    requires PayInv(w) && a.ReversePayment? && Distinct(w.flow.order)
    ensures Steady(w, ReverseFlow(w, a.payment, a.why, a.wellFormed, a.allowed, a.weather).0)
  {
    var l := Under(w.ledger, a.weather.read);
    var read := ReadPayment(l, a.payment);
    OutageKeeps(w, a.weather.write);
    if read.Ok? {
      assert Under(l, a.weather.write) == Under(w.ledger, a.weather.write);
      ReverseAtForm(w.(ledger := l), a.payment, a.why, read.value.invoiceRef, a.weather);
    }
  }

  // Every step but a reconciliation.
  lemma {:induction false} OtherForm(env: Q.Env, w: World, a: Action)
    requires PayInv(w) && UnclearInv(w) && !a.SettlePayment?
    ensures var w' := Act(env, w, a); Steady(w, w') || exists s, p :: Adds(w, w', s, p)
  {
    match a
    case RecordPayment(ask, o) => RecordForm(env, w, ask, o);
    case ReversePayment(_, _, _, _, _) => ReverseForm(w, a);
    case AtProvider(op) => DoLasts(w.ledger, op);
    case AtQueue(_) =>
  }

  // A reconciliation

  // The answer came too late for the sweep.
  predicate Interrupted(w: World, o: Weather) {
    o.readBack && AnyUnclear(w.flow)
  }

  // The unclear claims that a reconciliation in the unit settles.
  function SweptAway(w: World, unit: string, o: Weather): set<Scope> {
    set s | s in w.flow.claims && IsUnclear(w.flow, s) && !Interrupted(w, o) && Swept(w.ledger, w.flow.claims[s], unit)
  }

  // The payment is no longer pending, and certain claims no longer unclear.
  ghost predicate Leaves(f: Flow, f': Flow, evidence: string, gone: set<Scope>) {
    && f'.pending == f.pending - {evidence}
    && forall s :: (IsUnclear(f', s) <==> IsUnclear(f, s) && s !in gone) && (IsUnclear(f', s) ==> f'.claims[s] == f.claims[s])
  }

  lemma {:induction false} ReconcileForm(w: World, evidence: string, unit: string, o: Weather)
    requires PayInv(w) && evidence in w.ledger.evidence && !w.ledger.outage
    ensures var w' := ReconcileAt(w, evidence, unit, o).0;
      Leaves(w.flow, w'.flow, evidence, SweptAway(w, unit, o)) && w'.flow.order == w.flow.order && Lasts(w.ledger, w'.ledger)
  {
    var w' := ReconcileAt(w, evidence, unit, o).0;
    var k := ReconcileFinds(w.ledger, evidence);
    var (l1, r) := ReconcilePaymentStep(w.ledger, evidence);
    DoLasts(w.ledger, ReconcilePayment(evidence));
    if !Interrupted(w, o) {
      var l := Under(l1, o.readBack);
      SweepAt(l, w.flow.claims, w.flow.order, unit, Recorded, Some(r.value.reference));
      forall s | IsUnclear(w.flow, s) ensures Swept(l, w.flow.claims[s], unit) <==> Swept(w.ledger, w.flow.claims[s], unit) {
        assert !o.readBack;
        SweptSame(w.ledger, l, w.flow.claims[s], unit);
      }
    }
  }

  lemma {:induction false} ReconcileKeeps(w: World, evidence: string, unit: string, o: Weather)
    requires PayInv(w) && UnclearInv(w) && evidence in w.ledger.evidence && !w.ledger.outage
    ensures UnclearInv(ReconcileAt(w, evidence, unit, o).0)
  {
    var w' := ReconcileAt(w, evidence, unit, o).0;
    ReconcileForm(w, evidence, unit, o);
    forall s | IsUnclear(w'.flow, s) ensures Tied(w'.ledger, w'.flow.claims[s]) {
      StaysTied(w.ledger, w'.ledger, w.flow.claims[s]);
    }
  }

  lemma {:induction false} ReconcileFlowReaches(w: World, a: Action)
    requires a.SettlePayment? && Reaches(w, a)
    ensures !a.weather.read
    ensures ReconcileFlow(w, a.proof, a.actor, a.allowed, a.weather)
         == ReconcileAt(AtRead(w, a), a.proof, UnitOf(w, a.proof, a.actor, a.weather).value, a.weather)
  {
  }

  lemma {:induction false} ReconcileFlowStops(w: World, a: Action)
    requires a.SettlePayment? && !Reaches(w, a)
    ensures var (w', reply) := ReconcileFlow(w, a.proof, a.actor, a.allowed, a.weather);
      reply == Blocked && (w' == w || w' == w.(ledger := Under(w.ledger, a.weather.read)))
  {
  }

  // Pairing

  // A reconciliation that is asked of the provider.
  predicate Reaches(w: World, a: Action) {
    a.SettlePayment? && a.proof in w.flow.pending && a.allowed && UnitOf(w, a.proof, a.actor, a.weather).Some?
  }

  function AtRead(w: World, a: Action): World
    requires a.SettlePayment?
  {
    w.(ledger := Under(w.ledger, a.weather.read))
  }

  // The claims it settles.
  function Gone(w: World, a: Action): set<Scope>
    requires a.SettlePayment? && Reaches(w, a)
  {
    SweptAway(AtRead(w, a), UnitOf(w, a.proof, a.actor, a.weather).value, a.weather)
  }

  predicate OwnClaim(f: Flow, evidence: string, s: Scope) {
    IsUnclear(f, s) && f.claims[s].payload.evidence == evidence
  }

  // Every pending payment has its own unclear claim.
  ghost predicate Owned(f: Flow) {
    forall e :: e in f.pending ==> HasOwn(f, e)
  }

  ghost predicate HasOwn(f: Flow, e: string) {
    exists s :: OwnClaim(f, e, s)
  }

  // Every unclear claim is for a pending payment.
  ghost predicate Awaited(f: Flow) {
    forall s :: IsUnclear(f, s) ==> f.claims[s].payload.evidence in f.pending
  }

  // No reconciliation settles the claim of another pending payment.
  ghost predicate Spares(w: World, a: Action) {
    Reaches(w, a) ==>
      forall s :: s in Gone(w, a) ==> w.flow.claims[s].payload.evidence == a.proof || w.flow.claims[s].payload.evidence !in w.flow.pending
  }

  // A reconciliation settles the claim of its own payment: it is not interrupted, and the claim belongs to the unit.
  ghost predicate Closes(w: World, a: Action) {
    Reaches(w, a) ==> forall s :: OwnClaim(w.flow, a.proof, s) ==> s in Gone(w, a)
  }

  lemma {:induction false} SteadyPairs(f: Flow, f': Flow)
    requires SameUnclear(f, f')
    ensures (Owned(f) ==> Owned(f')) && (Awaited(f) ==> Awaited(f'))
  {
    if Owned(f) {
      forall e | e in f'.pending ensures HasOwn(f', e) {
        assert HasOwn(f, e);
        var s :| OwnClaim(f, e, s);
        assert OwnClaim(f', e, s);
      }
    }
  }

  lemma {:induction false} AddsPairs(f: Flow, f': Flow, s: Scope, p: Payload)
    requires AddsUnclear(f, f', s, p)
    ensures (Owned(f) ==> Owned(f')) && (Awaited(f) ==> Awaited(f'))
  {
    if Owned(f) {
      forall e | e in f'.pending ensures HasOwn(f', e) {
        if e == p.evidence {
          assert OwnClaim(f', e, s);
        } else {
          assert HasOwn(f, e);
          var t :| OwnClaim(f, e, t);
          assert OwnClaim(f', e, t);
        }
      }
    }
  }

  lemma {:induction false} OtherPairs(env: Q.Env, w: World, a: Action)
    requires PayInv(w) && UnclearInv(w) && !Reaches(w, a)
    ensures var w' := Act(env, w, a);
      UnclearInv(w') && (Owned(w.flow) ==> Owned(w'.flow)) && (Awaited(w.flow) ==> Awaited(w'.flow))
  {
    var w' := Act(env, w, a);
    if a.SettlePayment? {
      ReconcileFlowStops(w, a);
      SteadyKeeps(w, w');
    } else {
      OtherForm(env, w, a);
      if Steady(w, w') {
        SteadyKeeps(w, w');
        SteadyPairs(w.flow, w'.flow);
      } else {
        var s, p :| Adds(w, w', s, p);
        AddsKeeps(w, w', s, p);
        AddsPairs(w.flow, w'.flow, s, p);
      }
    }
  }

  lemma {:induction false} ReadKeeps(w: World, a: Action)
    requires PayInv(w) && UnclearInv(w) && Reaches(w, a)
    ensures var w1 := AtRead(w, a); PayInv(w1) && UnclearInv(w1) && a.proof in w1.ledger.evidence && !w1.ledger.outage
  {
    OutageKeeps(w, a.weather.read);
    forall s | IsUnclear(w.flow, s) ensures Tied(AtRead(w, a).ledger, w.flow.claims[s]) { assert Tied(w.ledger, w.flow.claims[s]); }
  }

  lemma {:induction false} SweepForm(w: World, evidence: string, unit: string, o: Weather)
    requires PayInv(w) && UnclearInv(w) && evidence in w.ledger.evidence && !w.ledger.outage
    ensures var w' := ReconcileAt(w, evidence, unit, o).0; UnclearInv(w') && Leaves(w.flow, w'.flow, evidence, SweptAway(w, unit, o))
  {
    ReconcileForm(w, evidence, unit, o);
    ReconcileKeeps(w, evidence, unit, o);
  }

  // A reconciliation that reaches the provider.
  lemma {:induction false} ReachForm(env: Q.Env, w: World, a: Action)
    requires PayInv(w) && UnclearInv(w) && Reaches(w, a)
    ensures UnclearInv(Act(env, w, a)) && Leaves(w.flow, Act(env, w, a).flow, a.proof, Gone(w, a))
  {
    var unit := UnitOf(w, a.proof, a.actor, a.weather).value;
    ReadKeeps(w, a);
    ReconcileFlowReaches(w, a);
    SweepForm(AtRead(w, a), a.proof, unit, a.weather);
  }

  // Every pending payment keeps its own claim exactly when no other pending payment's claim is gone.
  lemma {:induction false} OwnedAfter(f: Flow, f': Flow, evidence: string, gone: set<Scope>)
    requires Leaves(f, f', evidence, gone) && OneEach(f) && Owned(f) && forall s :: s in gone ==> IsUnclear(f, s)
    ensures Owned(f') <==> forall s :: s in gone ==> f.claims[s].payload.evidence == evidence || f.claims[s].payload.evidence !in f.pending
  {
    if forall s :: s in gone ==> f.claims[s].payload.evidence == evidence || f.claims[s].payload.evidence !in f.pending {
      forall e | e in f'.pending ensures HasOwn(f', e) {
        assert HasOwn(f, e);
        var s :| OwnClaim(f, e, s);
        assert OwnClaim(f', e, s);
      }
    } else {
      var s :| s in gone && f.claims[s].payload.evidence != evidence && f.claims[s].payload.evidence in f.pending;
      GoneForGood(f, f', evidence, gone, s);
    }
  }

  lemma {:induction false} GoneForGood(f: Flow, f': Flow, evidence: string, gone: set<Scope>, s: Scope)
    requires Leaves(f, f', evidence, gone) && OneEach(f) && s in gone && IsUnclear(f, s)
    ensures !HasOwn(f', f.claims[s].payload.evidence)
  {
  }

  // Every unclear claim is still awaited exactly when the payment's own claim is gone.
  lemma {:induction false} AwaitedAfter(f: Flow, f': Flow, evidence: string, gone: set<Scope>)
    requires Leaves(f, f', evidence, gone) && Awaited(f)
    ensures Awaited(f') <==> forall s :: OwnClaim(f, evidence, s) ==> s in gone
  {
    if exists s :: OwnClaim(f, evidence, s) && s !in gone {
      var s :| OwnClaim(f, evidence, s) && s !in gone;
      assert IsUnclear(f', s);
    }
  }

  lemma {:induction false} ActPairs(env: Q.Env, w: World, a: Action)
    requires PayInv(w) && UnclearInv(w)
    ensures UnclearInv(Act(env, w, a))
    ensures Owned(w.flow) ==> (Owned(Act(env, w, a).flow) <==> Spares(w, a))
    ensures Awaited(w.flow) ==> (Awaited(Act(env, w, a).flow) <==> Closes(w, a))
  {
    if Reaches(w, a) {
      ReachForm(env, w, a);
      if Owned(w.flow) { OwnedAfter(w.flow, Act(env, w, a).flow, a.proof, Gone(w, a)); }
      if Awaited(w.flow) { AwaitedAfter(w.flow, Act(env, w, a).flow, a.proof, Gone(w, a)); }
    } else {
      OtherPairs(env, w, a);
    }
  }

  function At(env: Q.Env, prefix: string, first: nat, actions: seq<Action>, n: nat): World
    requires n <= |actions|
  {
    RunPay(env, StartPay(prefix, first), actions[..n])
  }

  lemma {:induction false} NextAt(env: Q.Env, prefix: string, first: nat, actions: seq<Action>, n: nat)
    requires n < |actions|
    ensures At(env, prefix, first, actions, n + 1) == Act(env, At(env, prefix, first, actions, n), actions[n])
  {
    assert actions[..n + 1][..n] == actions[..n];
  }

  lemma {:induction false} AtKeeps(env: Q.Env, prefix: string, first: nat, actions: seq<Action>, n: nat)
    requires SeriesPrefix(prefix) && ProperRun(actions) && n <= |actions|
    ensures PayInv(At(env, prefix, first, actions, n)) && UnclearInv(At(env, prefix, first, actions, n))
  {
    assert ProperRun(actions[..n]);
    RunPayKeeps(env, prefix, first, actions[..n]);
    if n > 0 {
      AtKeeps(env, prefix, first, actions, n - 1);
      NextAt(env, prefix, first, actions, n - 1);
      ActPairs(env, At(env, prefix, first, actions, n - 1), actions[n - 1]);
    }
  }

  ghost predicate AlwaysOwned(env: Q.Env, prefix: string, first: nat, actions: seq<Action>) {
    forall n: nat :: n <= |actions| ==> Owned(At(env, prefix, first, actions, n).flow)
  }

  ghost predicate AlwaysSpares(env: Q.Env, prefix: string, first: nat, actions: seq<Action>) {
    forall n: nat :: n < |actions| ==> Spares(At(env, prefix, first, actions, n), actions[n])
  }

  ghost predicate AlwaysAwaited(env: Q.Env, prefix: string, first: nat, actions: seq<Action>) {
    forall n: nat :: n <= |actions| ==> Awaited(At(env, prefix, first, actions, n).flow)
  }

  ghost predicate AlwaysCloses(env: Q.Env, prefix: string, first: nat, actions: seq<Action>) {
    forall n: nat :: n < |actions| ==> Closes(At(env, prefix, first, actions, n), actions[n])
  }

  lemma {:induction false} OwnedStep(env: Q.Env, w: World, a: Action)
    requires PayInv(w) && UnclearInv(w) && Owned(w.flow)
    ensures Owned(Act(env, w, a).flow) <==> Spares(w, a)
  {
    ActPairs(env, w, a);
  }

  lemma {:induction false} AwaitedStep(env: Q.Env, w: World, a: Action)
    requires PayInv(w) && UnclearInv(w) && Awaited(w.flow)
    ensures Awaited(Act(env, w, a).flow) <==> Closes(w, a)
  {
    ActPairs(env, w, a);
  }

  lemma {:induction false} SparingSoFar(env: Q.Env, prefix: string, first: nat, actions: seq<Action>, n: nat)
    requires SeriesPrefix(prefix) && ProperRun(actions) && n <= |actions| && AlwaysSpares(env, prefix, first, actions)
    ensures Owned(At(env, prefix, first, actions, n).flow)
  {
    if n > 0 {
      SparingSoFar(env, prefix, first, actions, n - 1);
      AtKeeps(env, prefix, first, actions, n - 1);
      NextAt(env, prefix, first, actions, n - 1);
      OwnedStep(env, At(env, prefix, first, actions, n - 1), actions[n - 1]);
    }
  }

  lemma {:induction false} ClosingSoFar(env: Q.Env, prefix: string, first: nat, actions: seq<Action>, n: nat)
    requires SeriesPrefix(prefix) && ProperRun(actions) && n <= |actions| && AlwaysCloses(env, prefix, first, actions)
    ensures Awaited(At(env, prefix, first, actions, n).flow)
  {
    if n > 0 {
      ClosingSoFar(env, prefix, first, actions, n - 1);
      AtKeeps(env, prefix, first, actions, n - 1);
      NextAt(env, prefix, first, actions, n - 1);
      AwaitedStep(env, At(env, prefix, first, actions, n - 1), actions[n - 1]);
    }
  }

  // Over a run every pending payment has its own unclear claim at all times exactly when no reconciliation settles the
  // claim of another pending payment.
  lemma {:induction false} OwnedExactly(env: Q.Env, prefix: string, first: nat, actions: seq<Action>)
    requires SeriesPrefix(prefix) && ProperRun(actions)
    ensures AlwaysOwned(env, prefix, first, actions) <==> AlwaysSpares(env, prefix, first, actions)
  {
    if AlwaysSpares(env, prefix, first, actions) {
      forall n: nat | n <= |actions| ensures Owned(At(env, prefix, first, actions, n).flow) {
        SparingSoFar(env, prefix, first, actions, n);
      }
    }
    if AlwaysOwned(env, prefix, first, actions) {
      forall n: nat | n < |actions| ensures Spares(At(env, prefix, first, actions, n), actions[n]) {
        AtKeeps(env, prefix, first, actions, n);
        NextAt(env, prefix, first, actions, n);
        var next := n + 1;
        assert Owned(At(env, prefix, first, actions, n).flow) && Owned(At(env, prefix, first, actions, next).flow);
        OwnedStep(env, At(env, prefix, first, actions, n), actions[n]);
      }
    }
  }

  // And no unclear claim is ever left behind exactly when every reconciliation settles the claim of its own payment:
  // it is in the anchor's unit, and no outage sets in before the sweep.
  lemma {:induction false} AwaitedExactly(env: Q.Env, prefix: string, first: nat, actions: seq<Action>)
    requires SeriesPrefix(prefix) && ProperRun(actions)
    ensures AlwaysAwaited(env, prefix, first, actions) <==> AlwaysCloses(env, prefix, first, actions)
  {
    if AlwaysCloses(env, prefix, first, actions) {
      forall n: nat | n <= |actions| ensures Awaited(At(env, prefix, first, actions, n).flow) {
        ClosingSoFar(env, prefix, first, actions, n);
      }
    }
    if AlwaysAwaited(env, prefix, first, actions) {
      forall n: nat | n < |actions| ensures Closes(At(env, prefix, first, actions, n), actions[n]) {
        AtKeeps(env, prefix, first, actions, n);
        NextAt(env, prefix, first, actions, n);
        var next := n + 1;
        assert Awaited(At(env, prefix, first, actions, n).flow) && Awaited(At(env, prefix, first, actions, next).flow);
        AwaitedStep(env, At(env, prefix, first, actions, n), actions[n]);
      }
    }
  }

  // Who can reconcile what

  const FAIR: Weather := Weather(false, false, false)

  lemma {:induction false} AnchorReads(w: World, e: string, actor: string)
    requires ClaimsInv(w.flow) && UnclearInv(w) && Anchor(w.flow, e, actor).Some?
    ensures ReadInvoice(Under(w.ledger, false), Anchor(w.flow, e, actor).value).Ok?
  {
    AnchorIs(w.flow, e, actor);
    var s :| AnchoredBy(w.flow, e, actor, s);
    assert Tied(w.ledger, w.flow.claims[s]);
  }

  lemma {:induction false} ReconcileAnswers(w: World, e: string, unit: string)
    requires LedgerInv(w.ledger) && e in w.ledger.evidence && !w.ledger.outage
    ensures ReconcileAt(w, e, unit, FAIR).1.RecordedAs?
  {
    var k := ReconcileFinds(w.ledger, e);
    var (l1, r) := ReconcilePaymentStep(w.ledger, e);
    ReconcileKeepsRecords(w.ledger, e);
    RecordIsReadable(l1, k);
  }

  // With the provider reachable, an authorized reconciliation of a pending payment succeeds exactly when the actor has
  // an anchor; without one nothing happens in any weather.
  lemma {:induction false} ReconcilesByAnchor(w: World, e: string, actor: string)
    requires PayInv(w) && UnclearInv(w) && e in w.flow.pending
    ensures ReconcileFlow(w, e, actor, true, FAIR).1.RecordedAs? <==> Anchor(w.flow, e, actor).Some?
    ensures Anchor(w.flow, e, actor).None? ==> forall allowed, o :: ReconcileFlow(w, e, actor, allowed, o) == (w, Blocked)
  {
    if Anchor(w.flow, e, actor).Some? {
      AnchorReads(w, e, actor);
      var w1 := w.(ledger := Under(w.ledger, false));
      OutageKeeps(w, false);
      var unit := ReadInvoice(w1.ledger, Anchor(w.flow, e, actor).value).value.unit;
      ReconcileAnswers(w1, e, unit);
      assert ReconcileFlow(w, e, actor, true, FAIR) == ReconcileAt(w1, e, unit, FAIR);
    }
  }

  // The invoice of a record can be read.
  lemma {:induction false} RecordIsReadable(l: Ledger, k: nat)
    requires Records(l) && k < |l.payments|
    ensures RowOf(l, l.payments[k].invoiceRef).Some?
  {
    assert Placed(l, l.payments[k]);
  }

  // Over every run: a pending payment can be reconciled by an actor exactly when some unclear claim is keyed by its
  // evidence or the actor has exactly one unclear claim; otherwise neither that actor's reconciliations nor anybody's
  // recording of the evidence changes anything.
  lemma {:induction false} ReconcilableExactly(env: Q.Env, prefix: string, first: nat, actions: seq<Action>, e: string, actor: string)
    requires SeriesPrefix(prefix) && ProperRun(actions) && e in RunPay(env, StartPay(prefix, first), actions).flow.pending
    ensures var w := RunPay(env, StartPay(prefix, first), actions);
      && (ReconcileFlow(w, e, actor, true, FAIR).1.RecordedAs? <==>
            (exists s :: Keyed(w.flow, e, s)) || (exists s :: Sole(w.flow, s) && s.actor == actor))
      && (!ReconcileFlow(w, e, actor, true, FAIR).1.RecordedAs? ==> forall allowed, o :: ReconcileFlow(w, e, actor, allowed, o) == (w, Blocked))
      && forall a: Ask, o :: a.payload.evidence == e ==> RecordFlow(env, w, a, o) == (w, Blocked)
  {
    var w := RunPay(env, StartPay(prefix, first), actions);
    assert actions[..|actions|] == actions;
    AtKeeps(env, prefix, first, actions, |actions|);
    ReconcilesByAnchor(w, e, actor);
    HasAnchor(w.flow, e, actor);
  }

  // So somebody can exactly when some unclear claim is keyed by the evidence, or somebody has exactly one.
  lemma {:induction false} StrandedExactly(env: Q.Env, prefix: string, first: nat, actions: seq<Action>, e: string)
    requires SeriesPrefix(prefix) && ProperRun(actions) && e in RunPay(env, StartPay(prefix, first), actions).flow.pending
    ensures var w := RunPay(env, StartPay(prefix, first), actions);
      (exists actor :: ReconcileFlow(w, e, actor, true, FAIR).1.RecordedAs?) <==> (exists s :: Keyed(w.flow, e, s) || Sole(w.flow, s))
  {
    var w := RunPay(env, StartPay(prefix, first), actions);
    if exists s :: Keyed(w.flow, e, s) || Sole(w.flow, s) {
      var s :| Keyed(w.flow, e, s) || Sole(w.flow, s);
      ReconcilableExactly(env, prefix, first, actions, e, s.actor);
      assert ReconcileFlow(w, e, s.actor, true, FAIR).1.RecordedAs?;
    }
    if exists actor :: ReconcileFlow(w, e, actor, true, FAIR).1.RecordedAs? {
      var actor :| ReconcileFlow(w, e, actor, true, FAIR).1.RecordedAs?;
      ReconcilableExactly(env, prefix, first, actions, e, actor);
    }
  }

  // Whose invoice decides

  // The payment's own claim decides for every actor that has an anchor at all.
  ghost predicate NeverMisled(f: Flow, evidence: string, own: Scope) {
    forall actor :: Anchor(f, evidence, actor).Some? ==> AnchoredBy(f, evidence, actor, own)
  }

  // No other unclear claim is keyed by the evidence, and, if its own is not, no other actor has exactly one.
  ghost predicate Unmistakable(f: Flow, evidence: string, own: Scope) {
    && (forall t :: Keyed(f, evidence, t) ==> t == own)
    && (own.key == evidence || forall t :: Sole(f, t) ==> t.actor == own.actor)
  }

  lemma {:induction false} RightAnchor(f: Flow, evidence: string, own: Scope, actor: string)
    requires ClaimsInv(f) && Distinct(f.order) && OwnClaim(f, evidence, own) && Unmistakable(f, evidence, own)
    requires Anchor(f, evidence, actor).Some?
    ensures AnchoredBy(f, evidence, actor, own)
  {
    AnchorIs(f, evidence, actor);
    var s :| AnchoredBy(f, evidence, actor, s);
    if own.key == evidence {
      assert Keyed(f, evidence, own) && own in f.order;
      assert Keyed(f, evidence, s);
    } else {
      assert !Keyed(f, evidence, s);
      assert Sole(f, s) && own.actor == s.actor;
    }
  }

  lemma {:induction false} WrongAnchor(f: Flow, evidence: string, own: Scope)
    requires ClaimsInv(f) && Distinct(f.order) && OwnClaim(f, evidence, own) && NeverMisled(f, evidence, own)
    ensures Unmistakable(f, evidence, own)
  {
    forall t | Keyed(f, evidence, t) ensures t == own {
      HasAnchor(f, evidence, t.actor);
      assert t == Scope(t.actor, evidence);
      assert AnchoredBy(f, evidence, t.actor, own);
    }
    if own.key != evidence {
      forall t | Sole(f, t) ensures t.actor == own.actor {
        HasAnchor(f, evidence, t.actor);
        assert AnchoredBy(f, evidence, t.actor, own);
      }
    }
  }

  lemma {:induction false} MisledExactly(f: Flow, evidence: string, own: Scope)
    requires ClaimsInv(f) && Distinct(f.order) && OwnClaim(f, evidence, own)
    ensures NeverMisled(f, evidence, own) <==> Unmistakable(f, evidence, own)
  {
    if Unmistakable(f, evidence, own) {
      forall actor | Anchor(f, evidence, actor).Some? ensures AnchoredBy(f, evidence, actor, own) {
        RightAnchor(f, evidence, own, actor);
      }
    }
    if NeverMisled(f, evidence, own) {
      WrongAnchor(f, evidence, own);
    }
  }

  // Two payments whose answers are lost: runs from the start that reach the states in question

  // A payment of a quarter of the first invoice, by an actor, under an explicit key or its evidence.
  function Quarter(actor: string, key: string, evidence: string): Ask {
    Ask(actor, key, Payload("INV-000001", Amount("0.25", Some(0.25)), "EUR", evidence, "ACC-1"), true, true, true, 0)
  }

  // The actor and the evidence are well formed.
  predicate GoodQuarter(a: Ask) {
    && a == Quarter(a.actor, a.key, a.payload.evidence) && ':' !in a.actor
    && StartsWith(a.payload.evidence, "EVI-") && !Reserved(a.payload.evidence)
  }

  function UnclearClaim(a: Ask): Claim {
    Claim(a.payload, Unclear, None, Some(a.payload.invoiceRef))
  }

  // One posted invoice, and an answer about to be lost.
  predicate Ready(l: Ledger, open: real) {
    && RowOf(l, "INV-000001") == Some(0) && l.invoices[0].status.Posted? && l.invoices[0].currency == "EUR"
    && l.invoices[0].unit == "UNIT-1" && l.invoices[0].open == open && l.failPayment == Some(LosePayment)
  }

  lemma {:induction false} LosesAnswer(env: Q.Env, w: World, a: Ask, open: real)
    requires Ready(w.ledger, open) && open >= 0.25 && GoodQuarter(a)
    requires ScopeOf(a) !in w.flow.claims && a.payload.evidence !in w.flow.byEvidence
    requires a.payload.evidence !in w.flow.pending && a.payload.evidence !in w.ledger.evidence
    ensures var w' := RecordFlow(env, w, a, FAIR).0;
      && w'.flow == Flow(w.flow.claims[ScopeOf(a) := UnclearClaim(a)], w'.flow.order, w.flow.byEvidence,
                         w.flow.pending + {a.payload.evidence}, w.flow.reversed)
      && w'.ledger.evidence == w.ledger.evidence + {a.payload.evidence} && !w'.ledger.outage
      && Ready(w'.ledger.(failPayment := Some(LosePayment)), open - 0.25)
  {
    assert !Blank(a.payload.evidence) by { assert a.payload.evidence[0] == "EVI-"[0]; }
    assert StartsWith("INV-000001", "INV-");
  }

  const OPENING: seq<Action> := [AtProvider(Create(PLAIN)), AtProvider(Post(Tag("DRAFT", 1))), AtProvider(FailNextPayment(Some(LosePayment)))]

  lemma {:induction false} OneMore(env: Q.Env, w: World, actions: seq<Action>, a: Action)
    ensures RunPay(env, w, actions + [a]) == Act(env, RunPay(env, w, actions), a)
  {
    assert (actions + [a])[..|actions|] == actions;
  }

  lemma {:induction false} FirstNumber()
    ensures Tag("INV", 1) == "INV-000001"
  {
    assert Digits(1) == "1";
    assert PadTo("000001", 6) == "000001" && ['0'] + "00001" == "000001" && ['0'] + "0001" == "00001";
    assert ['0'] + "001" == "0001" && ['0'] + "01" == "001" && ['0'] + "1" == "01";
    assert PadTo("0001", 6) == PadTo("00001", 6) == "000001";
    assert PadTo("1", 6) == PadTo("01", 6) == PadTo("001", 6) == PadTo("0001", 6);
    assert Pad6(1) == "000001" && "INV" + "-" + "000001" == "INV-000001";
  }

  lemma {:induction false} OpeningEnds(env: Q.Env)
    ensures var w := RunPay(env, StartPay("INV", 1), OPENING);
      w.flow == StartPay("INV", 1).flow && w.ledger.evidence == {} && Ready(w.ledger, 1.0)
  {
    var w0 := StartPay("INV", 1);
    OneMore(env, w0, [], OPENING[0]);
    OneMore(env, w0, [OPENING[0]], OPENING[1]);
    OneMore(env, w0, [OPENING[0], OPENING[1]], OPENING[2]);
    assert [] + [OPENING[0]] == [OPENING[0]] && [OPENING[0]] + [OPENING[1]] == [OPENING[0], OPENING[1]];
    assert [OPENING[0], OPENING[1]] + [OPENING[2]] == OPENING;
    OpeningLedger();
  }

  lemma {:induction false} OpeningLedger()
    ensures var l := Do(Do(Do(NewLedger("INV", 1), Create(PLAIN)), Post(Tag("DRAFT", 1))), FailNextPayment(Some(LosePayment)));
      l.evidence == {} && Ready(l, 1.0)
  {
    PlainIsGood();
    FirstNumber();
    var lines := PLAIN.lines;
    assert lines[..0] == [] && Total(lines, "EUR") == Some(1.0);
  }

  function TwoLost(a: Ask, b: Ask): seq<Action> {
    OPENING + [RecordPayment(a, FAIR)] + [AtProvider(FailNextPayment(Some(LosePayment)))] + [RecordPayment(b, FAIR)]
  }

  // The invoice of the two payments.
  predicate OneInvoice(l: Ledger) {
    && RowOf(l, "INV-000001") == Some(0) && l.invoices[0].unit == "UNIT-1"
    && l.invoices[0].status.Posted? && l.invoices[0].currency == "EUR"
  }

  // Exactly these two claims exist, and both are unclear.
  predicate TwoUnclear(w: World, a: Ask, b: Ask) {
    && ScopeOf(a) != ScopeOf(b) && a.payload.evidence != b.payload.evidence
    && w.flow.claims == map[ScopeOf(a) := UnclearClaim(a), ScopeOf(b) := UnclearClaim(b)]
    && OneInvoice(w.ledger) && a.payload.invoiceRef == b.payload.invoiceRef == "INV-000001"
  }

  // And both payments are pending.
  predicate BothLost(w: World, a: Ask, b: Ask) {
    TwoUnclear(w, a, b) && w.flow.pending == {a.payload.evidence, b.payload.evidence}
  }

  function Relost(w: World): World {
    w.(ledger := w.ledger.(failPayment := Some(LosePayment)))
  }

  lemma {:induction false} ThreeMore(env: Q.Env, w: World, front: seq<Action>, x: Action, y: Action, z: Action)
    ensures RunPay(env, w, front + [x] + [y] + [z]) == Act(env, Act(env, Act(env, RunPay(env, w, front), x), y), z)
  {
    OneMore(env, w, front, x);
    OneMore(env, w, front + [x], y);
    OneMore(env, w, front + [x] + [y], z);
  }

  lemma {:induction false} ActLosesNext(env: Q.Env, w: World)
    ensures Act(env, w, AtProvider(FailNextPayment(Some(LosePayment)))) == Relost(w)
  {
  }

  lemma {:induction false} ActRecords(env: Q.Env, w: World, a: Ask)
    ensures Act(env, w, RecordPayment(a, FAIR)) == RecordFlow(env, w, a, FAIR).0
  {
  }

  lemma {:induction false} LostTwice(env: Q.Env, w: World, a: Ask, b: Ask)
    ensures Act(env, Act(env, Act(env, w, RecordPayment(a, FAIR)), AtProvider(FailNextPayment(Some(LosePayment)))), RecordPayment(b, FAIR))
         == RecordFlow(env, Relost(RecordFlow(env, w, a, FAIR).0), b, FAIR).0
  {
    var w1 := RecordFlow(env, w, a, FAIR).0;
    ActRecords(env, w, a);
    ActLosesNext(env, w1);
    ActRecords(env, Relost(w1), b);
  }

  lemma {:induction false} TwoLostRun(env: Q.Env, a: Ask, b: Ask)
    ensures var w1 := RecordFlow(env, RunPay(env, StartPay("INV", 1), OPENING), a, FAIR).0;
      RunPay(env, StartPay("INV", 1), TwoLost(a, b)) == RecordFlow(env, Relost(w1), b, FAIR).0
  {
    var front := OPENING;
    ThreeMore(env, StartPay("INV", 1), front, RecordPayment(a, FAIR), AtProvider(FailNextPayment(Some(LosePayment))), RecordPayment(b, FAIR));
    LostTwice(env, RunPay(env, StartPay("INV", 1), front), a, b);
  }

  lemma {:induction false} TwoLostFlow(env: Q.Env, w: World, a: Ask, b: Ask)
    requires w.flow == StartPay("INV", 1).flow && w.ledger.evidence == {} && Ready(w.ledger, 1.0)
    requires GoodQuarter(a) && GoodQuarter(b) && ScopeOf(a) != ScopeOf(b) && a.payload.evidence != b.payload.evidence
    ensures BothLost(RecordFlow(env, Relost(RecordFlow(env, w, a, FAIR).0), b, FAIR).0, a, b)
  {
    LosesAnswer(env, w, a, 1.0);
    LosesAnswer(env, Relost(RecordFlow(env, w, a, FAIR).0), b, 0.75);
  }

  lemma {:induction false} TwoLostBoth(env: Q.Env, a: Ask, b: Ask)
    requires GoodQuarter(a) && GoodQuarter(b) && ScopeOf(a) != ScopeOf(b) && a.payload.evidence != b.payload.evidence
    ensures BothLost(RunPay(env, StartPay("INV", 1), TwoLost(a, b)), a, b)
  {
    OpeningEnds(env);
    TwoLostRun(env, a, b);
    TwoLostFlow(env, RunPay(env, StartPay("INV", 1), OPENING), a, b);
  }

  lemma {:induction false} TwoLostProper(a: Ask, b: Ask)
    requires ':' !in a.actor && ':' !in b.actor
    ensures ProperRun(TwoLost(a, b)) && SeriesPrefix("INV")
  {
  }

  // The run of both reaches such a state.
  lemma {:induction false} TwoLostEnds(env: Q.Env, a: Ask, b: Ask)
    requires GoodQuarter(a) && GoodQuarter(b) && ScopeOf(a) != ScopeOf(b) && a.payload.evidence != b.payload.evidence
    ensures var w := RunPay(env, StartPay("INV", 1), TwoLost(a, b)); BothLost(w, a, b) && PayInv(w) && UnclearInv(w) && ProperRun(TwoLost(a, b))
  {
    TwoLostBoth(env, a, b);
    TwoLostProper(a, b);
    TwoLostSound(env, TwoLost(a, b));
  }

  lemma {:induction false} TwoLostSound(env: Q.Env, actions: seq<Action>)
    requires ProperRun(actions) && SeriesPrefix("INV")
    ensures PayInv(RunPay(env, StartPay("INV", 1), actions)) && UnclearInv(RunPay(env, StartPay("INV", 1), actions))
  {
    AtKeeps(env, "INV", 1, actions, |actions|);
    assert actions[..|actions|] == actions;
  }

  lemma {:induction false} BothUnclear(w: World, a: Ask, b: Ask)
    requires TwoUnclear(w, a, b)
    ensures forall s :: IsUnclear(w.flow, s) <==> s == ScopeOf(a) || s == ScopeOf(b)
    ensures OwnClaim(w.flow, a.payload.evidence, ScopeOf(a)) && OwnClaim(w.flow, b.payload.evidence, ScopeOf(b)) && AnyUnclear(w.flow)
  {
    assert w.flow.claims[ScopeOf(a)].invoiceRef.Some?;
  }

  // What the search for an anchor relies on.
  ghost predicate Searchable(f: Flow) {
    ClaimsInv(f) && Distinct(f.order)
  }

  lemma {:induction false} NoAnchorForTwo(w: World, a: Ask, b: Ask, e: string, actor: string)
    requires Searchable(w.flow) && BothLost(w, a, b) && a.actor == b.actor && ScopeOf(a).key != e && ScopeOf(b).key != e
    ensures Anchor(w.flow, e, actor).None?
  {
    BothUnclear(w, a, b);
    HasAnchor(w.flow, e, actor);
    forall s ensures !Sole(w.flow, s) {
      assert IsUnclear(w.flow, ScopeOf(a)) && IsUnclear(w.flow, ScopeOf(b));
    }
  }

  // Two payments of one actor under explicit keys: both are pending and have their claims, and nobody can reconcile
  // either, although a scope anchor is documented to always exist.
  lemma {:induction false} TwoKeys(env: Q.Env, a: Ask, b: Ask, actor: string)
    requires GoodQuarter(a) && GoodQuarter(b) && a.actor == b.actor && a.payload.evidence != b.payload.evidence
    requires a.key != "" && b.key != "" && a.key != b.key && {a.key, b.key} !! {a.payload.evidence, b.payload.evidence}
    ensures var w := RunPay(env, StartPay("INV", 1), TwoLost(a, b));
      && ProperRun(TwoLost(a, b)) && w.flow.pending == {a.payload.evidence, b.payload.evidence}
      && OwnClaim(w.flow, a.payload.evidence, ScopeOf(a)) && OwnClaim(w.flow, b.payload.evidence, ScopeOf(b))
      && Anchor(w.flow, a.payload.evidence, actor).None? && Anchor(w.flow, b.payload.evidence, actor).None?
  {
    var w := RunPay(env, StartPay("INV", 1), TwoLost(a, b));
    TwoLostEnds(env, a, b);
    BothUnclear(w, a, b);
    assert a.key in {a.key, b.key} && b.key in {a.key, b.key};
    NoAnchorForTwo(w, a, b, a.payload.evidence, actor);
    NoAnchorForTwo(w, a, b, b.payload.evidence, actor);
  }

  lemma {:induction false} OtherIsSole(w: World, a: Ask, b: Ask)
    requires Searchable(w.flow) && BothLost(w, a, b) && a.actor != b.actor && ScopeOf(a).key != a.payload.evidence && ScopeOf(b).key != a.payload.evidence
    ensures AnchoredBy(w.flow, a.payload.evidence, b.actor, ScopeOf(b)) && !NeverMisled(w.flow, a.payload.evidence, ScopeOf(a))
  {
    BothUnclear(w, a, b);
    assert Sole(w.flow, ScopeOf(b));
    MisledExactly(w.flow, a.payload.evidence, ScopeOf(a));
  }

  // Another actor's single payment decides where a payment under an explicit key is reconciled.
  lemma {:induction false} OthersInvoiceDecides(env: Q.Env, a: Ask, b: Ask)
    requires GoodQuarter(a) && GoodQuarter(b) && a.actor != b.actor && a.payload.evidence != b.payload.evidence
    requires a.key != "" && a.key != a.payload.evidence && b.key == ""
    ensures var w := RunPay(env, StartPay("INV", 1), TwoLost(a, b));
      && ProperRun(TwoLost(a, b)) && OwnClaim(w.flow, a.payload.evidence, ScopeOf(a))
      && AnchoredBy(w.flow, a.payload.evidence, b.actor, ScopeOf(b)) && !NeverMisled(w.flow, a.payload.evidence, ScopeOf(a))
  {
    var w := RunPay(env, StartPay("INV", 1), TwoLost(a, b));
    TwoLostEnds(env, a, b);
    BothUnclear(w, a, b);
    OtherIsSole(w, a, b);
  }

  // A reconciliation of the first payment under its evidence reaches the provider.
  lemma {:induction false} FirstReaches(w: World, a: Ask, b: Ask, o: Weather)
    requires Searchable(w.flow) && TwoUnclear(w, a, b) && a.payload.evidence in w.flow.pending && a.key == "" && !o.read
    ensures Reaches(w, SettlePayment(a.payload.evidence, a.actor, true, o)) && UnitOf(w, a.payload.evidence, a.actor, o) == Some("UNIT-1")
  {
    var e := a.payload.evidence;
    BothUnclear(w, a, b);
    AnchorIs(w.flow, e, a.actor);
    assert AnchoredBy(w.flow, e, a.actor, ScopeOf(a));
  }

  lemma {:induction false} BothGone(w: World, a: Ask, b: Ask, o: Weather)
    requires TwoUnclear(w, a, b) && !w.ledger.outage
    ensures SweptAway(w, "UNIT-1", o) == if o.readBack then {} else {ScopeOf(a), ScopeOf(b)}
  {
    BothUnclear(w, a, b);
  }

  lemma {:induction false} FirstLeaves(env: Q.Env, w: World, a: Ask, b: Ask, o: Weather)
    requires PayInv(w) && UnclearInv(w) && TwoUnclear(w, a, b) && a.payload.evidence in w.flow.pending && a.key == "" && !o.read
    ensures Leaves(w.flow, Act(env, w, SettlePayment(a.payload.evidence, a.actor, true, o)).flow, a.payload.evidence,
                   if o.readBack then {} else {ScopeOf(a), ScopeOf(b)})
  {
    var settle := SettlePayment(a.payload.evidence, a.actor, true, o);
    FirstReaches(w, a, b, o);
    ReachForm(env, w, settle);
    BothGone(AtRead(w, settle), a, b, o);
  }

  lemma {:induction false} NoneUnclear(f: Flow, f': Flow, a: Ask, b: Ask, e: string, actor: string)
    requires Leaves(f, f', a.payload.evidence, {ScopeOf(a), ScopeOf(b)}) && forall s :: IsUnclear(f, s) ==> s == ScopeOf(a) || s == ScopeOf(b)
    ensures !AnyUnclear(f') && Anchor(f', e, actor).None?
  {
    forall s ensures !IsUnclear(f', s) { }
    NothingFound(f', f'.order, e, actor);
  }

  lemma {:induction false} BothSwept(w: World, f': Flow, a: Ask, b: Ask, actor: string)
    requires BothLost(w, a, b) && Leaves(w.flow, f', a.payload.evidence, {ScopeOf(a), ScopeOf(b)})
    ensures f'.pending == {b.payload.evidence} && !AnyUnclear(f') && Anchor(f', b.payload.evidence, actor).None?
  {
    BothUnclear(w, a, b);
    NoneUnclear(w.flow, f', a, b, b.payload.evidence, actor);
  }

  lemma {:induction false} SweepsBoth(env: Q.Env, w: World, a: Ask, b: Ask, actor: string)
    requires PayInv(w) && UnclearInv(w) && BothLost(w, a, b) && a.key == ""
    ensures var w' := Act(env, w, SettlePayment(a.payload.evidence, a.actor, true, FAIR));
      w'.flow.pending == {b.payload.evidence} && !AnyUnclear(w'.flow) && Anchor(w'.flow, b.payload.evidence, actor).None?
  {
    FirstLeaves(env, w, a, b, FAIR);
    BothSwept(w, Act(env, w, SettlePayment(a.payload.evidence, a.actor, true, FAIR)).flow, a, b, actor);
  }

  // Two payments of one unit under their evidence: reconciling the first sweeps up the claim of the second, and
  // nobody can reconcile that one any more.
  lemma {:induction false} SecondStranded(env: Q.Env, a: Ask, b: Ask, actor: string)
    requires GoodQuarter(a) && GoodQuarter(b) && a.payload.evidence != b.payload.evidence && a.key == "" && b.key == ""
    ensures var actions := TwoLost(a, b) + [SettlePayment(a.payload.evidence, a.actor, true, FAIR)];
      var w := RunPay(env, StartPay("INV", 1), actions);
      && ProperRun(actions) && w.flow.pending == {b.payload.evidence} && !AnyUnclear(w.flow)
      && Anchor(w.flow, b.payload.evidence, actor).None?
  {
    TwoLostEnds(env, a, b);
    OneMore(env, StartPay("INV", 1), TwoLost(a, b), SettlePayment(a.payload.evidence, a.actor, true, FAIR));
    SweepsBoth(env, RunPay(env, StartPay("INV", 1), TwoLost(a, b)), a, b, actor);
  }

  lemma {:induction false} StaysUnclear(f: Flow, f': Flow, evidence: string, s: Scope)
    requires Leaves(f, f', evidence, {}) && OwnClaim(f, evidence, s)
    ensures IsUnclear(f', s) && !Awaited(f')
  {
  }

  lemma {:induction false} FirstStays(w: World, f': Flow, a: Ask, b: Ask)
    requires BothLost(w, a, b) && Leaves(w.flow, f', a.payload.evidence, {})
    ensures f'.pending == {b.payload.evidence} && IsUnclear(f', ScopeOf(a)) && !Awaited(f')
  {
    BothUnclear(w, a, b);
    StaysUnclear(w.flow, f', a.payload.evidence, ScopeOf(a));
  }

  lemma {:induction false} LeavesFirst(env: Q.Env, w: World, a: Ask, b: Ask, o: Weather)
    requires PayInv(w) && UnclearInv(w) && BothLost(w, a, b) && a.key == "" && !o.read && o.readBack
    ensures var w' := Act(env, w, SettlePayment(a.payload.evidence, a.actor, true, o));
      w'.flow.pending == {b.payload.evidence} && IsUnclear(w'.flow, ScopeOf(a)) && !Awaited(w'.flow)
  {
    FirstLeaves(env, w, a, b, o);
    FirstStays(w, Act(env, w, SettlePayment(a.payload.evidence, a.actor, true, o)).flow, a, b);
  }

  // What an interrupted sweep leaves behind is blocked.
  lemma {:induction false} LeftIsBlocked(env: Q.Env, w: World, settle: Action, a: Ask)
    requires PayInv(w) && UnclearInv(w) && Reaches(w, settle) && settle.weather.readBack && IsUnclear(w.flow, ScopeOf(a))
    ensures var w' := Act(env, w, settle);
      RecordFlow(env, w', a, FAIR).1 == Blocked && ReconcileFlow(w', settle.proof, a.actor, true, FAIR).1 == Blocked
  {
    var unit := UnitOf(w, settle.proof, settle.actor, settle.weather).value;
    ReadKeeps(w, settle);
    ReconcileFlowReaches(w, settle);
    InterruptedSweep(env, AtRead(w, settle), settle.proof, unit, ScopeOf(a), a, settle.weather, FAIR);
  }

  lemma {:induction false} LeftBehind(env: Q.Env, w: World, a: Ask, b: Ask, o: Weather)
    requires PayInv(w) && UnclearInv(w) && BothLost(w, a, b) && a.key == "" && !o.read && o.readBack
    ensures var w' := Act(env, w, SettlePayment(a.payload.evidence, a.actor, true, o));
      RecordFlow(env, w', a, FAIR).1 == Blocked && ReconcileFlow(w', a.payload.evidence, a.actor, true, FAIR).1 == Blocked
  {
    FirstReaches(w, a, b, o);
    BothUnclear(w, a, b);
    LeftIsBlocked(env, w, SettlePayment(a.payload.evidence, a.actor, true, o), a);
  }

  // An outage that sets in before the sweep: the claim stays unclear, and its payment is not pending any more.
  lemma {:induction false} FirstLeftBehind(env: Q.Env, a: Ask, b: Ask, o: Weather)
    requires GoodQuarter(a) && GoodQuarter(b) && a.payload.evidence != b.payload.evidence && a.key == "" && b.key == ""
    requires !o.read && o.readBack
    ensures var actions := TwoLost(a, b) + [SettlePayment(a.payload.evidence, a.actor, true, o)];
      var w := RunPay(env, StartPay("INV", 1), actions);
      && ProperRun(actions) && w.flow.pending == {b.payload.evidence} && IsUnclear(w.flow, ScopeOf(a)) && !Awaited(w.flow)
      && RecordFlow(env, w, a, FAIR).1 == Blocked && ReconcileFlow(w, a.payload.evidence, a.actor, true, FAIR).1 == Blocked
  {
    var w := RunPay(env, StartPay("INV", 1), TwoLost(a, b));
    TwoLostEnds(env, a, b);
    OneMore(env, StartPay("INV", 1), TwoLost(a, b), SettlePayment(a.payload.evidence, a.actor, true, o));
    LeavesFirst(env, w, a, b, o);
    LeftBehind(env, w, a, b, o);
  }
}
