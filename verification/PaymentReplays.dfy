/**
  What a repeated request is answered with (src/workflows/payments/workflow.py:330-343, :554-567): over every run,
  exactly which reconciliations keep it the record of the request's own evidence.
 */
module PaymentReplays {
  import opened Wrappers
  import opened References
  import Q = ReconciliationQueue
  import opened ErpLedger
  import opened LedgerRuns
  import opened LedgerBalance
  import opened PaymentFlow
  import opened PaymentRuns
  import opened PaymentAnchors

  predicate IsRecorded(f: Flow, s: Scope) {
    s in f.claims && f.claims[s].outcome.Recorded?
  }

  // Every recorded claim that a request can still be answered from names a record of its own evidence; a request for
  // pending evidence is blocked before the claims are looked at.
  ghost predicate LiveRight(w: World) {
    forall s :: IsRecorded(w.flow, s) && w.flow.claims[s].payload.evidence !in w.flow.pending ==> RightClaim(w.ledger.payments, w.flow.claims[s])
  }

  // Recorded claims name records that exist, and none of a pending payment names a record of its evidence.
  ghost predicate Known(payments: seq<Payment>, c: Claim) {
    c.reference.Some? && exists k: nat :: k < |payments| && payments[k].reference == c.reference.value
  }

  ghost predicate RecordedInv(w: World) {
    forall s :: IsRecorded(w.flow, s) ==>
      && Known(w.ledger.payments, w.flow.claims[s])
      && (w.flow.claims[s].payload.evidence in w.flow.pending ==> !RightClaim(w.ledger.payments, w.flow.claims[s]))
  }

  // Steps other than reconciliations

  // A claim recorded by a step names a record of its own evidence, which is not pending; all others were there before.
  ghost predicate News(f: Flow, w: World) {
    forall s :: IsRecorded(w.flow, s) ==>
      || (IsRecorded(f, s) && w.flow.claims[s] == f.claims[s])
      || (RightClaim(w.ledger.payments, w.flow.claims[s]) && w.flow.claims[s].payload.evidence !in w.flow.pending)
  }

  lemma {:induction false} ReadBackNews(env: Q.Env, w: World, f: Flow, a: Ask, reference: string, record: Answer<Payment>, invoice: Answer<Invoice>, k: nat)
    requires w.flow == Opened(f, a) && a.payload.evidence !in f.pending && CarriesAt(w.ledger.payments, reference, a.payload.evidence, k)
    ensures News(f, ReadBack(env, w, a, reference, record, invoice).0)
  {
    assert RightClaim(w.ledger.payments, Claim(a.payload, Recorded, Some(reference), None));
  }

  lemma {:induction false} AfterRecordNews(env: Q.Env, w: World, f: Flow, a: Ask, r: Answer<string>, outage: bool)
    requires w.flow == Opened(f, a) && a.payload.evidence !in f.pending && Applied(w.ledger, a, r)
    ensures News(f, AfterRecord(env, w, a, r, outage).0)
  {
    if r.Ok? {
      var k: nat :| CarriesAt(w.ledger.payments, r.value, a.payload.evidence, k);
      var l := Under(w.ledger, outage);
      ReadBackNews(env, w.(ledger := l), f, a, r.value, ReadPayment(l, r.value), ReadInvoice(l, a.payload.invoiceRef), k);
    }
  }

  lemma {:induction false} AttemptNews(env: Q.Env, w: World, a: Ask, o: Weather)
    requires LedgerInv(w.ledger) && GoodAsk(w, a)
    ensures News(w.flow, Attempt(env, w, a, o).0)
  {
    DoKeepsInv(w.ledger, SimulateOutage(o.write));
    RecordApplies(Under(w.ledger, o.write), a);
    var (l, r) := RecordStep(Under(w.ledger, o.write), CommandOf(a.payload));
    AfterRecordNews(env, World(l, w.queue, Opened(w.flow, a)), w.flow, a, r, o.readBack);
  }

  lemma {:induction false} RecordNews(env: Q.Env, w: World, a: Ask, o: Weather)
    requires PayInv(w)
    ensures News(w.flow, RecordFlow(env, w, a, o).0)
  {
    if GoodAsk(w, a) {
      var l := Under(w.ledger, o.read);
      OutageKeeps(w, o.read);
      var read := ReadInvoice(l, a.payload.invoiceRef);
      if read.Ok? && ClaimVerdict(w.flow, a).Go? {
        AttemptNews(env, w.(ledger := l), a, o);
      }
    }
  }

  // What a step does to records and pending evidence.
  ghost predicate Moves(w: World, w': World) {
    && (forall k: nat :: SameRecord(w.ledger.payments, w'.ledger.payments, k))
    && w.flow.pending <= w'.flow.pending
    && forall e :: e in w'.flow.pending && e !in w.flow.pending ==> e !in w.ledger.evidence
  }

  lemma {:induction false} RecordMoves(env: Q.Env, w: World, a: Ask, o: Weather)
    requires PayInv(w) && UnclearInv(w)
    ensures Moves(w, RecordFlow(env, w, a, o).0)
  {
    PaymentAnchors.RecordForm(env, w, a, o);
    RecordRecords(env, w, a, o);
  }

  lemma {:induction false} RecordRecords(env: Q.Env, w: World, a: Ask, o: Weather)
    ensures forall k: nat :: SameRecord(w.ledger.payments, RecordFlow(env, w, a, o).0.ledger.payments, k)
  {
    RecordGrows(Under(w.ledger, o.write), CommandOf(a.payload));
  }

  lemma {:induction false} ReverseMoves(w: World, a: Action)
    requires a.ReversePayment?
    ensures var w' := ReverseFlow(w, a.payment, a.why, a.wellFormed, a.allowed, a.weather).0;
      Moves(w, w') && w'.flow.claims == w.flow.claims
  {
    ReverseGrows(Under(w.ledger, a.weather.write), a.payment, a.why);
  }

  // A reconciliation that does not reach the provider counts among these.
  lemma {:induction false} OtherMoves(env: Q.Env, w: World, a: Action)
    requires PayInv(w) && UnclearInv(w) && !Reaches(w, a)
    ensures Moves(w, Act(env, w, a)) && News(w.flow, Act(env, w, a))
  {
    match a
    case RecordPayment(ask, o) =>
      RecordNews(env, w, ask, o);
      RecordMoves(env, w, ask, o);
    case SettlePayment(_, _, _, _) => ReconcileFlowStops(w, a);
    case ReversePayment(_, _, _, _, _) => ReverseMoves(w, a);
    case AtProvider(op) => DoGrows(w.ledger, op);
    case AtQueue(_) =>
  }

  lemma {:induction false} NewsKeepRight(w: World, w': World)
    requires ClaimsRight(w) && Moves(w, w') && News(w.flow, w')
    ensures ClaimsRight(w')
  {
    forall s | s in w'.flow.claims ensures RightClaim(w'.ledger.payments, w'.flow.claims[s]) {
      if IsRecorded(w.flow, s) && w'.flow.claims[s] == w.flow.claims[s] {
        StillRight(w.ledger.payments, w'.ledger.payments, w.flow.claims[s]);
      }
    }
  }

  lemma {:induction false} NewsKeepLive(w: World, w': World)
    requires LiveRight(w) && Moves(w, w') && News(w.flow, w')
    ensures LiveRight(w')
  {
    forall s | IsRecorded(w'.flow, s) && w'.flow.claims[s].payload.evidence !in w'.flow.pending
      ensures RightClaim(w'.ledger.payments, w'.flow.claims[s])
    {
      if IsRecorded(w.flow, s) && w'.flow.claims[s] == w.flow.claims[s] {
        StillRight(w.ledger.payments, w'.ledger.payments, w.flow.claims[s]);
      }
    }
  }

  // A claim that names an existing record is right later only if it was right before.
  lemma {:induction false} WasRight(payments: seq<Payment>, more: seq<Payment>, c: Claim)
    requires Known(payments, c) && GoodRecords(more) && (forall k: nat :: SameRecord(payments, more, k)) && RightClaim(more, c)
    ensures RightClaim(payments, c)
  {
    if c.outcome.Recorded? {
      var k: nat :| k < |payments| && payments[k].reference == c.reference.value;
      var j: nat :| CarriesAt(more, c.reference.value, c.payload.evidence, j);
      assert SameRecord(payments, more, k);
      assert GoodRecord(more, k) && GoodRecord(more, j);
      TagNames(more[k].reference, "PAY", k + 1, j + 1);
      assert CarriesAt(payments, c.reference.value, c.payload.evidence, k);
    }
  }

  lemma {:induction false} StillKnown(payments: seq<Payment>, more: seq<Payment>, c: Claim)
    requires Known(payments, c) && forall k: nat :: SameRecord(payments, more, k)
    ensures Known(more, c)
  {
    var k: nat :| k < |payments| && payments[k].reference == c.reference.value;
    assert SameRecord(payments, more, k);
    assert more[k].reference == c.reference.value;
  }

  lemma {:induction false} RightIsKnown(payments: seq<Payment>, c: Claim)
    requires c.outcome.Recorded? && RightClaim(payments, c)
    ensures Known(payments, c) && exists k: nat :: k < |payments| && payments[k].evidence == c.payload.evidence
  {
    var k: nat :| CarriesAt(payments, c.reference.value, c.payload.evidence, k);
    assert payments[k].reference == c.reference.value && payments[k].evidence == c.payload.evidence;
  }

  lemma {:induction false} OldClaimInv(w: World, w': World, c: Claim)
    requires Records(w.ledger) && Records(w'.ledger) && Moves(w, w') && c.outcome.Recorded? && Known(w.ledger.payments, c)
    requires c.payload.evidence in w.flow.pending ==> !RightClaim(w.ledger.payments, c)
    ensures Known(w'.ledger.payments, c)
    ensures c.payload.evidence in w'.flow.pending ==> !RightClaim(w'.ledger.payments, c)
  {
    StillKnown(w.ledger.payments, w'.ledger.payments, c);
    if RightClaim(w'.ledger.payments, c) {
      WasRight(w.ledger.payments, w'.ledger.payments, c);
      RightIsKnown(w.ledger.payments, c);
    }
  }

  lemma {:induction false} NewsKeepKnown(w: World, w': World)
    requires Records(w.ledger) && Records(w'.ledger) && RecordedInv(w) && Moves(w, w') && News(w.flow, w')
    ensures RecordedInv(w')
  {
    forall s | IsRecorded(w'.flow, s)
      ensures Known(w'.ledger.payments, w'.flow.claims[s])
      ensures w'.flow.claims[s].payload.evidence in w'.flow.pending ==> !RightClaim(w'.ledger.payments, w'.flow.claims[s])
    {
      if IsRecorded(w.flow, s) && w'.flow.claims[s] == w.flow.claims[s] {
        OldClaimInv(w, w', w.flow.claims[s]);
      } else {
        RightIsKnown(w'.ledger.payments, w'.flow.claims[s]);
      }
    }
  }

  // Reconciliations that reach the provider

  // The claims they settle name the record found, which carries the evidence asked about; all others stay.
  ghost predicate SettledWith(w: World, w': World, evidence: string, gone: set<Scope>, reference: string, k: nat) {
    && CarriesAt(w'.ledger.payments, reference, evidence, k)
    && |w'.ledger.payments| == |w.ledger.payments| && (forall j: nat :: SameRecord(w.ledger.payments, w'.ledger.payments, j))
    && w'.flow.pending == w.flow.pending - {evidence}
    && forall s :: (s in w'.flow.claims <==> s in w.flow.claims) && (s in w.flow.claims ==>
         w'.flow.claims[s] == (if s in gone then Claim(w.flow.claims[s].payload, Recorded, Some(reference), w.flow.claims[s].invoiceRef) else w.flow.claims[s]))
  }

  // A sweep at a provider with the same invoices, reachable if there is anything to sweep.
  lemma {:induction false} SweepSettles(w: World, l: Ledger, unit: string, reference: string)
    requires ClaimsInv(w.flow) && l.invoices == w.ledger.invoices && l.handles == w.ledger.handles && !w.ledger.outage
    requires forall s :: IsUnclear(w.flow, s) ==> !l.outage
    ensures var swept := Sweep(l, w.flow.claims, w.flow.order, unit, Recorded, Some(reference));
      forall s :: (s in swept <==> s in w.flow.claims) && (s in w.flow.claims ==>
        var c := w.flow.claims[s];
        swept[s] == if IsUnclear(w.flow, s) && Swept(w.ledger, c, unit) then Claim(c.payload, Recorded, Some(reference), c.invoiceRef) else c)
  {
    SweepAt(l, w.flow.claims, w.flow.order, unit, Recorded, Some(reference));
    forall s | IsUnclear(w.flow, s) ensures Swept(l, w.flow.claims[s], unit) <==> Swept(w.ledger, w.flow.claims[s], unit) {
      SweptSame(w.ledger, l, w.flow.claims[s], unit);
    }
  }

  lemma {:induction false} ReconcileClaims(w: World, evidence: string, unit: string, o: Weather) returns (reference: string, k: nat)
    requires PayInv(w) && evidence in w.ledger.evidence && !w.ledger.outage
    ensures SettledWith(w, ReconcileAt(w, evidence, unit, o).0, evidence, SweptAway(w, unit, o), reference, k)
  {
    k := ReconcileFinds(w.ledger, evidence);
    var (l1, r) := ReconcilePaymentStep(w.ledger, evidence);
    reference := r.value.reference;
    if !Interrupted(w, o) {
      SweepSettles(w, Under(l1, o.readBack), unit, reference);
    }
  }

  lemma {:induction false} ReachClaims(env: Q.Env, w: World, a: Action) returns (reference: string, k: nat)
    requires PayInv(w) && UnclearInv(w) && Reaches(w, a)
    ensures SettledWith(w, Act(env, w, a), a.proof, Gone(w, a), reference, k)
  {
    ReadKeeps(w, a);
    ReconcileFlowReaches(w, a);
    reference, k := ReconcileClaims(AtRead(w, a), a.proof, UnitOf(w, a.proof, a.actor, a.weather).value, a.weather);
  }

  // A claim that was settled is right exactly if it was for the evidence asked about; another one exactly as before.
  lemma {:induction false} SettledClaim(w: World, w': World, evidence: string, gone: set<Scope>, reference: string, k: nat, s: Scope)
    requires SettledWith(w, w', evidence, gone, reference, k) && Records(w'.ledger) && s in w.flow.claims
    ensures s in w'.flow.claims
    ensures s in gone ==> (RightClaim(w'.ledger.payments, w'.flow.claims[s]) <==> w.flow.claims[s].payload.evidence == evidence)
    ensures s !in gone ==> (RightClaim(w'.ledger.payments, w'.flow.claims[s]) <==> RightClaim(w.ledger.payments, w.flow.claims[s]))
  {
    var c, payments := w'.flow.claims[s], w'.ledger.payments;
    if s in gone {
      if c.payload.evidence == evidence {
        assert CarriesAt(payments, c.reference.value, c.payload.evidence, k);
      } else if RightClaim(payments, c) {
        var j: nat :| CarriesAt(payments, reference, c.payload.evidence, j);
        SamePayment(payments, reference, c.payload.evidence, j, evidence, k);
      }
    } else {
      if RightClaim(w.ledger.payments, c) { StillRight(w.ledger.payments, payments, c); }
      if RightClaim(payments, c) { ShorterRight(w.ledger.payments, payments, c); }
    }
  }

  lemma {:induction false} ShorterRight(payments: seq<Payment>, more: seq<Payment>, c: Claim)
    requires |more| == |payments| && (forall k: nat :: SameRecord(payments, more, k)) && RightClaim(more, c)
    ensures RightClaim(payments, c)
  {
    if c.outcome.Recorded? {
      var k: nat :| CarriesAt(more, c.reference.value, c.payload.evidence, k);
      assert SameRecord(payments, more, k);
      assert CarriesAt(payments, c.reference.value, c.payload.evidence, k);
    }
  }

  // A reconciliation settles claims for its own evidence only.
  ghost predicate Fits(w: World, a: Action) {
    Reaches(w, a) ==> forall s :: s in Gone(w, a) ==> w.flow.claims[s].payload.evidence == a.proof
  }

  // It settles no claim for evidence that is neither its own nor pending, and its own evidence has no recorded claim:
  // none that another reconciliation settled while it was pending.
  ghost predicate Careful(w: World, a: Action) {
    Reaches(w, a) ==> (forall s :: s in Gone(w, a) ==> s in w.flow.claims) && CarefulAbout(w.flow, a.proof, Gone(w, a))
  }

  ghost predicate CarefulAbout(f: Flow, evidence: string, gone: set<Scope>)
    requires forall s :: s in gone ==> s in f.claims
  {
    && (forall s :: s in gone ==> f.claims[s].payload.evidence == evidence || f.claims[s].payload.evidence in f.pending)
    && forall s :: IsRecorded(f, s) ==> f.claims[s].payload.evidence != evidence
  }

  lemma {:induction false} SettledRight(w: World, w': World, evidence: string, gone: set<Scope>, reference: string, k: nat)
    requires SettledWith(w, w', evidence, gone, reference, k) && Records(w'.ledger) && ClaimsRight(w) && forall s :: s in gone ==> s in w.flow.claims
    ensures ClaimsRight(w') <==> forall s :: s in gone ==> w.flow.claims[s].payload.evidence == evidence
  {
    forall s | s in w.flow.claims
      ensures s in w'.flow.claims && (RightClaim(w'.ledger.payments, w'.flow.claims[s]) <==> s !in gone || w.flow.claims[s].payload.evidence == evidence)
    {
      SettledClaim(w, w', evidence, gone, reference, k, s);
    }
  }

  lemma {:induction false} SettledLive(w: World, w': World, evidence: string, gone: set<Scope>, reference: string, k: nat)
    requires SettledWith(w, w', evidence, gone, reference, k) && Records(w'.ledger) && LiveRight(w) && RecordedInv(w)
    requires evidence in w.flow.pending && forall s :: s in gone ==> s in w.flow.claims && w.flow.claims[s].outcome.Unclear?
    ensures LiveRight(w') <==> CarefulAbout(w.flow, evidence, gone)
  {
    forall s | s in w.flow.claims
      ensures s in w'.flow.claims
      ensures s in gone ==> (RightClaim(w'.ledger.payments, w'.flow.claims[s]) <==> w.flow.claims[s].payload.evidence == evidence)
      ensures s !in gone ==> (RightClaim(w'.ledger.payments, w'.flow.claims[s]) <==> RightClaim(w.ledger.payments, w.flow.claims[s]))
    {
      SettledClaim(w, w', evidence, gone, reference, k, s);
    }
    if LiveRight(w') {
      forall s | s in gone ensures w.flow.claims[s].payload.evidence == evidence || w.flow.claims[s].payload.evidence in w.flow.pending {
        assert IsRecorded(w'.flow, s);
      }
      forall s | IsRecorded(w.flow, s) ensures w.flow.claims[s].payload.evidence != evidence {
        assert s !in gone && IsRecorded(w'.flow, s);
      }
    }
  }

  lemma {:induction false} SettledKnown(w: World, w': World, evidence: string, gone: set<Scope>, reference: string, k: nat)
    requires SettledWith(w, w', evidence, gone, reference, k) && Records(w'.ledger) && RecordedInv(w)
    ensures RecordedInv(w')
  {
    forall s | IsRecorded(w'.flow, s)
      ensures Known(w'.ledger.payments, w'.flow.claims[s])
      ensures w'.flow.claims[s].payload.evidence in w'.flow.pending ==> !RightClaim(w'.ledger.payments, w'.flow.claims[s])
    {
      SettledClaim(w, w', evidence, gone, reference, k, s);
      if s in gone {
        assert w'.ledger.payments[k].reference == reference;
      } else {
        StillKnown(w.ledger.payments, w'.ledger.payments, w.flow.claims[s]);
      }
    }
  }

  // Runs

  lemma {:induction false} GoneIsUnclear(w: World, a: Action)
    requires Reaches(w, a)
    ensures forall s :: s in Gone(w, a) ==> s in w.flow.claims && w.flow.claims[s].outcome.Unclear?
  {
  }

  lemma {:induction false} ReachRight(env: Q.Env, w: World, a: Action)
    requires PayInv(w) && UnclearInv(w) && Reaches(w, a) && ClaimsRight(w) && Records(Act(env, w, a).ledger)
    ensures ClaimsRight(Act(env, w, a)) <==> Fits(w, a)
  {
    var reference, k := ReachClaims(env, w, a);
    GoneIsUnclear(w, a);
    SettledRight(w, Act(env, w, a), a.proof, Gone(w, a), reference, k);
  }

  lemma {:induction false} ReachLive(env: Q.Env, w: World, a: Action)
    requires PayInv(w) && UnclearInv(w) && Reaches(w, a) && RecordedInv(w) && LiveRight(w) && Records(Act(env, w, a).ledger)
    ensures LiveRight(Act(env, w, a)) <==> Careful(w, a)
  {
    var reference, k := ReachClaims(env, w, a);
    GoneIsUnclear(w, a);
    SettledLive(w, Act(env, w, a), a.proof, Gone(w, a), reference, k);
  }

  lemma {:induction false} ReachKnown(env: Q.Env, w: World, a: Action)
    requires PayInv(w) && UnclearInv(w) && Reaches(w, a) && RecordedInv(w) && Records(Act(env, w, a).ledger)
    ensures RecordedInv(Act(env, w, a))
  {
    var reference, k := ReachClaims(env, w, a);
    SettledKnown(w, Act(env, w, a), a.proof, Gone(w, a), reference, k);
  }

  lemma {:induction false} OtherAnswers(env: Q.Env, w: World, a: Action)
    requires PayInv(w) && UnclearInv(w) && !Reaches(w, a) && RecordedInv(w) && Records(Act(env, w, a).ledger)
    ensures RecordedInv(Act(env, w, a))
    ensures (ClaimsRight(w) ==> ClaimsRight(Act(env, w, a))) && (LiveRight(w) ==> LiveRight(Act(env, w, a)))
  {
    OtherMoves(env, w, a);
    NewsKeepKnown(w, Act(env, w, a));
    if ClaimsRight(w) { NewsKeepRight(w, Act(env, w, a)); }
    if LiveRight(w) { NewsKeepLive(w, Act(env, w, a)); }
  }

  // What one action leaves of the recorded claims.
  lemma {:induction false} ActAnswers(env: Q.Env, w: World, a: Action)
    requires PayInv(w) && UnclearInv(w) && RecordedInv(w) && Records(Act(env, w, a).ledger)
    ensures RecordedInv(Act(env, w, a))
    ensures ClaimsRight(w) ==> (ClaimsRight(Act(env, w, a)) <==> Fits(w, a))
    ensures LiveRight(w) ==> (LiveRight(Act(env, w, a)) <==> Careful(w, a))
  {
    if Reaches(w, a) {
      ReachKnown(env, w, a);
      if ClaimsRight(w) { ReachRight(env, w, a); }
      if LiveRight(w) { ReachLive(env, w, a); }
    } else {
      OtherAnswers(env, w, a);
    }
  }

  lemma {:induction false} AtAnswers(env: Q.Env, prefix: string, first: nat, actions: seq<Action>, n: nat)
    requires SeriesPrefix(prefix) && ProperRun(actions) && n <= |actions|
    ensures RecordedInv(At(env, prefix, first, actions, n))
  {
    if n > 0 {
      AtAnswers(env, prefix, first, actions, n - 1);
      StepAnswers(env, prefix, first, actions, n - 1);
    }
  }

  lemma {:induction false} StepAnswers(env: Q.Env, prefix: string, first: nat, actions: seq<Action>, n: nat)
    requires SeriesPrefix(prefix) && ProperRun(actions) && n < |actions| && RecordedInv(At(env, prefix, first, actions, n))
    ensures var w, w' := At(env, prefix, first, actions, n), At(env, prefix, first, actions, n + 1);
      && RecordedInv(w')
      && (ClaimsRight(w) ==> (ClaimsRight(w') <==> Fits(w, actions[n])))
      && (LiveRight(w) ==> (LiveRight(w') <==> Careful(w, actions[n])))
  {
    AtKeeps(env, prefix, first, actions, n);
    AtKeeps(env, prefix, first, actions, n + 1);
    NextAt(env, prefix, first, actions, n);
    ActAnswers(env, At(env, prefix, first, actions, n), actions[n]);
  }

  ghost predicate AlwaysRight(env: Q.Env, prefix: string, first: nat, actions: seq<Action>) {
    forall n: nat :: n <= |actions| ==> ClaimsRight(At(env, prefix, first, actions, n))
  }

  ghost predicate AlwaysFits(env: Q.Env, prefix: string, first: nat, actions: seq<Action>) {
    forall n: nat :: n < |actions| ==> Fits(At(env, prefix, first, actions, n), actions[n])
  }

  ghost predicate AlwaysLive(env: Q.Env, prefix: string, first: nat, actions: seq<Action>) {
    forall n: nat :: n <= |actions| ==> LiveRight(At(env, prefix, first, actions, n))
  }

  ghost predicate AlwaysCareful(env: Q.Env, prefix: string, first: nat, actions: seq<Action>) {
    forall n: nat :: n < |actions| ==> Careful(At(env, prefix, first, actions, n), actions[n])
  }

  lemma {:induction false} FittingSoFar(env: Q.Env, prefix: string, first: nat, actions: seq<Action>, n: nat)
    requires SeriesPrefix(prefix) && ProperRun(actions) && n <= |actions| && AlwaysFits(env, prefix, first, actions)
    ensures ClaimsRight(At(env, prefix, first, actions, n))
  {
    if n > 0 {
      FittingSoFar(env, prefix, first, actions, n - 1);
      AtAnswers(env, prefix, first, actions, n - 1);
      StepAnswers(env, prefix, first, actions, n - 1);
    }
  }

  lemma {:induction false} CarefulSoFar(env: Q.Env, prefix: string, first: nat, actions: seq<Action>, n: nat)
    requires SeriesPrefix(prefix) && ProperRun(actions) && n <= |actions| && AlwaysCareful(env, prefix, first, actions)
    ensures LiveRight(At(env, prefix, first, actions, n))
  {
    if n > 0 {
      CarefulSoFar(env, prefix, first, actions, n - 1);
      AtAnswers(env, prefix, first, actions, n - 1);
      StepAnswers(env, prefix, first, actions, n - 1);
    }
  }

  // Over a run every recorded claim always names a record of its own evidence exactly when every reconciliation that
  // settles claims settles those for its own evidence only.
  lemma {:induction false} RightExactly(env: Q.Env, prefix: string, first: nat, actions: seq<Action>)
    requires SeriesPrefix(prefix) && ProperRun(actions)
    ensures AlwaysRight(env, prefix, first, actions) <==> AlwaysFits(env, prefix, first, actions)
  {
    if AlwaysFits(env, prefix, first, actions) {
      forall n: nat | n <= |actions| ensures ClaimsRight(At(env, prefix, first, actions, n)) {
        FittingSoFar(env, prefix, first, actions, n);
      }
    }
    if AlwaysRight(env, prefix, first, actions) {
      forall n: nat | n < |actions| ensures Fits(At(env, prefix, first, actions, n), actions[n]) {
        var next := n + 1;
        assert ClaimsRight(At(env, prefix, first, actions, n)) && ClaimsRight(At(env, prefix, first, actions, next));
        AtAnswers(env, prefix, first, actions, n);
        StepAnswers(env, prefix, first, actions, n);
      }
    }
  }

  // And every recorded claim a request can still be answered from, its evidence not being pending, always names a record
  // of its own evidence exactly when every reconciliation is careful.
  lemma {:induction false} LiveExactly(env: Q.Env, prefix: string, first: nat, actions: seq<Action>)
    requires SeriesPrefix(prefix) && ProperRun(actions)
    ensures AlwaysLive(env, prefix, first, actions) <==> AlwaysCareful(env, prefix, first, actions)
  {
    if AlwaysCareful(env, prefix, first, actions) {
      forall n: nat | n <= |actions| ensures LiveRight(At(env, prefix, first, actions, n)) {
        CarefulSoFar(env, prefix, first, actions, n);
      }
    }
    if AlwaysLive(env, prefix, first, actions) {
      forall n: nat | n < |actions| ensures Careful(At(env, prefix, first, actions, n), actions[n]) {
        var next := n + 1;
        assert LiveRight(At(env, prefix, first, actions, n)) && LiveRight(At(env, prefix, first, actions, next));
        AtAnswers(env, prefix, first, actions, n);
        StepAnswers(env, prefix, first, actions, n);
      }
    }
  }

  // Replies

  // A request whose claim is recorded is blocked, or answered with the claim's reference; the latter only while its
  // evidence is not pending and its payload is the one of the claim.
  lemma {:induction false} ReplayReply(env: Q.Env, w: World, a: Ask, o: Weather)
    requires IsRecorded(w.flow, ScopeOf(a))
    ensures var claim := w.flow.claims[ScopeOf(a)]; var reply := RecordFlow(env, w, a, o).1;
      || reply == Blocked
      || (reply.RecordedAs? && reply.reference == claim.reference && a.payload == claim.payload && a.payload.evidence !in w.flow.pending)
  {
  }

  // While every reconciliation is careful, repeating a recorded request is answered, if at all, with the one provider
  // record of its own evidence.
  lemma {:induction false} ReplayAnswersItsOwn(env: Q.Env, prefix: string, first: nat, actions: seq<Action>, a: Ask, o: Weather)
    requires SeriesPrefix(prefix) && ProperRun(actions) && AlwaysCareful(env, prefix, first, actions)
    requires IsRecorded(RunPay(env, StartPay(prefix, first), actions).flow, ScopeOf(a))
    ensures var w := RunPay(env, StartPay(prefix, first), actions); var reply := RecordFlow(env, w, a, o).1;
      || reply == Blocked
      || (reply.RecordedAs? && reply.reference.Some? && exists k: nat :: CarriesAt(w.ledger.payments, reply.reference.value, a.payload.evidence, k))
  {
    assert actions[..|actions|] == actions;
    CarefulSoFar(env, prefix, first, actions, |actions|);
    ReplayReply(env, RunPay(env, StartPay(prefix, first), actions), a, o);
  }

  // The failing side, from the start

  lemma {:induction false} SettlesBoth(env: Q.Env, w: World, a: Ask, b: Ask) returns (reference: string, k: nat)
    requires PayInv(w) && UnclearInv(w) && TwoUnclear(w, a, b) && a.payload.evidence in w.flow.pending && a.key == ""
    ensures SettledWith(w, Act(env, w, SettlePayment(a.payload.evidence, a.actor, true, FAIR)), a.payload.evidence,
                        {ScopeOf(a), ScopeOf(b)}, reference, k)
  {
    var settle := SettlePayment(a.payload.evidence, a.actor, true, FAIR);
    FirstReaches(w, a, b, FAIR);
    reference, k := ReachClaims(env, w, settle);
    BothGone(AtRead(w, settle), a, b, FAIR);
  }

  lemma {:induction false} SecondIsWrong(env: Q.Env, w: World, a: Ask, b: Ask)
    requires PayInv(w) && UnclearInv(w) && BothLost(w, a, b) && a.key == ""
    requires Records(Act(env, w, SettlePayment(a.payload.evidence, a.actor, true, FAIR)).ledger)
    ensures !ClaimsRight(Act(env, w, SettlePayment(a.payload.evidence, a.actor, true, FAIR)))
  {
    var settle := SettlePayment(a.payload.evidence, a.actor, true, FAIR);
    var reference, k := SettlesBoth(env, w, a, b);
    SettledClaim(w, Act(env, w, settle), a.payload.evidence, {ScopeOf(a), ScopeOf(b)}, reference, k, ScopeOf(b));
  }

  // One more action: the run goes on from the world reached, and its records stay sound.
  lemma {:induction false} GoesOn(env: Q.Env, front: seq<Action>, a: Action)
    requires ProperRun(front) && Proper(a)
    ensures var w, more := RunPay(env, StartPay("INV", 1), front), front + [a];
      ProperRun(more) && RunPay(env, StartPay("INV", 1), more) == Act(env, w, a) && Records(Act(env, w, a).ledger)
  {
    OneMore(env, StartPay("INV", 1), front, a);
    TwoLostSound(env, front + [a]);
  }

  lemma {:induction false} WrongAfter(env: Q.Env, front: seq<Action>, a: Ask, b: Ask)
    requires ProperRun(front) && BothLost(RunPay(env, StartPay("INV", 1), front), a, b) && a.key == ""
    ensures var actions := front + [SettlePayment(a.payload.evidence, a.actor, true, FAIR)];
      ProperRun(actions) && !ClaimsRight(RunPay(env, StartPay("INV", 1), actions))
  {
    var settle := SettlePayment(a.payload.evidence, a.actor, true, FAIR);
    TwoLostSound(env, front);
    GoesOn(env, front, settle);
    SecondIsWrong(env, RunPay(env, StartPay("INV", 1), front), a, b);
  }

  // Settling the first of two payments of one unit records the claim of the second with the first one's reference.
  lemma {:induction false} SecondMisrecorded(env: Q.Env, a: Ask, b: Ask)
    requires GoodQuarter(a) && GoodQuarter(b) && a.payload.evidence != b.payload.evidence && a.key == "" && b.key == ""
    ensures var actions := TwoLost(a, b) + [SettlePayment(a.payload.evidence, a.actor, true, FAIR)];
      ProperRun(actions) && !ClaimsRight(RunPay(env, StartPay("INV", 1), actions))
  {
    TwoLostBoth(env, a, b);
    TwoLostProper(a, b);
    WrongAfter(env, TwoLost(a, b), a, b);
  }

  // A reconciliation leaves the invoices as they are.
  lemma {:induction false} ReconcileAtInvoices(w: World, evidence: string, unit: string, o: Weather)
    requires Records(w.ledger) && evidence in w.ledger.evidence
    ensures var l' := ReconcileAt(w, evidence, unit, o).0.ledger; l'.invoices == w.ledger.invoices && l'.handles == w.ledger.handles
  {
    var k := ReconcileFinds(w.ledger, evidence);
  }

  lemma {:induction false} SameInvoice(l: Ledger, l': Ledger)
    requires l'.invoices == l.invoices && l'.handles == l.handles && OneInvoice(l)
    ensures OneInvoice(l')
  {
  }

  lemma {:induction false} ReachInvoices(env: Q.Env, w: World, a: Action)
    requires PayInv(w) && UnclearInv(w) && Reaches(w, a) && OneInvoice(w.ledger)
    ensures OneInvoice(Act(env, w, a).ledger)
  {
    ReadKeeps(w, a);
    ReconcileFlowReaches(w, a);
    ReconcileAtInvoices(AtRead(w, a), a.proof, UnitOf(w, a.proof, a.actor, a.weather).value, a.weather);
    SameInvoice(w.ledger, Act(env, w, a).ledger);
  }

  // An interrupted reconciliation of the second payment: both claims stay, and only the first is still pending.
  lemma {:induction false} NothingSettled(w: World, w': World, evidence: string, reference: string, k: nat)
    requires SettledWith(w, w', evidence, {}, reference, k)
    ensures w'.flow.claims == w.flow.claims
  {
    assert w'.flow.claims.Keys == w.flow.claims.Keys;
  }

  lemma {:induction false} InterruptedSettles(env: Q.Env, w: World, a: Ask, b: Ask, o: Weather)
    requires PayInv(w) && UnclearInv(w) && TwoUnclear(w, a, b) && a.payload.evidence in w.flow.pending && a.key == "" && !o.read && o.readBack
    ensures var w' := Act(env, w, SettlePayment(a.payload.evidence, a.actor, true, o));
      w'.flow.claims == w.flow.claims && w'.flow.pending == w.flow.pending - {a.payload.evidence} && OneInvoice(w'.ledger)
  {
    var settle := SettlePayment(a.payload.evidence, a.actor, true, o);
    FirstReaches(w, a, b, o);
    BothGone(AtRead(w, settle), a, b, o);
    var reference, k := ReachClaims(env, w, settle);
    NothingSettled(w, Act(env, w, settle), a.payload.evidence, reference, k);
    ReachInvoices(env, w, settle);
  }

  lemma {:induction false} SecondInterrupted(env: Q.Env, w: World, a: Ask, b: Ask, o: Weather)
    requires PayInv(w) && UnclearInv(w) && BothLost(w, a, b) && b.key == "" && !o.read && o.readBack
    ensures var w' := Act(env, w, SettlePayment(b.payload.evidence, b.actor, true, o));
      TwoUnclear(w', a, b) && w'.flow.pending == {a.payload.evidence}
  {
    Swapped(w, a, b);
    InterruptedSettles(env, w, b, a, o);
    StillTwo(w, Act(env, w, SettlePayment(b.payload.evidence, b.actor, true, o)), a, b);
  }

  lemma {:induction false} Swapped(w: World, a: Ask, b: Ask)
    requires TwoUnclear(w, a, b)
    ensures TwoUnclear(w, b, a)
  {
  }

  lemma {:induction false} StillTwo(w: World, w': World, a: Ask, b: Ask)
    requires BothLost(w, a, b) && w'.flow.claims == w.flow.claims && OneInvoice(w'.ledger)
    requires w'.flow.pending == w.flow.pending - {b.payload.evidence}
    ensures TwoUnclear(w', a, b) && w'.flow.pending == {a.payload.evidence}
  {
  }

  // The request is answered with the record of other evidence, and not of its own.
  ghost predicate AnswersOther(env: Q.Env, w: World, b: Ask, other: string) {
    var reply := RecordFlow(env, w, b, FAIR).1;
    && reply.RecordedAs? && reply.reference.Some?
    && (exists k: nat :: CarriesAt(w.ledger.payments, reply.reference.value, other, k))
    && !exists k: nat :: CarriesAt(w.ledger.payments, reply.reference.value, b.payload.evidence, k)
  }

  lemma {:induction false} RepeatReply(env: Q.Env, w: World, b: Ask, reference: string)
    requires GoodQuarter(b) && OneInvoice(w.ledger) && b.payload.evidence !in w.flow.pending
    requires IsRecorded(w.flow, ScopeOf(b)) && w.flow.claims[ScopeOf(b)].payload == b.payload && w.flow.claims[ScopeOf(b)].reference == Some(reference)
    ensures RecordFlow(env, w, b, FAIR).1.RecordedAs? && RecordFlow(env, w, b, FAIR).1.reference == Some(reference)
  {
    assert StartsWith("INV-000001", "INV-");
  }

  lemma {:induction false} NotBoth(payments: seq<Payment>, reference: string, e: string, k: nat, f: string, j: nat)
    requires GoodRecords(payments) && CarriesAt(payments, reference, e, k) && e != f
    ensures !CarriesAt(payments, reference, f, j)
  {
    if CarriesAt(payments, reference, f, j) {
      SamePayment(payments, reference, e, k, f, j);
    }
  }

  lemma {:induction false} OthersRecord(env: Q.Env, w: World, b: Ask, reference: string, other: string, k: nat)
    requires GoodQuarter(b) && OneInvoice(w.ledger) && b.payload.evidence !in w.flow.pending && other != b.payload.evidence
    requires IsRecorded(w.flow, ScopeOf(b)) && w.flow.claims[ScopeOf(b)].payload == b.payload && w.flow.claims[ScopeOf(b)].reference == Some(reference)
    requires GoodRecords(w.ledger.payments) && CarriesAt(w.ledger.payments, reference, other, k)
    ensures AnswersOther(env, w, b, other)
  {
    RepeatReply(env, w, b, reference);
    forall j: nat ensures !CarriesAt(w.ledger.payments, reference, b.payload.evidence, j) {
      NotBoth(w.ledger.payments, reference, other, k, b.payload.evidence, j);
    }
  }

  // Then the first payment is reconciled, and the second request repeated.
  lemma {:induction false} RepeatAnswersOther(env: Q.Env, w: World, a: Ask, b: Ask)
    requires PayInv(w) && UnclearInv(w) && TwoUnclear(w, a, b) && w.flow.pending == {a.payload.evidence} && a.key == "" && GoodQuarter(b)
    requires Records(Act(env, w, SettlePayment(a.payload.evidence, a.actor, true, FAIR)).ledger)
    ensures AnswersOther(env, Act(env, w, SettlePayment(a.payload.evidence, a.actor, true, FAIR)), b, a.payload.evidence)
  {
    var settle := SettlePayment(a.payload.evidence, a.actor, true, FAIR);
    var reference, k := SettlesBoth(env, w, a, b);
    FirstReaches(w, a, b, FAIR);
    ReachInvoices(env, w, settle);
    OthersRecord(env, Act(env, w, settle), b, reference, a.payload.evidence, k);
  }

  function Interrupt(a: Ask, b: Ask, o: Weather): seq<Action> {
    TwoLost(a, b) + [SettlePayment(b.payload.evidence, b.actor, true, o)]
  }

  lemma {:induction false} InterruptAfter(env: Q.Env, front: seq<Action>, a: Ask, b: Ask, o: Weather)
    requires ProperRun(front) && BothLost(RunPay(env, StartPay("INV", 1), front), a, b) && b.key == "" && !o.read && o.readBack
    ensures var actions := front + [SettlePayment(b.payload.evidence, b.actor, true, o)]; var w := RunPay(env, StartPay("INV", 1), actions);
      ProperRun(actions) && TwoUnclear(w, a, b) && w.flow.pending == {a.payload.evidence}
  {
    TwoLostSound(env, front);
    OneMore(env, StartPay("INV", 1), front, SettlePayment(b.payload.evidence, b.actor, true, o));
    SecondInterrupted(env, RunPay(env, StartPay("INV", 1), front), a, b, o);
  }

  lemma {:induction false} InterruptEnds(env: Q.Env, a: Ask, b: Ask, o: Weather)
    requires GoodQuarter(a) && GoodQuarter(b) && a.payload.evidence != b.payload.evidence && a.key == "" && b.key == "" && !o.read && o.readBack
    ensures var w := RunPay(env, StartPay("INV", 1), Interrupt(a, b, o));
      ProperRun(Interrupt(a, b, o)) && TwoUnclear(w, a, b) && w.flow.pending == {a.payload.evidence}
  {
    TwoLostBoth(env, a, b);
    TwoLostProper(a, b);
    InterruptAfter(env, TwoLost(a, b), a, b, o);
  }

  lemma {:induction false} AnswersAfter(env: Q.Env, front: seq<Action>, a: Ask, b: Ask)
    requires ProperRun(front) && a.key == "" && GoodQuarter(b)
    requires var w := RunPay(env, StartPay("INV", 1), front); TwoUnclear(w, a, b) && w.flow.pending == {a.payload.evidence}
    ensures var actions := front + [SettlePayment(a.payload.evidence, a.actor, true, FAIR)];
      ProperRun(actions) && AnswersOther(env, RunPay(env, StartPay("INV", 1), actions), b, a.payload.evidence)
  {
    var settle := SettlePayment(a.payload.evidence, a.actor, true, FAIR);
    TwoLostSound(env, front);
    GoesOn(env, front, settle);
    RepeatAnswersOther(env, RunPay(env, StartPay("INV", 1), front), a, b);
  }

  // Two payments of one unit; an outage interrupts the reconciliation of the second, and the first one's settles both
  // claims: the second request, repeated, is answered with the first one's record, which does not carry its evidence.
  lemma {:induction false} ReplayAnswersAnothers(env: Q.Env, a: Ask, b: Ask, o: Weather)
    requires GoodQuarter(a) && GoodQuarter(b) && a.payload.evidence != b.payload.evidence && a.key == "" && b.key == "" && !o.read && o.readBack
    ensures var actions := Interrupt(a, b, o) + [SettlePayment(a.payload.evidence, a.actor, true, FAIR)];
      ProperRun(actions) && AnswersOther(env, RunPay(env, StartPay("INV", 1), actions), b, a.payload.evidence)
  {
    InterruptEnds(env, a, b, o);
    AnswersAfter(env, Interrupt(a, b, o), a, b);
  }
}
