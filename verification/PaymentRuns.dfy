/**
  What every run of the payment workflow keeps, with anything else going on at the provider and in the
  operator queue: evidence counts once, pending evidence is anchored in the queue and blocked, and the
  evidence index is right. The sweep of a reconciliation settles the right claims under an exact condition.
 */
module PaymentRuns {
  import opened Wrappers
  import opened References
  import Q = ReconciliationQueue
  import QR = QueueRuns
  import opened ErpLedger
  import opened LedgerRuns
  import opened LedgerBalance
  import opened PaymentFlow

  datatype Action =
    | RecordPayment(ask: Ask, weather: Weather)
    | SettlePayment(proof: string, actor: string, allowed: bool, weather: Weather)
    | ReversePayment(payment: string, why: string, wellFormed: bool, allowed: bool, weather: Weather)
    | AtProvider(op: Op)
    | AtQueue(job: QR.Op)

  function Act(env: Q.Env, w: World, a: Action): World {
    match a
    case RecordPayment(ask, o) => RecordFlow(env, w, ask, o).0
    case SettlePayment(proof, actor, allowed, o) => ReconcileFlow(w, proof, actor, allowed, o).0
    case ReversePayment(payment, why, wellFormed, allowed, o) => ReverseFlow(w, payment, why, wellFormed, allowed, o).0
    case AtProvider(op) => w.(ledger := Do(w.ledger, op))
    case AtQueue(job) => w.(queue := QR.Perform(env, w.queue, job).0)
  }

  // Actor references hold no colon, and nobody else enqueues under the workflow's intent keys.
  predicate Proper(a: Action) {
    && (a.RecordPayment? ==> ':' !in a.ask.actor)
    && (a.AtQueue? && a.job.Enqueue? ==> !StartsWith(a.job.intent, "payment:"))
  }

  function RunPay(env: Q.Env, w: World, actions: seq<Action>): World {
    if actions == [] then w else Act(env, RunPay(env, w, actions[..|actions| - 1]), actions[|actions| - 1])
  }

  function StartPay(prefix: string, first: nat): World {
    World(NewLedger(prefix, first), Q.EMPTY_QUEUE, Flow(map[], [], map[], {}, {}))
  }

  // Invariant

  ghost predicate ClaimsInv(f: Flow) {
    && (forall s :: s in f.claims ==> ':' !in s.actor)
    && (forall s :: s in f.claims <==> s in f.order)
    && (forall s :: s in f.claims && f.claims[s].outcome.Unclear? ==> f.claims[s].invoiceRef.Some?)
  }

  predicate IntentKnown(claims: map<Scope, Claim>, item: Q.Item, s: Scope) {
    s in claims && item.intent == IntentOf(s) && item.anchor == claims[s].payload.evidence && item.kind == KIND
  }

  // Every item under a payment intent belongs to a claim and is anchored on its evidence.
  ghost predicate IntentInv(q: Q.Queue, claims: map<Scope, Claim>) {
    forall id :: id in q.items && StartsWith(q.items[id].intent, "payment:") ==> exists s :: IntentKnown(claims, q.items[id], s)
  }

  predicate AnchoredAt(items: map<string, Q.Item>, evidence: string, id: string) {
    id in items && items[id].anchor == evidence && items[id].kind == KIND
  }

  ghost predicate PendingInv(evidence: set<string>, items: map<string, Q.Item>, pending: set<string>) {
    forall e :: e in pending ==> e in evidence && exists id :: AnchoredAt(items, e, id)
  }

  predicate CarriesAt(payments: seq<Payment>, reference: string, evidence: string, k: nat) {
    k < |payments| && payments[k].reference == reference && payments[k].evidence == evidence
  }

  ghost predicate IndexInv(payments: seq<Payment>, byEvidence: map<string, string>) {
    forall e :: e in byEvidence ==> exists k: nat :: CarriesAt(payments, byEvidence[e], e, k)
  }

  ghost predicate PayInv(w: World) {
    && LedgerInv(w.ledger) && QR.Shape(w.queue) && ClaimsInv(w.flow)
    && IntentInv(w.queue, w.flow.claims)
    && PendingInv(w.ledger.evidence, w.queue.items, w.flow.pending)
    && IndexInv(w.ledger.payments, w.flow.byEvidence)
  }

  // The provider's books only grow

  predicate SameRecord(payments: seq<Payment>, more: seq<Payment>, k: nat) {
    k < |payments| ==> k < |more| && more[k].reference == payments[k].reference && more[k].evidence == payments[k].evidence
  }

  ghost predicate Grows(l: Ledger, l': Ledger) {
    l.evidence <= l'.evidence && forall k: nat :: SameRecord(l.payments, l'.payments, k)
  }

  lemma {:induction false} RecordGrows(l: Ledger, c: PaymentCommand)
    ensures Grows(l, RecordStep(l, c).0)
  {
  }

  lemma {:induction false} ReverseGrows(l: Ledger, reference: string, reason: string)
    ensures Grows(l, ReverseStep(l, reference, reason).0)
  {
  }

  lemma {:induction false} PostGrows(l: Ledger, reference: string)
    ensures Grows(l, PostStep(l, reference).0)
  {
    PostRecordsNothing(l, reference);
  }

  lemma {:induction false} DoGrows(l: Ledger, op: Op)
    ensures Grows(l, Do(l, op))
  {
    match op
    case Record(payment) => RecordGrows(l, payment);
    case Reverse(reference, reason) => ReverseGrows(l, reference, reason);
    case Post(reference) => PostGrows(l, reference);
    case _ =>
  }

  lemma {:induction false} StillIndexed(payments: seq<Payment>, more: seq<Payment>, byEvidence: map<string, string>)
    requires IndexInv(payments, byEvidence) && forall k: nat :: SameRecord(payments, more, k)
    ensures IndexInv(more, byEvidence)
  {
    forall e | e in byEvidence
      ensures exists k: nat :: CarriesAt(more, byEvidence[e], e, k)
    {
      var k: nat :| CarriesAt(payments, byEvidence[e], e, k);
      assert SameRecord(payments, more, k);
      assert CarriesAt(more, byEvidence[e], e, k);
    }
  }

  lemma {:induction false} LedgerMoves(w: World, l': Ledger)
    requires PayInv(w) && LedgerInv(l') && Grows(w.ledger, l')
    ensures PayInv(w.(ledger := l'))
  {
    StillIndexed(w.ledger.payments, l'.payments, w.flow.byEvidence);
  }

  lemma {:induction false} ProviderActs(w: World, op: Op)
    requires PayInv(w)
    ensures PayInv(w.(ledger := Do(w.ledger, op)))
  {
    DoKeepsInv(w.ledger, op);
    DoGrows(w.ledger, op);
    LedgerMoves(w, Do(w.ledger, op));
  }

  lemma {:induction false} OutageKeeps(w: World, outage: bool)
    requires PayInv(w)
    ensures PayInv(w.(ledger := Under(w.ledger, outage)))
  {
    ProviderActs(w, SimulateOutage(outage));
  }

  // The queue keeps anchors

  // Items are never dropped, and keep identity, intent, kind and anchor.
  ghost predicate KeepsItems(q: Q.Queue, q': Q.Queue) {
    forall id :: id in q.items ==> id in q'.items && SameItem(q.items[id], q'.items[id])
  }

  predicate SameItem(item: Q.Item, item': Q.Item) {
    item'.intent == item.intent && item'.kind == item.kind && item'.anchor == item.anchor
  }

  lemma {:induction false} StillPending(evidence: set<string>, more: set<string>, q: Q.Queue, q': Q.Queue, pending: set<string>)
    requires PendingInv(evidence, q.items, pending) && evidence <= more && KeepsItems(q, q')
    ensures PendingInv(more, q'.items, pending)
  {
    forall e | e in pending
      ensures exists id :: AnchoredAt(q'.items, e, id)
    {
      var id :| AnchoredAt(q.items, e, id);
      assert SameItem(q.items[id], q'.items[id]);
      assert AnchoredAt(q'.items, e, id);
    }
  }

  lemma {:induction false} SameQueueIntents(q: Q.Queue, q': Q.Queue, claims: map<Scope, Claim>)
    requires IntentInv(q, claims) && KeepsItems(q, q')
    requires forall id :: id in q'.items && id !in q.items ==> !StartsWith(q'.items[id].intent, "payment:")
    ensures IntentInv(q', claims)
  {
    forall id | id in q'.items && StartsWith(q'.items[id].intent, "payment:")
      ensures exists s :: IntentKnown(claims, q'.items[id], s)
    {
      assert SameItem(q.items[id], q'.items[id]);
      var s :| IntentKnown(claims, q.items[id], s);
      assert IntentKnown(claims, q'.items[id], s);
    }
  }

  lemma {:induction false} AfterKeepsItem(op: QR.Op, item: Q.Item)
    ensures SameItem(item, QR.After(op, item))
  {
  }

  lemma {:induction false} PerformKeepsItems(env: Q.Env, q: Q.Queue, op: QR.Op)
    requires QR.Shape(q)
    ensures var q' := QR.Perform(env, q, op).0;
      && QR.Shape(q') && KeepsItems(q, q')
      && forall id :: id in q'.items && id !in q.items ==> op.Enqueue? && q'.items[id].intent == op.intent
  {
    var q' := QR.Perform(env, q, op).0;
    QR.PerformForm(env, q, op);
    QR.PerformKeepsShape(env, q, op);
    forall id | id in q.items
      ensures id in q'.items && SameItem(q.items[id], q'.items[id])
    {
      QR.ItemAfterPerform(env, q, op, id);
      AfterKeepsItem(op, q.items[id]);
    }
  }

  lemma {:induction false} QueueActs(env: Q.Env, w: World, op: QR.Op)
    requires PayInv(w) && (op.Enqueue? ==> !StartsWith(op.intent, "payment:"))
    ensures PayInv(w.(queue := QR.Perform(env, w.queue, op).0))
  {
    var q' := QR.Perform(env, w.queue, op).0;
    PerformKeepsItems(env, w.queue, op);
    SameQueueIntents(w.queue, q', w.flow.claims);
    StillPending(w.ledger.evidence, w.ledger.evidence, w.queue, q', w.flow.pending);
  }

  // Claims and intents

  lemma {:induction false} SplitAtColon(a: string, k: string, b: string, m: string)
    requires ':' !in a && ':' !in b && a + ":" + k == b + ":" + m
    ensures a == b && k == m
  {
    var s := a + ":" + k;
    assert s[|a|] == ':' && s[|b|] == ':';
    assert |a| == |b|;
    assert a == s[..|a|] && b == s[..|b|];
    assert k == s[|a| + 1..] && m == s[|b| + 1..];
  }

  lemma {:induction false} IntentInjective(s: Scope, t: Scope)
    requires ':' !in s.actor && ':' !in t.actor && IntentOf(s) == IntentOf(t)
    ensures s == t
  {
    var p := "payment:";
    assert IntentOf(s) == p + (s.actor + ":" + s.key) && IntentOf(t) == p + (t.actor + ":" + t.key);
    assert IntentOf(s)[|p|..] == s.actor + ":" + s.key;
    assert IntentOf(t)[|p|..] == t.actor + ":" + t.key;
    SplitAtColon(s.actor, s.key, t.actor, t.key);
  }

  // A claim is new, or renewed for the payload it always had.
  predicate SamePayload(f: Flow, s: Scope, c: Claim) {
    s in f.claims ==> f.claims[s].payload == c.payload
  }

  lemma {:induction false} ClaimKeepsIntents(q: Q.Queue, f: Flow, s: Scope, c: Claim)
    requires IntentInv(q, f.claims) && SamePayload(f, s, c)
    ensures IntentInv(q, f.claims[s := c])
  {
    var more := f.claims[s := c];
    forall id | id in q.items && StartsWith(q.items[id].intent, "payment:")
      ensures exists t :: IntentKnown(more, q.items[id], t)
    {
      var t :| IntentKnown(f.claims, q.items[id], t);
      assert IntentKnown(more, q.items[id], t);
    }
  }

  lemma {:induction false} ClaimKeeps(w: World, s: Scope, c: Claim)
    requires PayInv(w) && ':' !in s.actor && SamePayload(w.flow, s, c) && (c.outcome.Unclear? ==> c.invoiceRef.Some?)
    ensures PayInv(w.(flow := PutClaim(w.flow, s, c)))
  {
    ClaimKeepsIntents(w.queue, w.flow, s, c);
    PutKeepsClaims(w.flow, s, c);
  }

  lemma {:induction false} PutKeepsClaims(f: Flow, s: Scope, c: Claim)
    requires ClaimsInv(f) && ':' !in s.actor && (c.outcome.Unclear? ==> c.invoiceRef.Some?)
    ensures ClaimsInv(PutClaim(f, s, c))
  {
  }

  lemma {:induction false} IndexKeeps(w: World, evidence: string, reference: string, k: nat)
    requires PayInv(w) && CarriesAt(w.ledger.payments, reference, evidence, k)
    ensures PayInv(w.(flow := w.flow.(byEvidence := w.flow.byEvidence[evidence := reference])))
  {
    IndexMore(w.ledger.payments, w.flow.byEvidence, evidence, reference, k);
  }

  lemma {:induction false} IndexMore(payments: seq<Payment>, byEvidence: map<string, string>, evidence: string, reference: string, k: nat)
    requires IndexInv(payments, byEvidence) && CarriesAt(payments, reference, evidence, k)
    ensures IndexInv(payments, byEvidence[evidence := reference])
  {
    var more := byEvidence[evidence := reference];
    forall e | e in more
      ensures exists j: nat :: CarriesAt(payments, more[e], e, j)
    {
      if e != evidence {
        var j: nat :| CarriesAt(payments, byEvidence[e], e, j);
        assert CarriesAt(payments, more[e], e, j);
      } else {
        assert CarriesAt(payments, more[e], e, k);
      }
    }
  }

  lemma {:induction false} ReleaseKeeps(w: World, evidence: string)
    requires PayInv(w)
    ensures PayInv(w.(flow := w.flow.(pending := w.flow.pending - {evidence})))
  {
  }

  // An intent that is taken is this claim's own: its item is anchored on the same evidence.
  lemma {:induction false} OwnIntent(q: Q.Queue, f: Flow, s: Scope)
    requires QR.Shape(q) && IntentInv(q, f.claims) && ClaimsInv(f) && s in f.claims && IntentOf(s) in q.byIntent
    ensures AnchoredAt(q.items, f.claims[s].payload.evidence, q.byIntent[IntentOf(s)])
  {
    var id := q.byIntent[IntentOf(s)];
    assert StartsWith(IntentOf(s), "payment:") by {
      assert IntentOf(s)[..|"payment:"|] == "payment:";
    }
    var t :| IntentKnown(f.claims, q.items[id], t);
    IntentInjective(s, t);
  }

  // Enqueueing an unclear payment is never refused, and leaves an item anchored on its evidence.
  lemma {:induction false} EnqueueAnchors(env: Q.Env, q: Q.Queue, f: Flow, s: Scope, now: int)
    requires QR.Shape(q) && IntentInv(q, f.claims) && ClaimsInv(f) && s in f.claims
    ensures var (q', answer) := Q.EnqueueStep(env, q, IntentOf(s), KIND, f.claims[s].payload.evidence, now);
      && answer.Ok? && QR.Shape(q') && KeepsItems(q, q') && IntentInv(q', f.claims)
      && exists id :: AnchoredAt(q'.items, f.claims[s].payload.evidence, id)
  {
    var e := f.claims[s].payload.evidence;
    var job := QR.Enqueue(IntentOf(s), KIND, e, now);
    var (q', answer) := Q.EnqueueStep(env, q, IntentOf(s), KIND, e, now);
    PerformKeepsItems(env, q, job);
    QR.EnqueueForm(env, q, IntentOf(s), KIND, e, now);
    if IntentOf(s) in q.byIntent {
      OwnIntent(q, f, s);
    } else {
      NewIntent(q, q', f, s, answer.item);
    }
  }

  lemma {:induction false} NewIntent(q: Q.Queue, q': Q.Queue, f: Flow, s: Scope, item: Q.Item)
    requires IntentInv(q, f.claims) && s in f.claims && q'.items == q.items[item.id := item] && item.id !in q.items
    requires IntentKnown(f.claims, item, s)
    ensures IntentInv(q', f.claims) && AnchoredAt(q'.items, f.claims[s].payload.evidence, item.id)
  {
    forall id | id in q'.items && StartsWith(q'.items[id].intent, "payment:")
      ensures exists t :: IntentKnown(f.claims, q'.items[id], t)
    {
      if id == item.id {
        assert IntentKnown(f.claims, q'.items[id], s);
      } else {
        var t :| IntentKnown(f.claims, q.items[id], t);
      }
    }
  }

  lemma {:induction false} QueueMoves(w: World, q': Q.Queue)
    requires PayInv(w) && QR.Shape(q') && KeepsItems(w.queue, q') && IntentInv(q', w.flow.claims)
    ensures PayInv(w.(queue := q'))
  {
    StillPending(w.ledger.evidence, w.ledger.evidence, w.queue, q', w.flow.pending);
  }

  lemma {:induction false} BlockKeeps(w: World, evidence: string, id: string)
    requires PayInv(w) && evidence in w.ledger.evidence && AnchoredAt(w.queue.items, evidence, id)
    ensures PayInv(w.(flow := w.flow.(pending := w.flow.pending + {evidence})))
  {
  }

  lemma {:induction false} UnsettledKeeps(env: Q.Env, w: World, a: Ask, reference: Option<string>, reply: Reply)
    requires PayInv(w) && ':' !in a.actor && SamePayload(w.flow, ScopeOf(a), Claim(a.payload, Unclear, reference, Some(a.payload.invoiceRef)))
    requires a.payload.evidence in w.ledger.evidence
    ensures PayInv(Unsettled(env, w, a, reference, reply).0) && Unsettled(env, w, a, reference, reply).1 == reply
  {
    var s, c := ScopeOf(a), Claim(a.payload, Unclear, reference, Some(a.payload.invoiceRef));
    var w1 := w.(flow := PutClaim(w.flow, s, c));
    ClaimKeeps(w, s, c);
    EnqueueAnchors(env, w.queue, w1.flow, s, a.now);
    var q := Q.EnqueueStep(env, w.queue, IntentOf(s), KIND, a.payload.evidence, a.now).0;
    QueueMoves(w1, q);
    var id :| AnchoredAt(q.items, a.payload.evidence, id);
    BlockKeeps(w1.(queue := q), a.payload.evidence, id);
  }

  // Recording

  // The handle of a payment, when it looks like an official one, is the official one.
  lemma {:induction false} OfficialHandle(l: Ledger, h: string)
    requires Names(l) && RowOf(l, h).Some? && StartsWith(h, "INV-")
    ensures l.invoices[RowOf(l, h).value].officialRef == Some(h)
  {
    var i := RowOf(l, h).value;
    assert HandleNamed(l, h) && RowNamed(l, i);
    assert h[0] == "INV-"[0] by {
      assert h[..4] == "INV-";
    }
    assert Tag("DRAFT", i + 1)[0] == 'D';
  }

  lemma {:induction false} RecordTells(l: Ledger, c: PaymentCommand)
    requires Names(l) && l.paymentSequence == |l.payments| + 1 && StartsWith(c.invoiceRef, "INV-") && !RecordStep(l, c).1.Rejected?
    ensures var (l', r) := RecordStep(l, c); var n := |l.payments|;
      && c.evidence in l'.evidence && |l'.payments| == n + 1
      && l'.payments[n].evidence == c.evidence && l'.payments[n].invoiceRef == c.invoiceRef
      && l'.payments[n].reference == Tag("PAY", n + 1)
      && (r.Ok? ==> r.value == Tag("PAY", n + 1))
  {
    OfficialHandle(l, c.invoiceRef);
    RecordForm(l, c);
  }

  // The record found under the n-th payment reference is the n-th.
  lemma {:induction false} PaymentFound(l: Ledger, n: nat)
    requires Records(l) && n < |l.payments|
    ensures PaymentRow(l.payments, Tag("PAY", n + 1)) == Some(n)
  {
    assert GoodRecord(l.payments, n);
    var k := PaymentRow(l.payments, Tag("PAY", n + 1)).value;
    assert GoodRecord(l.payments, k);
    TagNames(l.payments[k].reference, "PAY", k + 1, n + 1);
  }

  // What the provider recorded reads back as it was asked: a mismatch never happens.
  lemma {:induction false} ReadBackMatches(l: Ledger, c: PaymentCommand, outage: bool)
    requires Names(l) && Records(l) && StartsWith(c.invoiceRef, "INV-") && RecordStep(l, c).1.Ok?
    ensures var (l', r) := RecordStep(l, c); var record := ReadPayment(Under(l', outage), r.value);
      (record.Ok? <==> !outage) && (record.Ok? ==> record.value.evidence == c.evidence && record.value.invoiceRef == c.invoiceRef)
  {
    var l' := RecordStep(l, c).0;
    RecordKeepsRecords(l, c);
    RecordTells(l, c);
    PaymentFound(l', |l.payments|);
  }

  // The claim under the request's key is for the request's payload.
  predicate Claimed(f: Flow, a: Ask) {
    ScopeOf(a) in f.claims && f.claims[ScopeOf(a)].payload == a.payload
  }

  lemma {:induction false} ReadBackKeeps(env: Q.Env, w: World, a: Ask, reference: string, record: Answer<Payment>, invoice: Answer<Invoice>, k: nat)
    requires PayInv(w) && ':' !in a.actor && Claimed(w.flow, a)
    requires a.payload.evidence in w.ledger.evidence && CarriesAt(w.ledger.payments, reference, a.payload.evidence, k)
    ensures PayInv(ReadBack(env, w, a, reference, record, invoice).0) && !ReadBack(env, w, a, reference, record, invoice).1.Raised?
  {
    var c := Claim(a.payload, Recorded, Some(reference), None);
    UnsettledKeeps(env, w, a, Some(reference), Blocked);
    ClaimKeeps(w, ScopeOf(a), c);
    IndexKeeps(w.(flow := PutClaim(w.flow, ScopeOf(a), c)), a.payload.evidence, reference, k);
  }

  // The provider's answer and its books agree.
  ghost predicate Applied(l: Ledger, a: Ask, r: Answer<string>) {
    && (!r.Rejected? ==> a.payload.evidence in l.evidence)
    && (r.Ok? ==> exists k: nat :: CarriesAt(l.payments, r.value, a.payload.evidence, k))
  }

  lemma {:induction false} AfterRecordKeeps(env: Q.Env, w: World, a: Ask, r: Answer<string>, outage: bool)
    requires PayInv(w) && ':' !in a.actor && Claimed(w.flow, a) && Applied(w.ledger, a, r)
    ensures PayInv(AfterRecord(env, w, a, r, outage).0) && !AfterRecord(env, w, a, r, outage).1.Raised?
  {
    match r
    case Uncertain => UnsettledKeeps(env, w, a, None, StillUnclear);
    case Rejected => ClaimKeeps(w, ScopeOf(a), Claim(a.payload, Refused, None, None));
    case Ok(reference) =>
      var k: nat :| CarriesAt(w.ledger.payments, reference, a.payload.evidence, k);
      var l := Under(w.ledger, outage);
      OutageKeeps(w, outage);
      ReadBackKeeps(env, w.(ledger := l), a, reference, ReadPayment(l, reference), ReadInvoice(l, a.payload.invoiceRef), k);
  }

  lemma {:induction false} RecordApplies(l: Ledger, a: Ask)
    requires LedgerInv(l) && StartsWith(a.payload.invoiceRef, "INV-")
    ensures var (l', r) := RecordStep(l, CommandOf(a.payload)); Applied(l', a, r)
  {
    var (l', r) := RecordStep(l, CommandOf(a.payload));
    if !r.Rejected? {
      RecordTells(l, CommandOf(a.payload));
      if r.Ok? {
        assert CarriesAt(l'.payments, r.value, a.payload.evidence, |l.payments|);
      }
    }
  }

  lemma {:induction false} TwoActs(w: World, x: Op, y: Op, l: Ledger)
    requires PayInv(w) && l == Do(w.ledger, x)
    ensures PayInv(w.(ledger := Do(l, y)))
  {
    ProviderActs(w, x);
    ProviderActs(w.(ledger := l), y);
  }

  // The provider's own part of an attempt, whatever it answers.
  lemma {:induction false} RecordActs(w: World, a: Ask, outage: bool)
    requires PayInv(w) && StartsWith(a.payload.invoiceRef, "INV-")
    ensures var (l, r) := RecordStep(Under(w.ledger, outage), CommandOf(a.payload)); PayInv(w.(ledger := l)) && Applied(l, a, r)
  {
    var l, op := Under(w.ledger, outage), Record(CommandOf(a.payload));
    assert RecordStep(l, CommandOf(a.payload)).0 == Do(l, op);
    TwoActs(w, SimulateOutage(outage), op, l);
    DoKeepsInv(w.ledger, SimulateOutage(outage));
    RecordApplies(l, a);
  }

  lemma {:induction false} AttemptKeeps(env: Q.Env, w: World, a: Ask, o: Weather)
    requires PayInv(w) && ':' !in a.actor && SamePayload(w.flow, ScopeOf(a), Claim(a.payload, Pending, None, None))
    requires StartsWith(a.payload.invoiceRef, "INV-")
    ensures PayInv(Attempt(env, w, a, o).0) && !Attempt(env, w, a, o).1.Raised?
  {
    var w1 := w.(flow := PutClaim(w.flow, ScopeOf(a), Claim(a.payload, Pending, None, None)));
    ClaimKeeps(w, ScopeOf(a), Claim(a.payload, Pending, None, None));
    RecordActs(w1, a, o.write);
    var (l, r) := RecordStep(Under(w1.ledger, o.write), CommandOf(a.payload));
    AfterRecordKeeps(env, w1.(ledger := l), a, r, o.readBack);
  }

  lemma {:induction false} AfterReadKeeps(env: Q.Env, w: World, a: Ask, invoice: Invoice, o: Weather)
    requires PayInv(w) && ':' !in a.actor && GoodAsk(w, a)
    ensures PayInv(AfterRead(env, w, a, invoice, o).0) && !AfterRead(env, w, a, invoice, o).1.Raised?
  {
    if ClaimVerdict(w.flow, a).Go? {
      AttemptKeeps(env, w, a, o);
    }
    OutageKeeps(w, o.readBack);
  }

  // Recording a payment keeps the invariant, and no exception escapes it.
  lemma {:induction false} RecordFlowKeeps(env: Q.Env, w: World, a: Ask, o: Weather)
    requires PayInv(w) && ':' !in a.actor
    ensures PayInv(RecordFlow(env, w, a, o).0) && !RecordFlow(env, w, a, o).1.Raised?
  {
    if GoodAsk(w, a) {
      var l := Under(w.ledger, o.read);
      OutageKeeps(w, o.read);
      var read := ReadInvoice(l, a.payload.invoiceRef);
      if read.Ok? {
        AfterReadKeeps(env, w.(ledger := l), a, read.value, o);
      }
    }
  }

  // Reconciling

  lemma {:induction false} SweepAt(l: Ledger, claims: map<Scope, Claim>, order: seq<Scope>, unit: string, outcome: Outcome, reference: Option<string>)
    requires !outcome.Unclear?
    ensures var swept := Sweep(l, claims, order, unit, outcome, reference);
      && (forall s :: s in swept <==> s in claims)
      && forall s :: s in claims ==> swept[s] == (if s in order then SweepClaim(l, claims[s], unit, outcome, reference) else claims[s])
  {
    if order != [] {
      var n := |order| - 1;
      SweepAt(l, claims, order[..n], unit, outcome, reference);
      assert order == order[..n] + [order[n]];
    }
  }

  lemma {:induction false} SweepKeepsIntents(q: Q.Queue, claims: map<Scope, Claim>, swept: map<Scope, Claim>)
    requires IntentInv(q, claims) && (forall s :: s in swept <==> s in claims)
    requires forall s :: s in claims ==> swept[s].payload == claims[s].payload
    ensures IntentInv(q, swept)
  {
    forall id | id in q.items && StartsWith(q.items[id].intent, "payment:")
      ensures exists t :: IntentKnown(swept, q.items[id], t)
    {
      var t :| IntentKnown(claims, q.items[id], t);
      assert IntentKnown(swept, q.items[id], t);
    }
  }

  lemma {:induction false} SweepKeeps(w: World, unit: string, outcome: Outcome, reference: Option<string>)
    requires PayInv(w) && !outcome.Unclear?
    ensures PayInv(SweepFlow(w, unit, outcome, reference))
  {
    var swept := Sweep(w.ledger, w.flow.claims, w.flow.order, unit, outcome, reference);
    SweepAt(w.ledger, w.flow.claims, w.flow.order, unit, outcome, reference);
    SweepKeepsIntents(w.queue, w.flow.claims, swept);
    SweepKeepsClaims(w.flow, swept);
  }

  lemma {:induction false} SweepKeepsClaims(f: Flow, swept: map<Scope, Claim>)
    requires ClaimsInv(f) && (forall s :: s in swept <==> s in f.claims)
    requires forall s :: s in f.claims && swept[s].outcome.Unclear? ==> swept[s] == f.claims[s]
    ensures ClaimsInv(f.(claims := swept))
  {
  }

  lemma {:induction false} ConfirmedKeeps(w: World, evidence: string, unit: string, record: Payment, outage: bool, k: nat)
    requires PayInv(w) && CarriesAt(w.ledger.payments, record.reference, evidence, k)
    ensures PayInv(Confirmed(w, evidence, unit, record, outage).0)
  {
    var w1 := w.(flow := w.flow.(pending := w.flow.pending - {evidence}));
    ReleaseKeeps(w, evidence);
    OutageKeeps(w1, outage);
    var w2 := w1.(ledger := Under(w.ledger, outage));
    SweepKeeps(w2, unit, Recorded, Some(record.reference));
    IndexKeeps(SweepFlow(w2, unit, Recorded, Some(record.reference)), evidence, record.reference, k);
  }

  // The provider answers for reserved evidence with the record that carries it.
  lemma {:induction false} ReconcileFinds(l: Ledger, evidence: string) returns (k: nat)
    requires Records(l) && evidence in l.evidence
    ensures var (l', r) := ReconcilePaymentStep(l, evidence);
      r.Ok? && r.value.evidence == evidence && CarriesAt(l'.payments, r.value.reference, evidence, k)
  {
    k := EvidenceRow(l.payments, evidence).value;
  }

  lemma {:induction false} ReconcileActs(w: World, evidence: string)
    requires PayInv(w)
    ensures PayInv(w.(ledger := ReconcilePaymentStep(w.ledger, evidence).0))
  {
    var op := ReconcilePayment(evidence);
    assert ReconcilePaymentStep(w.ledger, evidence).0 == Do(w.ledger, op);
    ProviderActs(w, op);
  }

  // Pending evidence is always found: reconciliation never answers that the provider has no such payment.
  lemma {:induction false} ReconcileAtKeeps(w: World, evidence: string, unit: string, o: Weather)
    requires PayInv(w) && evidence in w.ledger.evidence
    ensures PayInv(ReconcileAt(w, evidence, unit, o).0) && !ReconcileAt(w, evidence, unit, o).1.NoSuchPayment?
  {
    ReconcileActs(w, evidence);
    var k := ReconcileFinds(w.ledger, evidence);
    var (l, r) := ReconcilePaymentStep(w.ledger, evidence);
    ConfirmedKeeps(w.(ledger := l), evidence, unit, r.value, o.readBack, k);
  }

  // A reconciliation stops early, or asks the provider in the unit of an anchor.
  lemma {:induction false} ReconcileFlowForm(w: World, evidence: string, actor: string, allowed: bool, o: Weather) returns (unit: string)
    ensures var (w', reply) := ReconcileFlow(w, evidence, actor, allowed, o); var w1 := w.(ledger := Under(w.ledger, o.read));
      || (reply == Blocked && (w' == w || w' == w1))
      || (evidence in w.flow.pending && (w', reply) == ReconcileAt(w1, evidence, unit, o))
  {
    unit := "";
    var anchor := Anchor(w.flow, evidence, actor);
    if anchor.Some? {
      var read := ReadInvoice(Under(w.ledger, o.read), anchor.value);
      if read.Ok? {
        unit := read.value.unit;
      }
    }
  }

  lemma {:induction false} ReconcileFlowKeeps(w: World, evidence: string, actor: string, allowed: bool, o: Weather)
    requires PayInv(w)
    ensures PayInv(ReconcileFlow(w, evidence, actor, allowed, o).0) && !ReconcileFlow(w, evidence, actor, allowed, o).1.NoSuchPayment?
  {
    var w1 := w.(ledger := Under(w.ledger, o.read));
    var unit := ReconcileFlowForm(w, evidence, actor, allowed, o);
    OutageKeeps(w, o.read);
    if evidence in w.flow.pending {
      ReconcileAtKeeps(w1, evidence, unit, o);
    }
  }

  lemma {:induction false} AfterReverseKeeps(w: World, reference: string, invoiceRef: string, r: Answer<string>, outage: bool)
    requires PayInv(w)
    ensures PayInv(AfterReverse(w, reference, invoiceRef, r, outage).0)
  {
    OutageKeeps(w, outage);
    var w1 := w.(ledger := Under(w.ledger, outage));
    assert PayInv(w1.(flow := w1.flow.(reversed := w1.flow.reversed + {reference})));
  }

  lemma {:induction false} ReverseActs(w: World, reference: string, reason: string, outage: bool)
    requires PayInv(w)
    ensures PayInv(w.(ledger := ReverseStep(Under(w.ledger, outage), reference, reason).0))
  {
    var l, op := Under(w.ledger, outage), Reverse(reference, reason);
    assert ReverseStep(l, reference, reason).0 == Do(l, op);
    TwoActs(w, SimulateOutage(outage), op, l);
  }

  lemma {:induction false} ReverseAtKeeps(w: World, reference: string, reason: string, invoiceRef: string, o: Weather)
    requires PayInv(w)
    ensures PayInv(ReverseAt(w, reference, reason, invoiceRef, o).0)
  {
    ReverseActs(w, reference, reason, o.write);
    var (l1, r) := ReverseStep(Under(w.ledger, o.write), reference, reason);
    AfterReverseKeeps(w.(ledger := l1), reference, invoiceRef, r, o.readBack);
  }

  lemma {:induction false} ReverseFlowKeeps(w: World, reference: string, reason: string, wellFormed: bool, allowed: bool, o: Weather)
    requires PayInv(w)
    ensures PayInv(ReverseFlow(w, reference, reason, wellFormed, allowed, o).0)
  {
    var l := Under(w.ledger, o.read);
    OutageKeeps(w, o.read);
    var read := ReadPayment(l, reference);
    if read.Ok? {
      ReverseAtKeeps(w.(ledger := l), reference, reason, read.value.invoiceRef, o);
    }
  }

  lemma {:induction false} ActKeeps(env: Q.Env, w: World, a: Action)
    requires PayInv(w) && Proper(a)
    ensures PayInv(Act(env, w, a))
  {
    match a
    case RecordPayment(ask, o) => RecordFlowKeeps(env, w, ask, o);
    case SettlePayment(proof, actor, allowed, o) => ReconcileFlowKeeps(w, proof, actor, allowed, o);
    case ReversePayment(payment, why, wellFormed, allowed, o) => ReverseFlowKeeps(w, payment, why, wellFormed, allowed, o);
    case AtProvider(op) => ProviderActs(w, op);
    case AtQueue(job) => QueueActs(env, w, job);
  }

  predicate ProperRun(actions: seq<Action>) {
    forall i :: 0 <= i < |actions| ==> Proper(actions[i])
  }

  lemma {:induction false} RunPayKeeps(env: Q.Env, prefix: string, first: nat, actions: seq<Action>)
    requires SeriesPrefix(prefix) && ProperRun(actions)
    ensures PayInv(RunPay(env, StartPay(prefix, first), actions))
  {
    if actions != [] {
      var front := actions[..|actions| - 1];
      assert ProperRun(front);
      RunPayKeeps(env, prefix, first, front);
      ActKeeps(env, RunPay(env, StartPay(prefix, first), front), actions[|actions| - 1]);
    }
  }

  // Main results

  // Over every run: a piece of evidence is carried by one provider record, so it moves an amount once; the workflow's
  // index points at the record carrying the evidence; pending evidence has its one record already, and an operator
  // item anchored on it.
  lemma {:induction false} EvidenceRuns(env: Q.Env, prefix: string, first: nat, actions: seq<Action>, e: string)
    requires SeriesPrefix(prefix) && ProperRun(actions)
    ensures var w := RunPay(env, StartPay(prefix, first), actions);
      && (forall j, k :: 0 <= j < k < |w.ledger.payments| ==> w.ledger.payments[j].evidence != w.ledger.payments[k].evidence)
      && (e in w.flow.byEvidence ==> exists k: nat :: CarriesAt(w.ledger.payments, w.flow.byEvidence[e], e, k))
      && (e in w.flow.pending ==>
            && (exists k :: 0 <= k < |w.ledger.payments| && w.ledger.payments[k].evidence == e)
            && exists id :: AnchoredAt(w.queue.items, e, id))
  {
    RunPayKeeps(env, prefix, first, actions);
    var w := RunPay(env, StartPay(prefix, first), actions);
    if e in w.flow.pending {
      var k := EvidenceRow(w.ledger.payments, e).value;
      assert w.ledger.payments[k].evidence == e;
    }
  }

  // Over every run the provider's books balance for every invoice the payments touch.
  lemma {:induction false} PaymentsBalance(env: Q.Env, prefix: string, first: nat, actions: seq<Action>, i: nat)
    requires SeriesPrefix(prefix) && ProperRun(actions)
    requires i < |RunPay(env, StartPay(prefix, first), actions).ledger.invoices|
    ensures var l := RunPay(env, StartPay(prefix, first), actions).ledger; var invoice := l.invoices[i];
      invoice.status.Posted? ==>
        && invoice.officialRef.Some? && invoice.open + Net(l.payments, invoice.officialRef.value) == invoice.total
        && 0.0 <= invoice.open <= invoice.total
  {
    RunPayKeeps(env, prefix, first, actions);
    var l := RunPay(env, StartPay(prefix, first), actions).ledger;
    assert Balanced(l.invoices[i], l.payments);
    if l.invoices[i].status.Posted? {
      StandingNotNegative(l.payments, l.invoices[i].officialRef.value);
      assert Net(l.payments, l.invoices[i].officialRef.value) == Standing(l.payments, l.invoices[i].officialRef.value);
    }
  }

  // In every reachable state recording a payment ends in one of the workflow's answers: the operator queue never
  // refuses the item of an unclear payment.
  lemma {:induction false} NoExceptionEscapes(env: Q.Env, prefix: string, first: nat, actions: seq<Action>, a: Ask, o: Weather)
    requires SeriesPrefix(prefix) && ProperRun(actions) && ':' !in a.actor
    ensures !RecordFlow(env, RunPay(env, StartPay(prefix, first), actions), a, o).1.Raised?
  {
    RunPayKeeps(env, prefix, first, actions);
    RecordFlowKeeps(env, RunPay(env, StartPay(prefix, first), actions), a, o);
  }

  // The sweep

  ghost predicate RightClaim(payments: seq<Payment>, c: Claim) {
    c.outcome.Recorded? ==> c.reference.Some? && exists k: nat :: CarriesAt(payments, c.reference.value, c.payload.evidence, k)
  }

  // Every recorded claim names a provider record of its own evidence: what a replay of the request will answer.
  ghost predicate ClaimsRight(w: World) {
    forall s :: s in w.flow.claims ==> RightClaim(w.ledger.payments, w.flow.claims[s])
  }

  // Every unclear claim that a reconciliation in the unit would settle is for that evidence.
  predicate SweepFits(l: Ledger, f: Flow, evidence: string, unit: string) {
    forall s :: s in f.claims && Swept(l, f.claims[s], unit) ==> f.claims[s].payload.evidence == evidence
  }

  lemma {:induction false} SamePayment(payments: seq<Payment>, reference: string, e: string, j: nat, f: string, k: nat)
    requires GoodRecords(payments) && CarriesAt(payments, reference, e, j) && CarriesAt(payments, reference, f, k)
    ensures e == f
  {
    assert GoodRecord(payments, j) && GoodRecord(payments, k);
    TagNames(payments[j].reference, "PAY", j + 1, k + 1);
  }

  lemma {:induction false} SweptClaimRight(payments: seq<Payment>, l: Ledger, c: Claim, unit: string, record: Payment, evidence: string, k: nat)
    requires GoodRecords(payments) && CarriesAt(payments, record.reference, evidence, k) && RightClaim(payments, c)
    ensures RightClaim(payments, SweepClaim(l, c, unit, Recorded, Some(record.reference)))
        <==> (Swept(l, c, unit) ==> c.payload.evidence == evidence)
  {
    if Swept(l, c, unit) {
      var swept := SweepClaim(l, c, unit, Recorded, Some(record.reference));
      if c.payload.evidence == evidence {
        assert CarriesAt(payments, swept.reference.value, swept.payload.evidence, k);
      } else if RightClaim(payments, swept) {
        var j: nat :| CarriesAt(payments, record.reference, c.payload.evidence, j);
        SamePayment(payments, record.reference, c.payload.evidence, j, evidence, k);
      }
    }
  }

  // A confirmed reconciliation without an outage: what the provider found, and the sweep.
  lemma {:induction false} ReconcileAtForm(w: World, evidence: string, unit: string, o: Weather) returns (l: Ledger, record: Payment, k: nat)
    requires Records(w.ledger) && evidence in w.ledger.evidence && !w.ledger.outage && !o.readBack
    ensures var w' := ReconcileAt(w, evidence, unit, o).0;
      && w'.ledger == l && w'.flow.pending == w.flow.pending - {evidence}
      && w'.flow.claims == Sweep(l, w.flow.claims, w.flow.order, unit, Recorded, Some(record.reference))
    ensures CarriesAt(l.payments, record.reference, evidence, k) && GoodRecords(l.payments)
    ensures l.invoices == w.ledger.invoices && l.handles == w.ledger.handles && !l.outage
    ensures forall j: nat :: SameRecord(w.ledger.payments, l.payments, j)
  {
    k := ReconcileFinds(w.ledger, evidence);
    record := ReconcilePaymentStep(w.ledger, evidence).1.value;
    l := Under(ReconcilePaymentStep(w.ledger, evidence).0, false);
    ReconcileKeepsRecords(w.ledger, evidence);
  }

  lemma {:induction false} SweptSame(l: Ledger, l': Ledger, c: Claim, unit: string)
    requires l'.invoices == l.invoices && l'.handles == l.handles && !l.outage && !l'.outage
    ensures Swept(l', c, unit) <==> Swept(l, c, unit)
  {
  }

  lemma {:induction false} SweptRight(l: Ledger, l': Ledger, c: Claim, unit: string, record: Payment, evidence: string, k: nat)
    requires l'.invoices == l.invoices && l'.handles == l.handles && !l.outage && !l'.outage
    requires GoodRecords(l'.payments) && CarriesAt(l'.payments, record.reference, evidence, k)
    requires RightClaim(l.payments, c) && forall j: nat :: SameRecord(l.payments, l'.payments, j)
    ensures RightClaim(l'.payments, SweepClaim(l', c, unit, Recorded, Some(record.reference)))
        <==> (Swept(l, c, unit) ==> c.payload.evidence == evidence)
  {
    StillRight(l.payments, l'.payments, c);
    SweptSame(l, l', c, unit);
    SweptClaimRight(l'.payments, l', c, unit, record, evidence, k);
  }

  // A confirmed reconciliation leaves every recorded claim with a record of its own evidence exactly when every
  // unclear claim in the unit was for the evidence reconciled.
  lemma {:induction false} SweepIsRight(w: World, evidence: string, unit: string, o: Weather)
    requires Records(w.ledger) && ClaimsInv(w.flow) && ClaimsRight(w)
    requires evidence in w.ledger.evidence && !w.ledger.outage && !o.readBack
    ensures ClaimsRight(ReconcileAt(w, evidence, unit, o).0) <==> SweepFits(w.ledger, w.flow, evidence, unit)
  {
    var l, record, k := ReconcileAtForm(w, evidence, unit, o);
    var w' := ReconcileAt(w, evidence, unit, o).0;
    SweepAt(l, w.flow.claims, w.flow.order, unit, Recorded, Some(record.reference));
    forall s | s in w.flow.claims
      ensures RightClaim(l.payments, w'.flow.claims[s]) <==> (Swept(w.ledger, w.flow.claims[s], unit) ==> w.flow.claims[s].payload.evidence == evidence)
    {
      SweptRight(w.ledger, l, w.flow.claims[s], unit, record, evidence, k);
    }
  }

  lemma {:induction false} StillRight(payments: seq<Payment>, more: seq<Payment>, c: Claim)
    requires RightClaim(payments, c) && forall k: nat :: SameRecord(payments, more, k)
    ensures RightClaim(more, c)
  {
    if c.outcome.Recorded? {
      var k: nat :| CarriesAt(payments, c.reference.value, c.payload.evidence, k);
      assert SameRecord(payments, more, k);
      assert CarriesAt(more, c.reference.value, c.payload.evidence, k);
    }
  }

  // With no unclear claim, the search for an anchor finds nothing.
  lemma {:induction false} NothingFound(f: Flow, order: seq<Scope>, evidence: string, actor: string)
    requires !AnyUnclear(f)
    ensures SearchClaims(f, order, evidence, actor) == Looking(None, [])
  {
    if order != [] {
      NothingFound(f, order[..|order| - 1], evidence, actor);
      var s := order[|order| - 1];
      assert s in f.claims ==> !(f.claims[s].outcome.Unclear? && f.claims[s].invoiceRef.Some?);
    }
  }

  // When the reconciliation of one piece of evidence sweeps up every unclear claim, any other pending evidence is
  // stranded: still blocked, with no claim left to reconcile it by.
  lemma {:induction false} SweepStrands(w: World, evidence: string, other: string, unit: string, o: Weather)
    requires Records(w.ledger) && ClaimsInv(w.flow) && evidence in w.ledger.evidence && !w.ledger.outage && !o.readBack
    requires other in w.flow.pending && other != evidence
    requires forall s :: s in w.flow.claims && w.flow.claims[s].outcome.Unclear? ==> Swept(w.ledger, w.flow.claims[s], unit)
    ensures var w' := ReconcileAt(w, evidence, unit, o).0; other in w'.flow.pending && !AnyUnclear(w'.flow)
  {
    var l, record, k := ReconcileAtForm(w, evidence, unit, o);
    var w' := ReconcileAt(w, evidence, unit, o).0;
    SweepAt(l, w.flow.claims, w.flow.order, unit, Recorded, Some(record.reference));
    forall s | s in w'.flow.claims
      ensures !w'.flow.claims[s].outcome.Unclear?
    {
      SweptSame(w.ledger, l, w.flow.claims[s], unit);
    }
  }

  // An outage that sets in between the provider's answer and the sweep loses the pending mark and keeps the claim
  // unclear: the request stays blocked, and its evidence can no longer be reconciled.
  lemma {:induction false} InterruptedSweep(env: Q.Env, w: World, evidence: string, unit: string, s: Scope, a: Ask, o: Weather, o': Weather)
    requires Records(w.ledger) && ClaimsInv(w.flow) && evidence in w.ledger.evidence && o.readBack
    requires s in w.flow.claims && w.flow.claims[s].outcome.Unclear? && ScopeOf(a) == s
    ensures var w' := ReconcileAt(w, evidence, unit, o).0;
      && w'.flow.claims == w.flow.claims
      && ReconcileFlow(w', evidence, a.actor, true, o').1 == Blocked
      && RecordFlow(env, w', a, o').1 == Blocked
  {
    var k := ReconcileFinds(w.ledger, evidence);
    assert AnyUnclear(w.flow);
  }

  // The unit in which a reconciliation would sweep.
  function UnitOf(w: World, evidence: string, actor: string, o: Weather): Option<string> {
    match Anchor(w.flow, evidence, actor)
    case None => None
    case Some(invoiceRef) =>
      var read := ReadInvoice(Under(w.ledger, o.read), invoiceRef);
      if read.Ok? then Some(read.value.unit) else None
  }
}
