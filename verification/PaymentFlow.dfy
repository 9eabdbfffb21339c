/**
  The payment workflow (src/workflows/payments/workflow.py) as functions on a world of workflow state,
  provider ledger and operator queue. PaymentRuns proves what its runs keep; PaymentWorkflow applies the
  commands in place.
 */
module PaymentFlow {
  import opened Wrappers
  import opened References
  import Q = ReconciliationQueue
  import opened ErpLedger

  // An amount as text, and what it parses to.
  datatype Amount = Amount(text: string, value: Option<real>)

  // Everything the payload hash covers; equal hashes are taken for equal payloads.
  datatype Payload = Payload(invoiceRef: string, amount: Amount, currency: string, evidence: string, account: string)

  datatype Outcome = Pending | Recorded | Refused | Unclear

  datatype Claim = Claim(payload: Payload, outcome: Outcome, reference: Option<string>, invoiceRef: Option<string>)

  datatype Scope = Scope(actor: string, key: string)

  // `order` is the insertion order of the claims dictionary.
  datatype Flow = Flow(
    claims: map<Scope, Claim>,
    order: seq<Scope>,
    byEvidence: map<string, string>,
    pending: set<string>,
    reversed: set<string>)

  datatype World = World(ledger: Ledger, queue: Q.Queue, flow: Flow)

  datatype Status = Open | PartiallyPaid | Paid

  datatype Reply = RecordedAs(reference: Option<string>, status: Status) | StillUnclear | NoSuchPayment | Blocked | Raised

  // `wellFormed`: the references have canonical form; `allowed`: the caller is authorized for the invoice's unit;
  // `account`: the unit's policy resolves to the named account.
  datatype Ask = Ask(actor: string, key: string, payload: Payload, wellFormed: bool, allowed: bool, account: bool, now: int)

  // Whether the provider is unreachable at the successive calls of one command.
  datatype Weather = Weather(read: bool, write: bool, readBack: bool)

  function Receivable(invoice: Invoice): Status {
    if invoice.open == 0.0 then Paid else if invoice.open < invoice.total then PartiallyPaid else Open
  }

  const KIND: string := "PAYMENT_RECORD"

  function IntentOf(s: Scope): string {
    "payment:" + s.actor + ":" + s.key
  }

  function ScopeOf(a: Ask): Scope {
    Scope(a.actor, if a.key == "" then a.payload.evidence else a.key)
  }

  function PutClaim(f: Flow, s: Scope, c: Claim): Flow {
    f.(claims := f.claims[s := c], order := if s in f.claims then f.order else f.order + [s])
  }

  // Recording

  // The checks before the provider is asked about anything.
  predicate GoodAsk(w: World, a: Ask) {
    && a.wellFormed && StartsWith(a.payload.evidence, "EVI-") && StartsWith(a.payload.invoiceRef, "INV-")
    && a.payload.amount.value.Some? && a.payload.amount.value.value > 0.0
    && a.payload.evidence !in w.flow.pending
  }

  // The checks on the invoice read back.
  predicate GoodInvoice(invoice: Invoice, a: Ask) {
    invoice.status.Posted? && a.allowed && a.account && a.payload.currency == invoice.currency
  }

  datatype Verdict = Go | Replay(reference: Option<string>) | Stop

  // What an earlier claim under the same key says about the request.
  function ClaimVerdict(f: Flow, a: Ask): Verdict {
    var s := ScopeOf(a);
    if s !in f.claims then Go
    else if f.claims[s].payload != a.payload then Stop
    else if f.claims[s].outcome.Recorded? then Replay(f.claims[s].reference)
    else if f.claims[s].outcome.Unclear? then Stop
    else Go
  }

  predicate Overpays(invoice: Invoice, a: Ask)
    requires a.payload.amount.value.Some?
  {
    a.payload.amount.value.value > invoice.open
  }

  predicate EvidenceTaken(f: Flow, a: Ask) {
    var e, s := a.payload.evidence, ScopeOf(a);
    e in f.byEvidence && !(s in f.claims && f.claims[s].reference == Some(f.byEvidence[e]))
  }

  function CommandOf(p: Payload): PaymentCommand {
    PaymentCommand(p.invoiceRef, p.amount.value, p.currency, p.evidence, p.account)
  }

  // The outcome is unclear: the claim keeps its invoice, the evidence is blocked, an operator item is anchored on it.
  function Unsettled(env: Q.Env, w: World, a: Ask, reference: Option<string>, reply: Reply): (World, Reply) {
    var s := ScopeOf(a);
    var f := PutClaim(w.flow, s, Claim(a.payload, Unclear, reference, Some(a.payload.invoiceRef)));
    var (q, answer) := Q.EnqueueStep(env, w.queue, IntentOf(s), KIND, a.payload.evidence, a.now);
    (World(w.ledger, q, f.(pending := f.pending + {a.payload.evidence})), if answer.Ok? then reply else Raised)
  }

  // The payment went through and reads back as `record` on `invoice`.
  function ReadBack(env: Q.Env, w: World, a: Ask, reference: string, record: Answer<Payment>, invoice: Answer<Invoice>): (World, Reply) {
    if !record.Ok? || !invoice.Ok? then Unsettled(env, w, a, Some(reference), Blocked)
    else if record.value.evidence != a.payload.evidence || record.value.invoiceRef != a.payload.invoiceRef then
      Unsettled(env, w, a, Some(reference), Blocked)
    else
      var f := PutClaim(w.flow, ScopeOf(a), Claim(a.payload, Recorded, Some(reference), None));
      (w.(flow := f.(byEvidence := f.byEvidence[a.payload.evidence := reference])), RecordedAs(Some(reference), Receivable(invoice.value)))
  }

  // What follows the provider's answer.
  function AfterRecord(env: Q.Env, w: World, a: Ask, r: Answer<string>, outage: bool): (World, Reply) {
    match r
    case Uncertain => Unsettled(env, w, a, None, StillUnclear)
    case Rejected => (w.(flow := PutClaim(w.flow, ScopeOf(a), Claim(a.payload, Refused, None, None))), Blocked)
    case Ok(reference) =>
      var l := Under(w.ledger, outage);
      ReadBack(env, w.(ledger := l), a, reference, ReadPayment(l, reference), ReadInvoice(l, a.payload.invoiceRef))
  }

  function Attempt(env: Q.Env, w: World, a: Ask, o: Weather): (World, Reply) {
    var f := PutClaim(w.flow, ScopeOf(a), Claim(a.payload, Pending, None, None));
    var (l, r) := RecordStep(Under(w.ledger, o.write), CommandOf(a.payload));
    AfterRecord(env, World(l, w.queue, f), a, r, o.readBack)
  }

  function Replayed(w: World, a: Ask, reference: Option<string>, invoice: Answer<Invoice>): (World, Reply) {
    (w, if invoice.Ok? then RecordedAs(reference, Receivable(invoice.value)) else Blocked)
  }

  function AfterRead(env: Q.Env, w: World, a: Ask, invoice: Invoice, o: Weather): (World, Reply)
    requires a.payload.amount.value.Some?
  {
    if !GoodInvoice(invoice, a) then (w, Blocked)
    else
      match ClaimVerdict(w.flow, a)
      case Stop => (w, Blocked)
      case Replay(reference) =>
        var l := Under(w.ledger, o.readBack);
        Replayed(w.(ledger := l), a, reference, ReadInvoice(l, a.payload.invoiceRef))
      case Go =>
        if Overpays(invoice, a) || EvidenceTaken(w.flow, a) then (w, Blocked) else Attempt(env, w, a, o)
  }

  function RecordFlow(env: Q.Env, w: World, a: Ask, o: Weather): (World, Reply) {
    if !GoodAsk(w, a) then (w, Blocked)
    else
      var l := Under(w.ledger, o.read);
      var read := ReadInvoice(l, a.payload.invoiceRef);
      if !read.Ok? then (w.(ledger := l), Blocked) else AfterRead(env, w.(ledger := l), a, read.value, o)
  }

  // Reconciling

  // The search for the invoice whose unit decides: the caller's own claim on the evidence, else another actor's,
  // else the caller's single other unclear claim.
  datatype Search = Found(invoiceRef: string) | Looking(exact: Option<string>, own: seq<string>)

  function Look(f: Flow, s: Scope, evidence: string, actor: string, so: Search): Search {
    if so.Found? || s !in f.claims || !f.claims[s].outcome.Unclear? || f.claims[s].invoiceRef.None? then so
    else
      var invoiceRef := f.claims[s].invoiceRef.value;
      if s.key == evidence then if s.actor == actor then Found(invoiceRef) else Looking(Some(invoiceRef), so.own)
      else if s.actor == actor then Looking(so.exact, so.own + [invoiceRef])
      else so
  }

  function SearchClaims(f: Flow, order: seq<Scope>, evidence: string, actor: string): Search {
    if order == [] then Looking(None, [])
    else Look(f, order[|order| - 1], evidence, actor, SearchClaims(f, order[..|order| - 1], evidence, actor))
  }

  function AnchorOf(so: Search): Option<string> {
    match so
    case Found(invoiceRef) => Some(invoiceRef)
    case Looking(exact, own) => if exact.Some? then exact else if |own| == 1 then Some(own[0]) else None
  }

  function Anchor(f: Flow, evidence: string, actor: string): Option<string> {
    AnchorOf(SearchClaims(f, f.order, evidence, actor))
  }

  // The claims that a reconciliation in a unit settles: every unclear one whose invoice belongs to the unit.
  predicate Swept(l: Ledger, c: Claim, unit: string) {
    && c.outcome.Unclear?
    && (c.invoiceRef.Some? ==> var read := ReadInvoice(l, c.invoiceRef.value); read.Ok? && read.value.unit == unit)
  }

  function SweepClaim(l: Ledger, c: Claim, unit: string, outcome: Outcome, reference: Option<string>): Claim {
    if Swept(l, c, unit) then Claim(c.payload, outcome, reference, c.invoiceRef) else c
  }

  function Sweep(l: Ledger, claims: map<Scope, Claim>, order: seq<Scope>, unit: string, outcome: Outcome, reference: Option<string>): map<Scope, Claim> {
    if order == [] then claims
    else
      var rest := Sweep(l, claims, order[..|order| - 1], unit, outcome, reference);
      var s := order[|order| - 1];
      if s in rest then rest[s := SweepClaim(l, rest[s], unit, outcome, reference)] else rest
  }

  function SweepFlow(w: World, unit: string, outcome: Outcome, reference: Option<string>): World {
    w.(flow := w.flow.(claims := Sweep(w.ledger, w.flow.claims, w.flow.order, unit, outcome, reference)))
  }

  predicate AnyUnclear(f: Flow) {
    exists s :: s in f.claims && f.claims[s].outcome.Unclear? && f.claims[s].invoiceRef.Some?
  }

  // Every unclear claim in the unit is settled with the record found, and the evidence indexed.
  function SettleUnit(w: World, evidence: string, unit: string, record: Payment): (World, Reply) {
    var w1 := SweepFlow(w, unit, Recorded, Some(record.reference));
    var invoice := ReadInvoice(w.ledger, record.invoiceRef);
    (w1.(flow := w1.flow.(byEvidence := w1.flow.byEvidence[evidence := record.reference])),
     if invoice.Ok? then RecordedAs(Some(record.reference), Receivable(invoice.value)) else Blocked)
  }

  // The provider has the payment. An outage that sets in before the sweep interrupts it at the first unclear claim.
  function Confirmed(w: World, evidence: string, unit: string, record: Payment, outage: bool): (World, Reply) {
    var w1 := World(Under(w.ledger, outage), w.queue, w.flow.(pending := w.flow.pending - {evidence}));
    if outage && AnyUnclear(w1.flow) then (w1, Blocked) else SettleUnit(w1, evidence, unit, record)
  }

  // The provider has no such payment.
  function Absent(w: World, evidence: string, unit: string, outage: bool): (World, Reply) {
    var w1 := World(Under(w.ledger, outage), w.queue, w.flow.(pending := w.flow.pending - {evidence}));
    if outage && AnyUnclear(w1.flow) then (w1, Blocked) else (SweepFlow(w1, unit, Refused, None), NoSuchPayment)
  }

  function AfterReconcile(w: World, evidence: string, unit: string, r: Answer<Payment>, outage: bool): (World, Reply) {
    match r
    case Uncertain => (w, StillUnclear)
    case Rejected => Absent(w, evidence, unit, outage)
    case Ok(record) => Confirmed(w, evidence, unit, record, outage)
  }

  function ReconcileAt(w: World, evidence: string, unit: string, o: Weather): (World, Reply) {
    var (l, r) := ReconcilePaymentStep(w.ledger, evidence);
    AfterReconcile(w.(ledger := l), evidence, unit, r, o.readBack)
  }

  function ReconcileFlow(w: World, evidence: string, actor: string, allowed: bool, o: Weather): (World, Reply) {
    if evidence !in w.flow.pending then (w, Blocked)
    else
      match Anchor(w.flow, evidence, actor)
      case None => (w, Blocked)
      case Some(invoiceRef) =>
        var l := Under(w.ledger, o.read);
        var read := ReadInvoice(l, invoiceRef);
        if !read.Ok? || !allowed then (w.(ledger := l), Blocked)
        else ReconcileAt(w.(ledger := l), evidence, read.value.unit, o)
  }

  // Reversing

  function AfterReverse(w: World, reference: string, invoiceRef: string, r: Answer<string>, outage: bool): (World, Reply) {
    if !r.Ok? then (w, Blocked)
    else
      var l := Under(w.ledger, outage);
      var invoice := ReadInvoice(l, invoiceRef);
      (World(l, w.queue, w.flow.(reversed := w.flow.reversed + {reference})),
       if invoice.Ok? then RecordedAs(Some(r.value), Receivable(invoice.value)) else Blocked)
  }

  function ReverseAt(w: World, reference: string, reason: string, invoiceRef: string, o: Weather): (World, Reply) {
    var (l, r) := ReverseStep(Under(w.ledger, o.write), reference, reason);
    AfterReverse(w.(ledger := l), reference, invoiceRef, r, o.readBack)
  }

  function ReverseFlow(w: World, reference: string, reason: string, wellFormed: bool, allowed: bool, o: Weather): (World, Reply) {
    if !wellFormed || !StartsWith(reference, "PAY-") || Blank(reason) then (w, Blocked)
    else
      var l := Under(w.ledger, o.read);
      var read := ReadPayment(l, reference);
      if !read.Ok? || read.value.reversalOf.Some? || reference in w.flow.reversed then (w.(ledger := l), Blocked)
      else if !ReadInvoice(l, read.value.invoiceRef).Ok? || !allowed then (w.(ledger := l), Blocked)
      else ReverseAt(w.(ledger := l), reference, reason, read.value.invoiceRef, o)
  }
}
