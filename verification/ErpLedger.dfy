/**
  The provider's ledger (src/adapters/fixture/erp.py) as values: invoices behind draft and official
  handles, the official number series, payments with compensating reversals, and every command of
  the adapter as a function from one ledger to the next. ErpAdapter applies them in place; the
  lemmas about runs are in LedgerRuns.
 */
module ErpLedger {
  import opened Wrappers
  import opened References

  datatype InvoiceStatus = Draft | Posted | Cancelled

  datatype Invoice = Invoice(
    draftRef: string,
    officialRef: Option<string>,
    status: InvoiceStatus,
    total: real,
    open: real,
    currency: string,
    unit: string,
    customer: string,
    uncertain: bool,
    paid: bool)

  datatype Payment = Payment(
    reference: string,
    invoiceRef: string,
    amount: real,
    currency: string,
    evidence: string,
    account: string,
    reversalOf: Option<string>,
    reversed: bool,
    uncertain: bool)

  datatype PostFailure = RejectPost | LosePost | DropPost

  datatype PaymentFailure = RejectPayment | LosePayment

  // `handles` names rows of `invoices`, which stand in order of creation; `order` is the insertion
  // order of the handle dictionary. `first` and `issued` record the number series: the sequence the
  // adapter was built with, and the rows that were given a number, in order.
  datatype Ledger = Ledger(
    prefix: string,
    first: nat,
    sequence: nat,
    draftSequence: nat,
    paymentSequence: nat,
    invoices: seq<Invoice>,
    handles: map<string, nat>,
    order: seq<string>,
    payments: seq<Payment>,
    evidence: set<string>,
    failPost: Option<PostFailure>,
    failPayment: Option<PaymentFailure>,
    outage: bool,
    issued: seq<nat>)

  // A command answers, raises DocumentRejected, or raises UncertainOutcome.
  datatype Answer<T> = Ok(value: T) | Rejected | Uncertain

  datatype PostAnswer = PostedAs(reference: Option<string>) | NotPosted | Unknown

  function NewLedger(prefix: string, first: nat): Ledger {
    Ledger(prefix, first, first, 1, 1, [], map[], [], [], {}, None, None, false, [])
  }

  // The same ledger while the provider is unreachable, or reachable.
  function Under(l: Ledger, outage: bool): Ledger {
    l.(outage := outage)
  }

  // Drafts

  // Amounts and dates arrive as text; None stands for text the adapter cannot parse.
  datatype Line = Line(quantity: Option<real>, price: Option<real>, currency: string)

  datatype DraftCommand = DraftCommand(
    customer: string, unit: string, lines: seq<Line>, issuedOn: Option<int>, dueOn: Option<int>)

  predicate IsCurrency(c: string) {
    |c| == 3 && forall i :: 0 <= i < 3 ==> 'A' <= c[i] <= 'Z'
  }

  predicate GoodLine(line: Line, currency: string) {
    line.quantity.Some? && line.price.Some? && line.quantity.value > 0.0 && line.price.value > 0.0 && line.currency == currency
  }

  // The sum of quantity times price; None when a line is refused.
  function Total(lines: seq<Line>, currency: string): Option<real> {
    if lines == [] then Some(0.0)
    else
      var front, line := Total(lines[..|lines| - 1], currency), lines[|lines| - 1];
      if front.Some? && GoodLine(line, currency) then Some(front.value + line.quantity.value * line.price.value) else None
  }

  predicate GoodDraft(c: DraftCommand) {
    && c.lines != [] && c.issuedOn.Some? && c.dueOn.Some? && c.issuedOn.value <= c.dueOn.value
    && IsCurrency(c.lines[0].currency) && Total(c.lines, c.lines[0].currency).Some?
  }

  function NewInvoice(draftRef: string, c: DraftCommand): Invoice
    requires GoodDraft(c)
  {
    var total := Total(c.lines, c.lines[0].currency).value;
    Invoice(draftRef, None, Draft, total, total, c.lines[0].currency, c.unit, c.customer, false, false)
  }

  // One assignment to the handle dictionary.
  function PutHandle(l: Ledger, handle: string, row: nat): Ledger {
    l.(handles := l.handles[handle := row], order := if handle in l.handles then l.order else l.order + [handle])
  }

  // A new invoice under the next draft handle.
  function CreateGood(l: Ledger, c: DraftCommand): (Ledger, string)
    requires GoodDraft(c)
  {
    var draftRef := Tag("DRAFT", l.draftSequence);
    var l1 := l.(draftSequence := l.draftSequence + 1, invoices := l.invoices + [NewInvoice(draftRef, c)]);
    (PutHandle(l1, draftRef, |l.invoices|), draftRef)
  }

  function CreateStep(l: Ledger, c: DraftCommand): (Ledger, Answer<string>) {
    if l.outage || !GoodDraft(c) then (l, Rejected) else (CreateGood(l, c).0, Ok(CreateGood(l, c).1))
  }

  // Posting

  function RowOf(l: Ledger, reference: string): (row: Option<nat>)
    ensures row.Some? ==> row.value < |l.invoices|
  {
    if reference in l.handles && l.handles[reference] < |l.invoices| then Some(l.handles[reference]) else None
  }

  // The first handle whose invoice carries the reference as its official one.
  function OfficialRow(l: Ledger, order: seq<string>, reference: string): (row: Option<nat>)
    ensures row.Some? ==> row.value < |l.invoices| && l.invoices[row.value].officialRef == Some(reference)
  {
    if order == [] then None
    else
      var row := RowOf(l, order[0]);
      if row.Some? && l.invoices[row.value].officialRef == Some(reference) then row else OfficialRow(l, order[1..], reference)
  }

  function PostTarget(l: Ledger, reference: string): (row: Option<nat>)
    ensures row.Some? ==> row.value < |l.invoices|
  {
    if RowOf(l, reference).Some? then RowOf(l, reference) else OfficialRow(l, l.order, reference)
  }

  function SetRow(l: Ledger, row: nat, invoice: Invoice): Ledger
    requires row < |l.invoices|
  {
    l.(invoices := l.invoices[row := invoice])
  }

  function AssignOfficial(l: Ledger, row: nat): Ledger
    requires row < |l.invoices|
  {
    var official := Tag(l.prefix, l.sequence);
    var l1 := SetRow(l, row, l.invoices[row].(officialRef := Some(official), status := Posted));
    PutHandle(l1.(sequence := l.sequence + 1, issued := l.issued + [row]), official, row)
  }

  function MarkUncertain(l: Ledger, row: nat, uncertain: bool): Ledger
    requires row < |l.invoices|
  {
    SetRow(l, row, l.invoices[row].(uncertain := uncertain))
  }

  // Posting a DRAFT row, by the failure mode in force.
  function PostDraft(l: Ledger, row: nat): (Ledger, PostAnswer)
    requires row < |l.invoices|
  {
    var l0 := l.(failPost := None);
    match l.failPost
    case Some(RejectPost) => (l0, NotPosted)
    case Some(LosePost) => (MarkUncertain(AssignOfficial(l0, row), row, true), Unknown)
    case Some(DropPost) => (MarkUncertain(l0, row, true), Unknown)
    case None => (AssignOfficial(l0, row), PostedAs(Some(Tag(l.prefix, l.sequence))))
  }

  function PostStep(l: Ledger, reference: string): (Ledger, Answer<PostAnswer>) {
    if l.outage then (l, Rejected) else
    match PostTarget(l, reference)
    case None => (l, Rejected)
    case Some(row) =>
      var invoice := l.invoices[row];
      if invoice.uncertain then (l, Uncertain)
      else if invoice.status.Posted? then (l, Ok(PostedAs(invoice.officialRef)))
      else if invoice.status.Cancelled? then (l, Rejected)
      else
        var (l', answer) := PostDraft(l, row);
        (l', Ok(answer))
  }

  function ReconcilePostStep(l: Ledger, reference: string): (Ledger, Answer<PostAnswer>) {
    match RowOf(l, reference)
    case None => (l, Rejected)
    case Some(row) =>
      var invoice := l.invoices[row];
      if !invoice.uncertain then (l, Ok(if invoice.status.Posted? then PostedAs(invoice.officialRef) else NotPosted))
      else
        (MarkUncertain(l, row, false),
         Ok(if invoice.status.Posted? && invoice.officialRef.Some? then PostedAs(invoice.officialRef) else NotPosted))
  }

  // Payments

  datatype PaymentCommand = PaymentCommand(
    invoiceRef: string, amount: Option<real>, currency: string, evidence: string, account: string)

  const REVERSAL_PREFIX: string := "EVI-REV-"

  predicate Reserved(evidence: string) {
    |evidence| >= |REVERSAL_PREFIX| && evidence[..|REVERSAL_PREFIX|] == REVERSAL_PREFIX
  }

  // Everything the provider asks of a payment before it applies one.
  predicate GoodPayment(l: Ledger, c: PaymentCommand) {
    && !l.outage && !Blank(c.evidence) && IsCurrency(c.currency) && !Reserved(c.evidence) && c.evidence !in l.evidence
    && RowOf(l, c.invoiceRef).Some?
    && var invoice := l.invoices[RowOf(l, c.invoiceRef).value];
    && invoice.status.Posted? && c.amount.Some? && c.amount.value > 0.0 && c.currency == invoice.currency
    && c.amount.value <= invoice.open
  }

  function Handle(invoice: Invoice): string {
    match invoice.officialRef
    case Some(official) => official
    case None => invoice.draftRef
  }

  function NewPayment(l: Ledger, row: nat, c: PaymentCommand, uncertain: bool): Payment
    requires row < |l.invoices| && c.amount.Some?
  {
    Payment(Tag("PAY", l.paymentSequence), Handle(l.invoices[row]), c.amount.value, c.currency, c.evidence, c.account,
            None, false, uncertain)
  }

  function ApplyPayment(l: Ledger, row: nat, c: PaymentCommand, uncertain: bool): Ledger
    requires row < |l.invoices| && c.amount.Some?
  {
    var invoice := l.invoices[row];
    var open := invoice.open - c.amount.value;
    SetRow(l, row, invoice.(open := open, paid := invoice.paid || open == 0.0)).(
      paymentSequence := l.paymentSequence + 1,
      payments := l.payments + [NewPayment(l, row, c, uncertain)],
      evidence := l.evidence + {c.evidence})
  }

  // Recording an acceptable payment, by the failure mode in force.
  function RecordAccepted(l: Ledger, row: nat, c: PaymentCommand): (Ledger, Answer<string>)
    requires row < |l.invoices| && c.amount.Some?
  {
    var l0 := l.(failPayment := None);
    match l.failPayment
    case Some(RejectPayment) => (l0, Rejected)
    case Some(LosePayment) => (ApplyPayment(l0, row, c, true), Uncertain)
    case None => (ApplyPayment(l0, row, c, false), Ok(Tag("PAY", l.paymentSequence)))
  }

  function RecordStep(l: Ledger, c: PaymentCommand): (Ledger, Answer<string>) {
    if !GoodPayment(l, c) then (l, Rejected) else RecordAccepted(l, RowOf(l, c.invoiceRef).value, c)
  }

  function PaymentRow(payments: seq<Payment>, reference: string): (k: Option<nat>)
    ensures k.Some? ==> k.value < |payments| && payments[k.value].reference == reference
    ensures k.None? ==> forall j :: 0 <= j < |payments| ==> payments[j].reference != reference
  {
    if payments == [] then None
    else
      var k := PaymentRow(payments[..|payments| - 1], reference);
      if k.Some? then k else if payments[|payments| - 1].reference == reference then Some(|payments| - 1) else None
  }

  // The first payment that carries the evidence.
  function EvidenceRow(payments: seq<Payment>, evidence: string): (k: Option<nat>)
    ensures k.Some? ==> k.value < |payments| && payments[k.value].evidence == evidence
    ensures k.Some? ==> forall j :: 0 <= j < k.value ==> payments[j].evidence != evidence
    ensures k.None? ==> forall j :: 0 <= j < |payments| ==> payments[j].evidence != evidence
  {
    if payments == [] then None
    else
      var k := EvidenceRow(payments[..|payments| - 1], evidence);
      if k.Some? then k else if payments[|payments| - 1].evidence == evidence then Some(|payments| - 1) else None
  }

  function ReconcilePaymentStep(l: Ledger, evidence: string): (Ledger, Answer<Payment>) {
    if evidence !in l.evidence then (l, Rejected) else
    match EvidenceRow(l.payments, evidence)
    case None => (l, Rejected)
    case Some(k) =>
      var settled := l.payments[k].(uncertain := false);
      (l.(payments := l.payments[k := settled]), Ok(settled))
  }

  function ReadPayment(l: Ledger, reference: string): Answer<Payment> {
    if l.outage then Rejected else
    match PaymentRow(l.payments, reference)
    case None => Rejected
    case Some(k) => Ok(l.payments[k])
  }

  function ReadInvoice(l: Ledger, reference: string): Answer<Invoice> {
    if l.outage then Rejected else
    match RowOf(l, reference)
    case None => Rejected
    case Some(row) => Ok(l.invoices[row])
  }

  // Reversal

  // The payment to reverse and the row of its invoice; None when the provider refuses.
  function Reversible(l: Ledger, reference: string, reason: string): (r: Option<(nat, nat)>)
    ensures r.Some? ==> r.value.0 < |l.payments| && r.value.1 < |l.invoices|
  {
    if l.outage || Blank(reason) then None else
    match PaymentRow(l.payments, reference)
    case None => None
    case Some(k) =>
      var p := l.payments[k];
      if p.reversalOf.Some? || p.reversed then None else
      match RowOf(l, p.invoiceRef)
      case None => None
      case Some(row) => if l.invoices[row].status.Cancelled? then None else Some((k, row))
  }

  function ReversalRecord(l: Ledger, p: Payment): Payment {
    Payment(Tag("PAY", l.paymentSequence), p.invoiceRef, -p.amount, p.currency, REVERSAL_PREFIX + p.reference, p.account,
            Some(p.reference), false, false)
  }

  function ApplyReversal(l: Ledger, k: nat, row: nat): Ledger
    requires k < |l.payments| && row < |l.invoices|
  {
    var p, invoice := l.payments[k], l.invoices[row];
    SetRow(l, row, invoice.(open := invoice.open + p.amount, paid := false)).(
      paymentSequence := l.paymentSequence + 1,
      payments := l.payments[k := p.(reversed := true)] + [ReversalRecord(l, p)],
      evidence := l.evidence + {REVERSAL_PREFIX + p.reference})
  }

  function ReverseStep(l: Ledger, reference: string, reason: string): (Ledger, Answer<string>) {
    match Reversible(l, reference, reason)
    case None => (l, Rejected)
    case Some((k, row)) => (ApplyReversal(l, k, row), Ok(Tag("PAY", l.paymentSequence)))
  }

  // Cancellation

  // An ordinary payment of the invoice that has not been reversed.
  predicate Outstanding(p: Payment, official: Option<string>) {
    Some(p.invoiceRef) == official && p.reversalOf.None? && !p.reversed
  }

  predicate AnyOutstanding(payments: seq<Payment>, official: Option<string>) {
    exists k :: 0 <= k < |payments| && Outstanding(payments[k], official)
  }

  function CancelStep(l: Ledger, reference: string): (Ledger, Answer<()>) {
    if l.outage then (l, Rejected) else
    match RowOf(l, reference)
    case None => (l, Rejected)
    case Some(row) =>
      var invoice := l.invoices[row];
      if invoice.status.Cancelled? then (l, Ok(()))
      else if invoice.status.Posted? && AnyOutstanding(l.payments, invoice.officialRef) then (l, Rejected)
      else (SetRow(l, row, invoice.(status := Cancelled, open := 0.0)), Ok(()))
  }

  // Queries

  predicate Matches(invoice: Invoice, status: Option<InvoiceStatus>, unit: Option<string>, customer: Option<string>) {
    && (status.Some? ==> invoice.status == status.value)
    && (unit.Some? ==> invoice.unit == unit.value)
    && (customer.Some? ==> invoice.customer == customer.value)
  }

  // The references of the matching invoices, each once although every posted one has two handles.
  function Query(l: Ledger, order: seq<string>, status: Option<InvoiceStatus>, unit: Option<string>, customer: Option<string>): seq<string> {
    if order == [] then []
    else
      var found := Query(l, order[..|order| - 1], status, unit, customer);
      match RowOf(l, order[|order| - 1])
      case None => found
      case Some(row) =>
        var invoice := l.invoices[row];
        if Handle(invoice) !in found && Matches(invoice, status, unit, customer) then found + [Handle(invoice)] else found
  }

  function QueryInvoices(l: Ledger, status: Option<InvoiceStatus>, unit: Option<string>, customer: Option<string>): Answer<seq<string>> {
    if l.outage then Rejected else Ok(Query(l, l.order, status, unit, customer))
  }
}
