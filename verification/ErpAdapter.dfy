/**
  The provider adapter in place: invoice objects that two handles of one dictionary may share, counters,
  payments and failure switches. Every method is proved to do what its ledger command says.
 */
module ErpAdapter {
  import opened Wrappers
  import opened References
  import opened ErpLedger

  class InvoiceState {
    const draftRef: string
    const total: real
    const currency: string
    const unit: string
    const customer: string
    var officialRef: Option<string>
    var status: InvoiceStatus
    var open: real
    var uncertain: bool
    var paid: bool

    constructor (invoice: Invoice)
      ensures Value() == invoice
    {
      draftRef, total, currency, unit, customer := invoice.draftRef, invoice.total, invoice.currency, invoice.unit, invoice.customer;
      officialRef, status, open, uncertain, paid := invoice.officialRef, invoice.status, invoice.open, invoice.uncertain, invoice.paid;
    }

    function Value(): Invoice
      reads this
    {
      Invoice(draftRef, officialRef, status, total, open, currency, unit, customer, uncertain, paid)
    }
  }

  class FixtureErpAdapter {
    const prefix: string
    var sequence: nat
    var draftSequence: nat
    var paymentSequence: nat
    var invoices: map<string, InvoiceState>
    var order: seq<string>
    var payments: seq<Payment>
    var evidence: set<string>
    var failPost: Option<PostFailure>
    var failPayment: Option<PaymentFailure>
    var outage: bool
    // The invoice objects in order of creation, and the ledger this object stands for.
    ghost var rows: seq<InvoiceState>
    ghost var ledger: Ledger

    ghost predicate Scalars()
      reads this
    {
      && prefix == ledger.prefix && sequence == ledger.sequence && draftSequence == ledger.draftSequence
      && paymentSequence == ledger.paymentSequence && order == ledger.order && payments == ledger.payments
      && evidence == ledger.evidence && failPost == ledger.failPost && failPayment == ledger.failPayment && outage == ledger.outage
    }

    ghost predicate Objects()
      reads this, rows
    {
      && |rows| == |ledger.invoices|
      && (forall i, j :: 0 <= i < j < |rows| ==> rows[i] != rows[j])
      && (forall i :: 0 <= i < |rows| ==> rows[i].Value() == ledger.invoices[i])
    }

    ghost predicate Dictionary()
      reads this
    {
      && (forall h :: h in invoices <==> h in ledger.handles)
      && (forall h :: h in invoices ==> ledger.handles[h] < |rows| && invoices[h] == rows[ledger.handles[h]])
      && (forall h :: h in order ==> h in invoices)
    }

    ghost predicate Valid()
      reads this, rows
    {
      Scalars() && Objects() && Dictionary()
    }

    constructor (seriesPrefix: string, nextSequence: nat)
      ensures Valid() && rows == [] && ledger == NewLedger(seriesPrefix, nextSequence)
    {
      prefix := seriesPrefix;
      sequence, draftSequence, paymentSequence := nextSequence, 1, 1;
      invoices, order, payments, evidence := map[], [], [], {};
      failPost, failPayment, outage := None, None, false;
      rows := [];
      ledger := NewLedger(seriesPrefix, nextSequence);
    }

    // Test switches

    method FailNextPost(mode: Option<PostFailure>)
      requires Valid()
      modifies this
      ensures Valid() && rows == old(rows) && ledger == old(ledger).(failPost := mode)
    {
      failPost := mode;
      ledger := ledger.(failPost := mode);
    }

    method FailNextPayment(mode: Option<PaymentFailure>)
      requires Valid()
      modifies this
      ensures Valid() && rows == old(rows) && ledger == old(ledger).(failPayment := mode)
    {
      failPayment := mode;
      ledger := ledger.(failPayment := mode);
    }

    method SimulateOutage(unavailable: bool)
      requires Valid()
      modifies this
      ensures Valid() && rows == old(rows) && ledger == old(ledger).(outage := unavailable)
    {
      outage := unavailable;
      ledger := ledger.(outage := unavailable);
    }

    // Drafts

    // The lines of a draft, added up until one is refused.
    static method SumLines(lines: seq<Line>, currency: string) returns (total: Option<real>)
      ensures total == Total(lines, currency)
    {
      var sum := 0.0;
      var i := 0;
      while i < |lines|
        invariant 0 <= i <= |lines| && Total(lines[..i], currency) == Some(sum)
      {
        TotalMore(lines, i, currency);
        if !GoodLine(lines[i], currency) {
          RefusedLine(lines, i, currency);
          return None;
        }
        sum := sum + lines[i].quantity.value * lines[i].price.value;
        i := i + 1;
      }
      assert lines[..i] == lines;
      return Some(sum);
    }

    method CreateDraftInvoice(command: DraftCommand) returns (r: Answer<string>)
      requires Valid()
      modifies this
      ensures Valid() && (ledger, r) == CreateStep(old(ledger), command)
      ensures old(rows) <= rows && forall i :: |old(rows)| <= i < |rows| ==> fresh(rows[i])
    {
      if outage || command.lines == [] || command.issuedOn.None? || command.dueOn.None?
         || command.dueOn.value < command.issuedOn.value || !IsCurrency(command.lines[0].currency) {
        return Rejected;
      }
      var total := SumLines(command.lines, command.lines[0].currency);
      if total.None? {
        return Rejected;
      }
      var reference := EnterDraft(command);
      return Ok(reference);
    }

    // The ledger with the next draft's row, before it has its handle.
    static ghost function AddedDraft(l: Ledger, command: DraftCommand): (l': Ledger)
      requires GoodDraft(command)
      ensures CreateGood(l, command) == (PutHandle(l', Tag("DRAFT", l.draftSequence), |l.invoices|), Tag("DRAFT", l.draftSequence))
    {
      l.(draftSequence := l.draftSequence + 1, invoices := l.invoices + [NewInvoice(Tag("DRAFT", l.draftSequence), command)])
    }

    method EnterDraft(command: DraftCommand) returns (reference: string)
      requires Valid() && GoodDraft(command)
      modifies this
      ensures Valid() && (ledger, reference) == CreateGood(old(ledger), command)
      ensures old(rows) <= rows && forall i :: |old(rows)| <= i < |rows| ==> fresh(rows[i])
    {
      ghost var row := |ledger.invoices|;
      var state;
      reference, state := StartDraft(command);
      EnterHandle(reference, state, row);
    }

    method StartDraft(command: DraftCommand) returns (reference: string, state: InvoiceState)
      requires Valid() && GoodDraft(command)
      modifies this`draftSequence, this`rows, this`ledger
      ensures Valid() && ledger == AddedDraft(old(ledger), command) && reference == Tag("DRAFT", old(ledger).draftSequence)
      ensures fresh(state) && rows == old(rows) + [state] && |old(rows)| == |old(ledger).invoices|
    {
      reference := NextDraft();
      state := AddInvoice(NewInvoice(reference, command));
    }

    method NextDraft() returns (reference: string)
      requires Valid()
      modifies this`draftSequence, this`ledger
      ensures Valid() && reference == Tag("DRAFT", old(ledger).draftSequence)
      ensures ledger == old(ledger).(draftSequence := old(ledger).draftSequence + 1)
    {
      reference := Tag("DRAFT", draftSequence);
      draftSequence := draftSequence + 1;
      ledger := ledger.(draftSequence := draftSequence);
    }

    method AddInvoice(invoice: Invoice) returns (state: InvoiceState)
      requires Valid()
      modifies this`rows, this`ledger
      ensures Valid() && ledger == old(ledger).(invoices := old(ledger).invoices + [invoice])
      ensures fresh(state) && rows == old(rows) + [state]
    {
      state := new InvoiceState(invoice);
      rows := rows + [state];
      ledger := ledger.(invoices := ledger.invoices + [invoice]);
    }

    // Enters an invoice under a handle of the dictionary.
    method EnterHandle(handle: string, state: InvoiceState, ghost row: nat)
      requires Valid() && row < |rows| && rows[row] == state
      modifies this`order, this`invoices, this`ledger
      ensures Valid() && ledger == PutHandle(old(ledger), handle, row)
    {
      order := if handle in invoices then order else order + [handle];
      invoices := invoices[handle := state];
      ledger := PutHandle(ledger, handle, row);
    }

    // Posting

    // The row of a handle: a name for what the dictionary lookup found.
    ghost function Row(reference: string): (row: nat)
      requires Valid() && reference in invoices
      reads this, rows
      ensures row < |rows| && rows[row] == invoices[reference] && RowOf(ledger, reference) == Some(row)
    {
      ledger.handles[reference]
    }

    method FindToPost(reference: string) returns (state: InvoiceState?, ghost row: nat)
      requires Valid()
      ensures state == null <==> PostTarget(ledger, reference).None?
      ensures state != null ==> row < |rows| && rows[row] == state && PostTarget(ledger, reference) == Some(row)
    {
      row := 0;
      if reference in invoices {
        row := Row(reference);
        return invoices[reference], row;
      }
      var i := 0;
      while i < |order|
        invariant 0 <= i <= |order|
        invariant OfficialRow(ledger, order[i..], reference) == OfficialRow(ledger, order, reference)
      {
        var candidate := invoices[order[i]];
        row := Row(order[i]);
        if candidate.officialRef == Some(reference) {
          return candidate, row;
        }
        assert order[i..][1..] == order[i + 1..];
        i := i + 1;
      }
      return null, row;
    }

    // Gives the invoice the next official number and enters it under that handle.
    method AssignNumber(state: InvoiceState, ghost row: nat) returns (official: string)
      requires Valid() && row < |rows| && rows[row] == state
      modifies this, state
      ensures Valid() && rows == old(rows) && ledger == AssignOfficial(old(ledger), row)
      ensures official == Tag(prefix, old(sequence))
    {
      official := Tag(prefix, sequence);
      sequence := sequence + 1;
      ledger := ledger.(sequence := sequence, issued := ledger.issued + [row]);
      SetPosted(state, row, official);
      EnterHandle(official, state, row);
    }

    method SetPosted(state: InvoiceState, ghost row: nat, official: string)
      requires Valid() && row < |rows| && rows[row] == state
      modifies this`ledger, state
      ensures Valid()
      ensures ledger == SetRow(old(ledger), row, old(ledger).invoices[row].(officialRef := Some(official), status := Posted))
    {
      state.officialRef := Some(official);
      state.status := Posted;
      ledger := SetRow(ledger, row, state.Value());
    }

    method SetUncertain(state: InvoiceState, ghost row: nat, uncertain: bool)
      requires Valid() && row < |rows| && rows[row] == state
      modifies this`ledger, state
      ensures Valid() && ledger == MarkUncertain(old(ledger), row, uncertain)
    {
      state.uncertain := uncertain;
      ledger := MarkUncertain(ledger, row, uncertain);
    }

    method PostState(state: InvoiceState, ghost row: nat) returns (r: PostAnswer)
      requires Valid() && row < |rows| && rows[row] == state
      modifies this, state
      ensures Valid() && rows == old(rows) && (ledger, r) == PostDraft(old(ledger), row)
    {
      var failure := TakePostFailure();
      if failure == Some(RejectPost) {
        return NotPosted;
      }
      if failure.Some? {
        PostUnseen(state, row, failure == Some(LosePost));
        return Unknown;
      }
      var official := AssignNumber(state, row);
      return PostedAs(Some(official));
    }

    // The answer of the post is lost, whether it was done or dropped.
    method PostUnseen(state: InvoiceState, ghost row: nat, done: bool)
      requires Valid() && row < |rows| && rows[row] == state
      modifies this, state
      ensures Valid() && rows == old(rows)
      ensures ledger == MarkUncertain(if done then AssignOfficial(old(ledger), row) else old(ledger), row, true)
    {
      if done {
        var _ := AssignNumber(state, row);
      }
      SetUncertain(state, row, true);
    }

    method TakePostFailure() returns (failure: Option<PostFailure>)
      requires Valid()
      modifies this`failPost, this`ledger
      ensures Valid() && failure == old(ledger).failPost && ledger == old(ledger).(failPost := None)
    {
      failure := failPost;
      failPost := None;
      ledger := ledger.(failPost := None);
    }

    method PostInvoice(reference: string) returns (r: Answer<PostAnswer>)
      requires Valid()
      modifies this, rows
      ensures Valid() && rows == old(rows) && (ledger, r) == PostStep(old(ledger), reference)
    {
      if outage {
        return Rejected;
      }
      var state, row := FindToPost(reference);
      if state == null {
        return Rejected;
      }
      assert state.Value() == ledger.invoices[row];
      if state.uncertain {
        return Uncertain;
      }
      if state.status == Posted {
        return Ok(PostedAs(state.officialRef));
      }
      if state.status == Cancelled {
        return Rejected;
      }
      var answer := PostState(state, row);
      return Ok(answer);
    }

    method ReconcilePost(reference: string) returns (r: Answer<PostAnswer>)
      requires Valid()
      modifies this`ledger, rows
      ensures Valid() && (ledger, r) == ReconcilePostStep(old(ledger), reference)
    {
      if reference !in invoices {
        return Rejected;
      }
      var state := invoices[reference];
      ghost var row := Row(reference);
      if !state.uncertain {
        return Ok(if state.status == Posted then PostedAs(state.officialRef) else NotPosted);
      }
      SetUncertain(state, row, false);
      return Ok(if state.status == Posted && state.officialRef.Some? then PostedAs(state.officialRef) else NotPosted);
    }

    // Payments

    method SetPaid(state: InvoiceState, ghost row: nat, open: real, paid: bool)
      requires Valid() && row < |rows| && rows[row] == state
      modifies this`ledger, state
      ensures Valid() && ledger == SetRow(old(ledger), row, old(ledger).invoices[row].(open := open, paid := paid))
    {
      state.open := open;
      state.paid := paid;
      ledger := SetRow(ledger, row, state.Value());
    }

    // A new record and its reserved evidence; the next payment number.
    method AddPayment(p: Payment)
      requires Valid()
      modifies this`payments, this`evidence, this`paymentSequence, this`ledger
      ensures Valid()
      ensures ledger == old(ledger).(paymentSequence := old(ledger).paymentSequence + 1,
                                     payments := old(ledger).payments + [p], evidence := old(ledger).evidence + {p.evidence})
    {
      paymentSequence := paymentSequence + 1;
      payments := payments + [p];
      evidence := evidence + {p.evidence};
      ledger := ledger.(paymentSequence := paymentSequence, payments := payments, evidence := evidence);
    }

    method ReplacePayment(k: nat, p: Payment)
      requires Valid() && k < |payments|
      modifies this`payments, this`ledger
      ensures Valid() && ledger == old(ledger).(payments := old(ledger).payments[k := p])
    {
      payments := payments[k := p];
      ledger := ledger.(payments := payments);
    }

    method Apply(state: InvoiceState, ghost row: nat, command: PaymentCommand, uncertain: bool) returns (reference: string)
      requires Valid() && row < |rows| && rows[row] == state && command.amount.Some?
      modifies this`payments, this`evidence, this`paymentSequence, this`ledger, state
      ensures Valid() && ledger == ApplyPayment(old(ledger), row, command, uncertain) && reference == Tag("PAY", old(paymentSequence))
    {
      reference := Tag("PAY", paymentSequence);
      var handle := if state.officialRef.Some? then state.officialRef.value else state.draftRef;
      var open := state.open - command.amount.value;
      AddPayment(Payment(reference, handle, command.amount.value, command.currency, command.evidence, command.account, None, false, uncertain));
      SetPaid(state, row, open, state.paid || open == 0.0);
    }

    // The checks of a payment, in their order.
    method Accepts(command: PaymentCommand) returns (good: bool)
      requires Valid()
      ensures good == GoodPayment(ledger, command)
      ensures good ==> command.invoiceRef in invoices
    {
      if outage || Blank(command.evidence) || !IsCurrency(command.currency) || Reserved(command.evidence) || command.evidence in evidence {
        return false;
      }
      if command.invoiceRef !in invoices {
        return false;
      }
      var state := invoices[command.invoiceRef];
      ghost var row := Row(command.invoiceRef);
      assert state.Value() == ledger.invoices[row];
      if state.status != Posted || command.amount.None? || command.amount.value <= 0.0 {
        return false;
      }
      return command.currency == state.currency && command.amount.value <= state.open;
    }

    method TakePaymentFailure() returns (failure: Option<PaymentFailure>)
      requires Valid()
      modifies this`failPayment, this`ledger
      ensures Valid() && failure == old(ledger).failPayment && ledger == old(ledger).(failPayment := None)
    {
      failure := failPayment;
      failPayment := None;
      ledger := ledger.(failPayment := None);
    }

    method RecordPayment(command: PaymentCommand) returns (r: Answer<string>)
      requires Valid()
      modifies this, rows
      ensures Valid() && rows == old(rows) && (ledger, r) == RecordStep(old(ledger), command)
    {
      var good := Accepts(command);
      if !good {
        return Rejected;
      }
      var state := invoices[command.invoiceRef];
      ghost var row := Row(command.invoiceRef);
      r := RecordGood(state, row, command);
    }

    method RecordGood(state: InvoiceState, ghost row: nat, command: PaymentCommand) returns (r: Answer<string>)
      requires Valid() && row < |rows| && rows[row] == state && command.amount.Some?
      modifies this, state
      ensures Valid() && rows == old(rows) && (ledger, r) == RecordAccepted(old(ledger), row, command)
    {
      var failure := TakePaymentFailure();
      if failure == Some(RejectPayment) {
        return Rejected;
      }
      var reference := Apply(state, row, command, failure == Some(LosePayment));
      return if failure == Some(LosePayment) then Uncertain else Ok(reference);
    }

    method FindPayment(reference: string) returns (k: Option<nat>)
      requires Valid()
      ensures k == PaymentRow(payments, reference)
    {
      var i := 0;
      while i < |payments|
        invariant 0 <= i <= |payments| && PaymentRow(payments[..i], reference) == None
      {
        assert payments[..i + 1][..i] == payments[..i];
        if payments[i].reference == reference {
          PaymentRowStays(payments, i + 1, reference);
          return Some(i);
        }
        i := i + 1;
      }
      assert payments[..i] == payments;
      return None;
    }

    method ReconcilePayment(evidenceRef: string) returns (r: Answer<Payment>)
      requires Valid()
      modifies this`payments, this`ledger
      ensures Valid() && (ledger, r) == ReconcilePaymentStep(old(ledger), evidenceRef)
    {
      if evidenceRef !in evidence {
        return Rejected;
      }
      var i := 0;
      while i < |payments|
        invariant 0 <= i <= |payments| && EvidenceRow(payments[..i], evidenceRef) == None
        invariant Valid() && ledger == old(ledger)
      {
        assert payments[..i + 1][..i] == payments[..i];
        if payments[i].evidence == evidenceRef {
          EvidenceRowStays(payments, i + 1, evidenceRef);
          var settled := payments[i].(uncertain := false);
          ReplacePayment(i, settled);
          return Ok(settled);
        }
        i := i + 1;
      }
      assert payments[..i] == payments;
      return Rejected;
    }

    method ReadPaymentRecord(reference: string) returns (r: Answer<Payment>)
      requires Valid()
      ensures r == ReadPayment(ledger, reference)
    {
      if outage {
        return Rejected;
      }
      var k := FindPayment(reference);
      return if k.Some? then Ok(payments[k.value]) else Rejected;
    }

    method ReadInvoiceRecord(reference: string) returns (r: Answer<Invoice>)
      requires Valid()
      ensures r == ReadInvoice(ledger, reference)
    {
      if outage || reference !in invoices {
        return Rejected;
      }
      ghost var row := Row(reference);
      return Ok(invoices[reference].Value());
    }

    // Reversal and cancellation

    method ReversePayment(reference: string, reason: string) returns (r: Answer<string>)
      requires Valid()
      modifies this, rows
      ensures Valid() && rows == old(rows) && (ledger, r) == ReverseStep(old(ledger), reference, reason)
    {
      if outage || Blank(reason) {
        return Rejected;
      }
      var found := FindPayment(reference);
      if found.None? {
        return Rejected;
      }
      var payment := payments[found.value];
      if payment.reversalOf.Some? || payment.reversed || payment.invoiceRef !in invoices {
        return Rejected;
      }
      var state := invoices[payment.invoiceRef];
      ghost var row := Row(payment.invoiceRef);
      if state.status == Cancelled {
        return Rejected;
      }
      var reversal := Undo(found.value, state, row);
      return Ok(reversal);
    }

    method Undo(k: nat, state: InvoiceState, ghost row: nat) returns (reference: string)
      requires Valid() && k < |payments| && row < |rows| && rows[row] == state
      modifies this`payments, this`evidence, this`paymentSequence, this`ledger, state
      ensures Valid() && ledger == ApplyReversal(old(ledger), k, row) && reference == Tag("PAY", old(paymentSequence))
    {
      var payment := payments[k];
      reference := Tag("PAY", paymentSequence);
      ReplacePayment(k, payment.(reversed := true));
      AddPayment(Payment(reference, payment.invoiceRef, -payment.amount, payment.currency, REVERSAL_PREFIX + payment.reference,
                         payment.account, Some(payment.reference), false, false));
      SetPaid(state, row, state.open + payment.amount, false);
    }

    method HasOutstanding(official: Option<string>) returns (any: bool)
      requires Valid()
      ensures any == AnyOutstanding(payments, official)
    {
      var i := 0;
      while i < |payments|
        invariant 0 <= i <= |payments| && forall k :: 0 <= k < i ==> !Outstanding(payments[k], official)
      {
        if Outstanding(payments[i], official) {
          return true;
        }
        i := i + 1;
      }
      return false;
    }

    method Close(state: InvoiceState, ghost row: nat)
      requires Valid() && row < |rows| && rows[row] == state
      modifies this`ledger, state
      ensures Valid() && ledger == SetRow(old(ledger), row, old(ledger).invoices[row].(status := Cancelled, open := 0.0))
    {
      state.status := Cancelled;
      state.open := 0.0;
      ledger := SetRow(ledger, row, state.Value());
    }

    method CancelInvoice(reference: string) returns (r: Answer<()>)
      requires Valid()
      modifies this`ledger, rows
      ensures Valid() && (ledger, r) == CancelStep(old(ledger), reference)
    {
      if outage || reference !in invoices {
        return Rejected;
      }
      var state := invoices[reference];
      ghost var row := Row(reference);
      assert state.Value() == ledger.invoices[row];
      if state.status == Cancelled {
        return Ok(());
      }
      if state.status == Posted {
        var any := HasOutstanding(state.officialRef);
        if any {
          return Rejected;
        }
      }
      Close(state, row);
      return Ok(());
    }

    // Queries

    method VisitHandle(i: nat, found: seq<string>, status: Option<InvoiceStatus>, unit: Option<string>, customer: Option<string>)
      returns (more: seq<string>)
      requires Valid() && i < |order| && found == Query(ledger, order[..i], status, unit, customer)
      ensures more == Query(ledger, order[..i + 1], status, unit, customer)
    {
      QueryMore(ledger, order, i, status, unit, customer);
      ghost var row := Row(order[i]);
      var invoice := invoices[order[i]].Value();
      return if Handle(invoice) !in found && Matches(invoice, status, unit, customer) then found + [Handle(invoice)] else found;
    }

    method ListInvoices(status: Option<InvoiceStatus>, unit: Option<string>, customer: Option<string>) returns (r: Answer<seq<string>>)
      requires Valid()
      ensures r == QueryInvoices(ledger, status, unit, customer)
    {
      if outage {
        return Rejected;
      }
      var found: seq<string> := [];
      var i := 0;
      while i < |order|
        invariant 0 <= i <= |order| && found == Query(ledger, order[..i], status, unit, customer)
      {
        found := VisitHandle(i, found, status, unit, customer);
        i := i + 1;
      }
      assert order[..i] == order;
      return Ok(found);
    }
  }

  lemma {:induction false} TotalMore(lines: seq<Line>, i: nat, currency: string)
    requires i < |lines|
    ensures Total(lines[..i + 1], currency)
         == (var front := Total(lines[..i], currency);
             if front.Some? && GoodLine(lines[i], currency) then Some(front.value + lines[i].quantity.value * lines[i].price.value) else None)
  {
    assert lines[..i + 1][..i] == lines[..i];
  }

  lemma {:induction false} RefusedLine(lines: seq<Line>, i: nat, currency: string)
    requires i < |lines| && !GoodLine(lines[i], currency)
    ensures Total(lines, currency) == None
    decreases |lines|
  {
    if i < |lines| - 1 {
      RefusedLine(lines[..|lines| - 1], i, currency);
    }
  }

  lemma {:induction false} PaymentRowStays(payments: seq<Payment>, i: nat, reference: string)
    requires i <= |payments| && PaymentRow(payments[..i], reference).Some?
    ensures PaymentRow(payments, reference) == PaymentRow(payments[..i], reference)
    decreases |payments|
  {
    if i < |payments| {
      assert payments[..|payments| - 1][..i] == payments[..i];
      PaymentRowStays(payments[..|payments| - 1], i, reference);
    } else {
      assert payments[..i] == payments;
    }
  }

  lemma {:induction false} EvidenceRowStays(payments: seq<Payment>, i: nat, evidence: string)
    requires i <= |payments| && EvidenceRow(payments[..i], evidence).Some?
    ensures EvidenceRow(payments, evidence) == EvidenceRow(payments[..i], evidence)
    decreases |payments|
  {
    if i < |payments| {
      assert payments[..|payments| - 1][..i] == payments[..i];
      EvidenceRowStays(payments[..|payments| - 1], i, evidence);
    } else {
      assert payments[..i] == payments;
    }
  }

  lemma {:induction false} QueryMore(l: Ledger, order: seq<string>, i: nat, status: Option<InvoiceStatus>, unit: Option<string>, customer: Option<string>)
    requires i < |order|
    ensures var found := Query(l, order[..i], status, unit, customer);
      Query(l, order[..i + 1], status, unit, customer)
      == match RowOf(l, order[i])
         case None => found
         case Some(row) =>
           var invoice := l.invoices[row];
           if Handle(invoice) !in found && Matches(invoice, status, unit, customer) then found + [Handle(invoice)] else found
  {
    assert order[..i + 1][..i] == order[..i];
  }
}
