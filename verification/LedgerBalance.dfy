/**
  Conservation of money at the provider: what a posted invoice is still owed, plus everything recorded
  against it, is its total, in every reachable state; and a piece of evidence moves an amount once.
 */
module LedgerBalance {
  import opened Wrappers
  import opened References
  import opened ErpLedger
  import opened LedgerRuns

  // All records of an invoice, reversals with their negative amounts.
  function Net(payments: seq<Payment>, official: string): real {
    if payments == [] then 0.0
    else Net(payments[..|payments| - 1], official) + Entry(payments[|payments| - 1], official)
  }

  function Entry(p: Payment, official: string): real {
    if p.invoiceRef == official then p.amount else 0.0
  }

  // The ordinary payments of an invoice that were not reversed.
  function Standing(payments: seq<Payment>, official: string): real {
    if payments == [] then 0.0
    else Standing(payments[..|payments| - 1], official) + Stands(payments[|payments| - 1], official)
  }

  function Stands(p: Payment, official: string): real {
    if Outstanding(p, Some(official)) then p.amount else 0.0
  }

  lemma {:induction false} Appended(payments: seq<Payment>, p: Payment, official: string)
    ensures Net(payments + [p], official) == Net(payments, official) + Entry(p, official)
    ensures Standing(payments + [p], official) == Standing(payments, official) + Stands(p, official)
  {
    assert (payments + [p])[..|payments|] == payments;
  }

  lemma {:induction false} Replaced(payments: seq<Payment>, k: nat, p: Payment, official: string)
    requires k < |payments|
    ensures Net(payments[k := p], official) == Net(payments, official) - Entry(payments[k], official) + Entry(p, official)
    ensures Standing(payments[k := p], official) == Standing(payments, official) - Stands(payments[k], official) + Stands(p, official)
  {
    var n := |payments| - 1;
    if k == n {
      assert payments[k := p][..n] == payments[..n];
    } else {
      Replaced(payments[..n], k, p, official);
      assert payments[k := p][..n] == payments[..n][k := p];
    }
  }

  predicate Positive(payments: seq<Payment>) {
    forall k :: 0 <= k < |payments| && payments[k].reversalOf.None? ==> payments[k].amount > 0.0
  }

  lemma {:induction false} StandingNotNegative(payments: seq<Payment>, official: string)
    requires Positive(payments)
    ensures Standing(payments, official) >= 0.0
  {
    if payments != [] {
      StandingNotNegative(payments[..|payments| - 1], official);
    }
  }

  lemma {:induction false} NothingStands(payments: seq<Payment>, official: string)
    requires !AnyOutstanding(payments, Some(official))
    ensures Standing(payments, official) == 0.0
  {
    if payments != [] {
      var front := payments[..|payments| - 1];
      assert forall k :: 0 <= k < |front| ==> front[k] == payments[k];
      assert !Outstanding(payments[|payments| - 1], Some(official));
      NothingStands(front, official);
    }
  }

  lemma {:induction false} TotalPositive(lines: seq<Line>, currency: string)
    requires Total(lines, currency).Some?
    ensures Total(lines, currency).value >= 0.0 && (lines != [] ==> Total(lines, currency).value > 0.0)
  {
    if lines != [] {
      TotalPositive(lines[..|lines| - 1], currency);
      var line := lines[|lines| - 1];
      assert line.quantity.value * line.price.value > 0.0;
    }
  }

  // Records: references, evidence, reversals

  // The payment belongs to an invoice that its reference names.
  predicate Placed(l: Ledger, p: Payment) {
    RowOf(l, p.invoiceRef).Some? && l.invoices[RowOf(l, p.invoiceRef).value].officialRef == Some(p.invoiceRef)
  }

  // A reversal undoes one earlier ordinary payment, which is marked reversed.
  ghost predicate Undoes(payments: seq<Payment>, j: nat, k: nat)
    requires j < |payments|
  {
    && k < j && payments[k].reversalOf.None? && payments[k].reversed
    && payments[j].reversalOf == Some(payments[k].reference) && payments[j].amount == -payments[k].amount
    && payments[j].invoiceRef == payments[k].invoiceRef && payments[j].evidence == REVERSAL_PREFIX + payments[k].reference
  }

  ghost predicate GoodRecord(payments: seq<Payment>, j: nat)
    requires j < |payments|
  {
    var p := payments[j];
    && p.reference == Tag("PAY", j + 1)
    && (p.reversalOf.None? ==> !Reserved(p.evidence))
    && (p.reversalOf.Some? ==> !p.reversed && exists k: nat :: Undoes(payments, j, k))
  }

  ghost predicate GoodRecords(payments: seq<Payment>) {
    Positive(payments) && forall j :: 0 <= j < |payments| ==> GoodRecord(payments, j)
  }

  // The reserved evidence is the evidence of the records, each carried by one.
  ghost predicate EvidenceIndexed(payments: seq<Payment>, evidence: set<string>) {
    && (forall j :: 0 <= j < |payments| ==> payments[j].evidence in evidence)
    && (forall e :: e in evidence ==> EvidenceRow(payments, e).Some?)
    && (forall j, k :: 0 <= j < k < |payments| ==> payments[j].evidence != payments[k].evidence)
  }

  ghost predicate AllPlaced(l: Ledger, payments: seq<Payment>) {
    forall j :: 0 <= j < |payments| ==> Placed(l, payments[j])
  }

  ghost predicate Records(l: Ledger) {
    && l.paymentSequence == |l.payments| + 1
    && GoodRecords(l.payments) && EvidenceIndexed(l.payments, l.evidence) && AllPlaced(l, l.payments)
  }

  lemma {:induction false} MoreIsIndexed(payments: seq<Payment>, p: Payment, evidence: set<string>)
    requires EvidenceIndexed(payments, evidence) && p.evidence !in evidence
    ensures EvidenceIndexed(payments + [p], evidence + {p.evidence})
  {
    var more := payments + [p];
    assert more[|payments|] == p;
    assert EvidenceRow(more, p.evidence).Some?;
    forall e | e in evidence
      ensures EvidenceRow(more, e).Some?
    {
      assert more[EvidenceRow(payments, e).value].evidence == e;
    }
  }

  lemma {:induction false} MoreIsGood(payments: seq<Payment>, p: Payment)
    requires GoodRecords(payments) && GoodRecord(payments + [p], |payments|) && (p.reversalOf.None? ==> p.amount > 0.0)
    ensures GoodRecords(payments + [p])
  {
    forall j | 0 <= j < |payments|
      ensures GoodRecord(payments + [p], j)
    {
      assert GoodRecord(payments, j);
      if payments[j].reversalOf.Some? {
        var k: nat :| Undoes(payments, j, k);
        assert Undoes(payments + [p], j, k);
      }
    }
  }

  // A record whose flags alone changed; a payment may become reversed, never the reverse.
  predicate Flagged(p: Payment, p': Payment) {
    && p'.reference == p.reference && p'.invoiceRef == p.invoiceRef && p'.amount == p.amount && p'.evidence == p.evidence
    && p'.reversalOf == p.reversalOf && (p.reversed ==> p'.reversed) && (p.reversalOf.Some? ==> !p'.reversed)
  }

  lemma {:induction false} FlaggedIsGood(payments: seq<Payment>, k: nat, p: Payment)
    requires GoodRecords(payments) && k < |payments| && Flagged(payments[k], p)
    ensures GoodRecords(payments[k := p])
  {
    var after := payments[k := p];
    forall j | 0 <= j < |after|
      ensures GoodRecord(after, j)
    {
      assert GoodRecord(payments, j);
      if payments[j].reversalOf.Some? {
        var m: nat :| Undoes(payments, j, m);
        assert Undoes(after, j, m);
      }
    }
  }

  lemma {:induction false} FlaggedIsIndexed(payments: seq<Payment>, evidence: set<string>, k: nat, p: Payment)
    requires EvidenceIndexed(payments, evidence) && k < |payments| && Flagged(payments[k], p)
    ensures EvidenceIndexed(payments[k := p], evidence)
  {
    forall e | e in evidence
      ensures EvidenceRow(payments[k := p], e).Some?
    {
      assert payments[k := p][EvidenceRow(payments, e).value].evidence == e;
    }
  }

  // Payments stay placed while the handles behind them keep their rows, and the rows their numbers.
  lemma {:induction false} StillPlaced(l: Ledger, l': Ledger)
    requires AllPlaced(l, l.payments) && Settles(l, l') && KeepsHandles(l, l')
    ensures AllPlaced(l', l.payments)
  {
    forall j | 0 <= j < |l.payments|
      ensures Placed(l', l.payments[j])
    {
      assert Placed(l, l.payments[j]);
    }
  }

  lemma {:induction false} SameRecords(l: Ledger, l': Ledger)
    requires Records(l) && l'.payments == l.payments && l'.paymentSequence == l.paymentSequence && l'.evidence == l.evidence
    requires Settles(l, l') && KeepsHandles(l, l')
    ensures Records(l')
  {
    StillPlaced(l, l');
  }

  lemma {:induction false} ApplyKeepsRecords(l: Ledger, row: nat, c: PaymentCommand, uncertain: bool)
    requires Records(l) && row < |l.invoices| && c.amount.Some? && c.amount.value > 0.0
    requires c.evidence !in l.evidence && !Reserved(c.evidence)
    requires RowOf(l, Handle(l.invoices[row])) == Some(row) && l.invoices[row].officialRef.Some?
    ensures Records(ApplyPayment(l, row, c, uncertain))
  {
    var l' := ApplyPayment(l, row, c, uncertain);
    var p := NewPayment(l, row, c, uncertain);
    MoreIsGood(l.payments, p);
    MoreIsIndexed(l.payments, p, l.evidence);
    RowSettles(l, row, l'.invoices[row]);
    StillPlaced(l, l');
    assert Placed(l', p);
  }

  lemma {:induction false} FlagKeepsRecords(l: Ledger)
    requires Records(l)
    ensures Records(l.(failPayment := None))
  {
    SameRecords(l, l.(failPayment := None));
  }

  // A payment that goes through: it is applied to the row its reference names.
  lemma {:induction false} RecordForm(l: Ledger, c: PaymentCommand)
    requires Names(l) && GoodPayment(l, c) && l.failPayment != Some(RejectPayment)
    ensures var row := RowOf(l, c.invoiceRef).value;
      && l.invoices[row].officialRef.Some? && RowOf(l, l.invoices[row].officialRef.value) == Some(row)
      && RecordStep(l, c).0 == ApplyPayment(l.(failPayment := None), row, c, l.failPayment == Some(LosePayment))
  {
    assert RowNamed(l, RowOf(l, c.invoiceRef).value);
  }

  lemma {:induction false} RecordKeepsRecords(l: Ledger, c: PaymentCommand)
    requires Names(l) && Records(l)
    ensures Records(RecordStep(l, c).0)
  {
    FlagKeepsRecords(l);
    if GoodPayment(l, c) && l.failPayment != Some(RejectPayment) {
      RecordForm(l, c);
      ApplyKeepsRecords(l.(failPayment := None), RowOf(l, c.invoiceRef).value, c, l.failPayment == Some(LosePayment));
    } else {
      assert RecordStep(l, c).0 == l || RecordStep(l, c).0 == l.(failPayment := None);
    }
  }

  // The evidence of a reversal names the payment it undoes.
  lemma {:induction false} ReversalEvidenceNames(payments: seq<Payment>, j: nat, k: nat)
    requires j < |payments| && k < |payments| && GoodRecord(payments, j) && payments[j].evidence == REVERSAL_PREFIX + payments[k].reference
    requires forall m :: 0 <= m < |payments| ==> payments[m].reference == Tag("PAY", m + 1)
    ensures payments[k].reversed
  {
    var e := payments[j].evidence;
    assert e[..|REVERSAL_PREFIX|] == REVERSAL_PREFIX;
    var m: nat :| Undoes(payments, j, m);
    assert e == REVERSAL_PREFIX + payments[m].reference;
    assert payments[m].reference == e[|REVERSAL_PREFIX|..] == payments[k].reference;
    TagNames(payments[m].reference, "PAY", m + 1, k + 1);
  }

  lemma {:induction false} ReversalEvidenceIsFresh(l: Ledger, k: nat)
    requires Records(l) && k < |l.payments| && !l.payments[k].reversed
    ensures REVERSAL_PREFIX + l.payments[k].reference !in l.evidence
  {
    var e := REVERSAL_PREFIX + l.payments[k].reference;
    if e in l.evidence {
      var j := EvidenceRow(l.payments, e).value;
      forall m | 0 <= m < |l.payments| ensures l.payments[m].reference == Tag("PAY", m + 1) { assert GoodRecord(l.payments, m); }
      assert GoodRecord(l.payments, j);
      ReversalEvidenceNames(l.payments, j, k);
    }
  }

  lemma {:induction false} StaysPlaced(l: Ledger, payments: seq<Payment>, k: nat, reversal: Payment)
    requires AllPlaced(l, payments) && k < |payments| && reversal.invoiceRef == payments[k].invoiceRef
    ensures AllPlaced(l, payments[k := payments[k].(reversed := true)] + [reversal])
  {
    assert Placed(l, payments[k]);
  }

  lemma {:induction false} ReversalKeepsRecords(l: Ledger, k: nat, row: nat)
    requires Records(l) && k < |l.payments| && row < |l.invoices|
    requires l.payments[k].reversalOf.None? && !l.payments[k].reversed
    ensures Records(ApplyReversal(l, k, row))
  {
    var p := l.payments[k];
    var l' := ApplyReversal(l, k, row);
    var marked := l.payments[k := p.(reversed := true)];
    var reversal := ReversalRecord(l, p);
    FlaggedIsGood(l.payments, k, p.(reversed := true));
    FlaggedIsIndexed(l.payments, l.evidence, k, p.(reversed := true));
    ReversalEvidenceIsFresh(l, k);
    assert Undoes(marked + [reversal], |l.payments|, k);
    MoreIsGood(marked, reversal);
    MoreIsIndexed(marked, reversal, l.evidence);
    RowSettles(l, row, l'.invoices[row]);
    StillPlaced(l, l');
    StaysPlaced(l', l.payments, k, reversal);
  }

  lemma {:induction false} ReverseKeepsRecords(l: Ledger, reference: string, reason: string)
    requires Records(l)
    ensures Records(ReverseStep(l, reference, reason).0)
  {
    var r := Reversible(l, reference, reason);
    if r.Some? {
      ReversalKeepsRecords(l, r.value.0, r.value.1);
    }
  }

  lemma {:induction false} ReconcileKeepsRecords(l: Ledger, evidence: string)
    requires Records(l)
    ensures Records(ReconcilePaymentStep(l, evidence).0)
  {
    if evidence in l.evidence {
      var k := EvidenceRow(l.payments, evidence).value;
      var settled := l.payments[k].(uncertain := false);
      assert GoodRecord(l.payments, k);
      FlaggedIsGood(l.payments, k, settled);
      FlaggedIsIndexed(l.payments, l.evidence, k, settled);
      var l' := l.(payments := l.payments[k := settled]);
      assert Placed(l, l.payments[k]);
      StillPlaced(l, l.(payments := l'.payments));
      assert AllPlaced(l', l'.payments) by {
        forall j | 0 <= j < |l'.payments| ensures Placed(l', l'.payments[j]) { assert Placed(l, l.payments[j]); }
      }
    }
  }

  // Commands that record nothing.
  lemma {:induction false} CreateKeepsRecords(l: Ledger, c: DraftCommand)
    requires SeriesPrefix(l.prefix) && Names(l) && Records(l)
    ensures Records(CreateStep(l, c).0)
  {
    CreateGrowsHandles(l, c);
    SameRecords(l, CreateStep(l, c).0);
  }

  lemma {:induction false} PostRecordsNothing(l: Ledger, reference: string)
    ensures var l' := PostStep(l, reference).0;
      l'.payments == l.payments && l'.paymentSequence == l.paymentSequence && l'.evidence == l.evidence
  {
  }

  lemma {:induction false} PostKeepsRecords(l: Ledger, reference: string)
    requires SeriesPrefix(l.prefix) && Names(l) && Records(l)
    ensures Records(PostStep(l, reference).0)
  {
    PostGrowsHandles(l, reference);
    PostSettles(l, reference);
    PostRecordsNothing(l, reference);
    SameRecords(l, PostStep(l, reference).0);
  }

  lemma {:induction false} ReconcilePostKeepsRecords(l: Ledger, reference: string)
    requires Records(l)
    ensures Records(ReconcilePostStep(l, reference).0)
  {
    ReconcilePostFrame(l, reference);
    SameRecords(l, ReconcilePostStep(l, reference).0);
  }

  lemma {:induction false} CancelKeepsRecords(l: Ledger, reference: string)
    requires Records(l)
    ensures Records(CancelStep(l, reference).0)
  {
    CancelFrame(l, reference);
    SameRecords(l, CancelStep(l, reference).0);
  }

  lemma {:induction false} DoKeepsRecords(l: Ledger, op: Op)
    requires SeriesPrefix(l.prefix) && Names(l) && Records(l)
    ensures Records(Do(l, op))
  {
    match op
    case Create(draft) => CreateKeepsRecords(l, draft);
    case Post(reference) => PostKeepsRecords(l, reference);
    case ReconcilePost(reference) => ReconcilePostKeepsRecords(l, reference);
    case Record(payment) => RecordKeepsRecords(l, payment);
    case ReconcilePayment(evidence) => ReconcileKeepsRecords(l, evidence);
    case Reverse(reference, reason) => ReverseKeepsRecords(l, reference, reason);
    case Cancel(reference) => CancelKeepsRecords(l, reference);
    case _ => SameRecords(l, Do(l, op));
  }

  // Balance

  // What a row owes, by its status.
  predicate Balanced(invoice: Invoice, payments: seq<Payment>) {
    && invoice.total > 0.0
    && match invoice.status
       case Draft => invoice.open == invoice.total && !invoice.paid
       case Posted =>
         && invoice.officialRef.Some?
         && invoice.open + Standing(payments, invoice.officialRef.value) == invoice.total
         && invoice.open >= 0.0 && (invoice.paid <==> invoice.open == 0.0)
       case Cancelled =>
         && invoice.open == 0.0 && !invoice.paid
         && (invoice.officialRef.Some? ==> Standing(payments, invoice.officialRef.value) == 0.0)
  }

  // Reversals cancel what they reverse, so the records of an invoice add up to what still stands.
  ghost predicate NetStands(payments: seq<Payment>) {
    forall official :: Net(payments, official) == Standing(payments, official)
  }

  ghost predicate Books(l: Ledger) {
    NetStands(l.payments) && forall i :: 0 <= i < |l.invoices| ==> Balanced(l.invoices[i], l.payments)
  }

  // A payment entry changes the balance of its own invoice only.
  lemma {:induction false} OtherInvoice(invoice: Invoice, payments: seq<Payment>, p: Payment)
    requires Balanced(invoice, payments) && (invoice.officialRef.Some? ==> invoice.officialRef != Some(p.invoiceRef))
    ensures Balanced(invoice, payments + [p])
  {
    if invoice.officialRef.Some? {
      Appended(payments, p, invoice.officialRef.value);
    }
  }

  lemma {:induction false} PaymentNets(payments: seq<Payment>, p: Payment)
    requires NetStands(payments) && p.reversalOf.None? && !p.reversed
    ensures NetStands(payments + [p])
  {
    forall official
      ensures Net(payments + [p], official) == Standing(payments + [p], official)
    {
      Appended(payments, p, official);
    }
  }

  lemma {:induction false} ReversalNets(payments: seq<Payment>, k: nat, reversal: Payment)
    requires NetStands(payments) && k < |payments| && payments[k].reversalOf.None? && !payments[k].reversed
    requires reversal.reversalOf.Some? && reversal.invoiceRef == payments[k].invoiceRef && reversal.amount == -payments[k].amount
    ensures NetStands(payments[k := payments[k].(reversed := true)] + [reversal])
  {
    var marked := payments[k := payments[k].(reversed := true)];
    forall official
      ensures Net(marked + [reversal], official) == Standing(marked + [reversal], official)
    {
      Replaced(payments, k, payments[k].(reversed := true), official);
      Appended(marked, reversal, official);
    }
  }

  lemma {:induction false} ReversedStanding(payments: seq<Payment>, k: nat, reversal: Payment, official: string)
    requires k < |payments| && payments[k].reversalOf.None? && !payments[k].reversed
    requires reversal.reversalOf.Some? && reversal.invoiceRef == payments[k].invoiceRef
    ensures Standing(payments[k := payments[k].(reversed := true)] + [reversal], official)
         == Standing(payments, official) - (if payments[k].invoiceRef == official then payments[k].amount else 0.0)
  {
    var marked := payments[k := payments[k].(reversed := true)];
    Replaced(payments, k, payments[k].(reversed := true), official);
    Appended(marked, reversal, official);
  }

  lemma {:induction false} ApplyKeepsBooks(l: Ledger, row: nat, c: PaymentCommand, uncertain: bool)
    requires SeriesPrefix(l.prefix) && Names(l) && Books(l) && row < |l.invoices| && l.invoices[row].status.Posted?
    requires c.amount.Some? && 0.0 < c.amount.value <= l.invoices[row].open
    ensures Books(ApplyPayment(l, row, c, uncertain))
  {
    var p := NewPayment(l, row, c, uncertain);
    var l' := ApplyPayment(l, row, c, uncertain);
    assert RowNamed(l, row);
    PaymentNets(l.payments, p);
    forall i | 0 <= i < |l'.invoices|
      ensures Balanced(l'.invoices[i], l'.payments)
    {
      assert Balanced(l.invoices[i], l.payments);
      if i == row {
        Appended(l.payments, p, p.invoiceRef);
      } else {
        if l.invoices[i].officialRef == l.invoices[row].officialRef {
          OfficialsDiffer(l, i, row);
        }
        OtherInvoice(l.invoices[i], l.payments, p);
      }
    }
  }

  lemma {:induction false} ReversalKeepsBooks(l: Ledger, k: nat, row: nat)
    requires SeriesPrefix(l.prefix) && Names(l) && Books(l) && Positive(l.payments) && k < |l.payments| && row < |l.invoices|
    requires l.payments[k].reversalOf.None? && !l.payments[k].reversed
    requires l.invoices[row].status.Posted? && l.invoices[row].officialRef == Some(l.payments[k].invoiceRef)
    ensures Books(ApplyReversal(l, k, row))
  {
    var p, reversal := l.payments[k], ReversalRecord(l, l.payments[k]);
    var l' := ApplyReversal(l, k, row);
    ReversalNets(l.payments, k, reversal);
    forall i | 0 <= i < |l'.invoices|
      ensures Balanced(l'.invoices[i], l'.payments)
    {
      var official := l.invoices[i].officialRef;
      assert Balanced(l.invoices[i], l.payments);
      if official.Some? {
        ReversedStanding(l.payments, k, reversal, official.value);
        if i != row && official == l.invoices[row].officialRef {
          OfficialsDiffer(l, i, row);
        }
      }
    }
  }

  lemma {:induction false} CancelKeepsBooks(l: Ledger, reference: string)
    requires Names(l) && Books(l)
    ensures Books(CancelStep(l, reference).0)
  {
    var l' := CancelStep(l, reference).0;
    if l' != l {
      var row := RowOf(l, reference).value;
      var invoice := l.invoices[row];
      assert RowNamed(l, row) && Balanced(invoice, l.payments);
      if invoice.status.Posted? {
        NothingStands(l.payments, invoice.officialRef.value);
      }
      assert Balanced(l'.invoices[row], l'.payments);
      forall i | 0 <= i < |l'.invoices|
        ensures Balanced(l'.invoices[i], l'.payments)
      {
        assert Balanced(l.invoices[i], l.payments);
      }
    }
  }

  lemma {:induction false} PostedRowKeepsBooks(l: Ledger, row: nat)
    requires SeriesPrefix(l.prefix) && Names(l) && Records(l) && Books(l) && row < |l.invoices| && l.invoices[row].status.Draft?
    ensures Books(AssignOfficial(l, row))
  {
    var official := Tag(l.prefix, l.sequence);
    NewOfficialIsFresh(l);
    forall k | 0 <= k < |l.payments|
      ensures !Outstanding(l.payments[k], Some(official))
    {
      assert Placed(l, l.payments[k]);
    }
    NothingStands(l.payments, official);
    assert Balanced(l.invoices[row], l.payments);
  }

  lemma {:induction false} UncertainKeepsBooks(l: Ledger, row: nat, uncertain: bool)
    requires Books(l) && row < |l.invoices|
    ensures Books(MarkUncertain(l, row, uncertain))
  {
    assert Balanced(l.invoices[row], l.payments);
  }

  lemma {:induction false} PostDraftKeepsBooks(l: Ledger, row: nat)
    requires SeriesPrefix(l.prefix) && Names(l) && Records(l) && Books(l) && row < |l.invoices| && l.invoices[row].status.Draft?
    ensures Books(PostDraft(l, row).0)
  {
    var l0 := l.(failPost := None);
    assert Books(l0) && Names(l0) && Records(l0) by {
      SameNamesKeepNames(l, l0);
      SameRecords(l, l0);
    }
    match l.failPost
    case Some(RejectPost) =>
    case Some(LosePost) =>
      PostedRowKeepsBooks(l0, row);
      UncertainKeepsBooks(AssignOfficial(l0, row), row, true);
    case Some(DropPost) => UncertainKeepsBooks(l0, row, true);
    case None => PostedRowKeepsBooks(l0, row);
  }

  lemma {:induction false} PostKeepsBooks(l: Ledger, reference: string)
    requires SeriesPrefix(l.prefix) && Names(l) && Records(l) && Books(l)
    ensures Books(PostStep(l, reference).0)
  {
    if PostStep(l, reference).0 != l {
      PostDraftKeepsBooks(l, PostTarget(l, reference).value);
    }
  }

  lemma {:induction false} CreateKeepsBooks(l: Ledger, c: DraftCommand)
    requires Books(l)
    ensures Books(CreateStep(l, c).0)
  {
    if GoodDraft(c) {
      TotalPositive(c.lines, c.lines[0].currency);
    }
  }

  lemma {:induction false} RecordKeepsBooks(l: Ledger, c: PaymentCommand)
    requires SeriesPrefix(l.prefix) && Names(l) && Books(l)
    ensures Books(RecordStep(l, c).0)
  {
    if GoodPayment(l, c) && l.failPayment != Some(RejectPayment) {
      RecordForm(l, c);
      SameNamesKeepNames(l, l.(failPayment := None));
      ApplyKeepsBooks(l.(failPayment := None), RowOf(l, c.invoiceRef).value, c, l.failPayment == Some(LosePayment));
    } else {
      assert RecordStep(l, c).0 == l || RecordStep(l, c).0 == l.(failPayment := None);
    }
  }

  lemma {:induction false} ReverseKeepsBooks(l: Ledger, reference: string, reason: string)
    requires SeriesPrefix(l.prefix) && Names(l) && Records(l) && Books(l)
    ensures Books(ReverseStep(l, reference, reason).0)
  {
    var r := Reversible(l, reference, reason);
    if r.Some? {
      assert Placed(l, l.payments[r.value.0]) && RowNamed(l, r.value.1);
      ReversalKeepsBooks(l, r.value.0, r.value.1);
    }
  }

  lemma {:induction false} ReconcileKeepsBooks(l: Ledger, evidence: string)
    requires Books(l)
    ensures Books(ReconcilePaymentStep(l, evidence).0)
  {
    var l' := ReconcilePaymentStep(l, evidence).0;
    if l' != l {
      var k := EvidenceRow(l.payments, evidence).value;
      forall official
        ensures Net(l'.payments, official) == Net(l.payments, official) && Standing(l'.payments, official) == Standing(l.payments, official)
      {
        Replaced(l.payments, k, l'.payments[k], official);
      }
      forall i | 0 <= i < |l.invoices| ensures Balanced(l.invoices[i], l'.payments) { assert Balanced(l.invoices[i], l.payments); }
    }
  }

  lemma {:induction false} DoKeepsBooks(l: Ledger, op: Op)
    requires SeriesPrefix(l.prefix) && Names(l) && Records(l) && Books(l)
    ensures Books(Do(l, op))
  {
    match op
    case Create(draft) => CreateKeepsBooks(l, draft);
    case Post(reference) => PostKeepsBooks(l, reference);
    case ReconcilePost(reference) =>
      if RowOf(l, reference).Some? {
        UncertainKeepsBooks(l, RowOf(l, reference).value, false);
      }
    case Record(payment) => RecordKeepsBooks(l, payment);
    case ReconcilePayment(evidence) => ReconcileKeepsBooks(l, evidence);
    case Reverse(reference, reason) => ReverseKeepsBooks(l, reference, reason);
    case Cancel(reference) => CancelKeepsBooks(l, reference);
    case _ =>
  }

  ghost predicate LedgerInv(l: Ledger) {
    SeriesPrefix(l.prefix) && Names(l) && Records(l) && Books(l)
  }

  lemma {:induction false} DoKeepsInv(l: Ledger, op: Op)
    requires LedgerInv(l)
    ensures LedgerInv(Do(l, op)) && Do(l, op).prefix == l.prefix
  {
    DoKeepsNames(l, op);
    DoKeepsRecords(l, op);
    DoKeepsBooks(l, op);
  }

  lemma {:induction false} RunKeepsInv(l: Ledger, ops: seq<Op>)
    requires LedgerInv(l)
    ensures LedgerInv(Run(l, ops)) && Run(l, ops).prefix == l.prefix
  {
    if ops != [] {
      RunKeepsInv(l, ops[..|ops| - 1]);
      DoKeepsInv(Run(l, ops[..|ops| - 1]), ops[|ops| - 1]);
    }
  }

  // In every reachable state a posted invoice is still owed its total less the sum of all its records, between
  // zero and the total, and is paid exactly when nothing is owed; a cancelled one has records that add up to zero.
  lemma {:induction false} Conservation(prefix: string, first: nat, ops: seq<Op>, i: nat)
    requires SeriesPrefix(prefix) && i < |Run(NewLedger(prefix, first), ops).invoices|
    ensures var l := Run(NewLedger(prefix, first), ops); var invoice := l.invoices[i];
      && (invoice.status.Posted? ==>
            && invoice.officialRef.Some? && invoice.open + Net(l.payments, invoice.officialRef.value) == invoice.total
            && 0.0 <= invoice.open <= invoice.total && (invoice.paid <==> invoice.open == 0.0))
      && (invoice.status.Cancelled? ==>
            invoice.open == 0.0 && (invoice.officialRef.Some? ==> Net(l.payments, invoice.officialRef.value) == 0.0))
      && (invoice.status.Draft? ==> invoice.open == invoice.total)
  {
    RunKeepsInv(NewLedger(prefix, first), ops);
    var l := Run(NewLedger(prefix, first), ops);
    var official := l.invoices[i].officialRef;
    assert Balanced(l.invoices[i], l.payments);
    if official.Some? {
      StandingNotNegative(l.payments, official.value);
      assert Net(l.payments, official.value) == Standing(l.payments, official.value);
    }
  }

  // In every reachable state the reserved evidence is exactly what the records carry, and every reference is
  // carried by one record: an ordinary payment, or the reversal of one.
  lemma {:induction false} EvidenceCountsOnce(prefix: string, first: nat, ops: seq<Op>)
    requires SeriesPrefix(prefix)
    ensures var l := Run(NewLedger(prefix, first), ops);
      && (forall j, k :: 0 <= j < |l.payments| && 0 <= k < |l.payments| && l.payments[j].evidence == l.payments[k].evidence ==> j == k)
      && (forall e :: e in l.evidence <==> exists k :: 0 <= k < |l.payments| && l.payments[k].evidence == e)
  {
    RunKeepsInv(NewLedger(prefix, first), ops);
    var l := Run(NewLedger(prefix, first), ops);
    forall e | e in l.evidence
      ensures exists k :: 0 <= k < |l.payments| && l.payments[k].evidence == e
    {
      var k := EvidenceRow(l.payments, e).value;
      assert l.payments[k].evidence == e;
    }
  }
}
