/**
  The payment workflow in place: its dictionaries and sets, the adapter it pays through and the operator
  queue it reports to. The provider may become unreachable, or reachable again, between the calls a method
  makes to it.
 */
module PaymentWorkflow {
  import opened Wrappers
  import opened References
  import Q = ReconciliationQueue
  import opened ErpLedger
  import opened ErpAdapter
  import opened PaymentFlow

  class Workflow {
    const adapter: FixtureErpAdapter
    const queue: Q.OperatorQueue
    var claims: map<Scope, Claim>
    var order: seq<Scope>
    var byEvidence: map<string, string>
    var pending: set<string>
    var reversed: set<string>

    constructor (adapter: FixtureErpAdapter, queue: Q.OperatorQueue)
      requires adapter.Valid() && queue.Valid()
      ensures Valid() && this.adapter == adapter && this.queue == queue
      ensures Model() == World(adapter.ledger, queue.Model(), Flow(map[], [], map[], {}, {}))
    {
      this.adapter, this.queue := adapter, queue;
      claims, order, byEvidence, pending, reversed := map[], [], map[], {}, {};
    }

    ghost predicate Valid()
      reads this, adapter, adapter.rows, queue, queue.audit
    {
      adapter.Valid() && queue.Valid()
    }

    function FlowModel(): Flow
      reads this
    {
      Flow(claims, order, byEvidence, pending, reversed)
    }

    ghost function Model(): World
      reads this, adapter, queue, queue.audit
    {
      World(adapter.ledger, queue.Model(), FlowModel())
    }

    // Recording

    method SetClaim(s: Scope, c: Claim)
      modifies this
      ensures FlowModel() == PutClaim(old(FlowModel()), s, c)
    {
      order := if s in claims then order else order + [s];
      claims := claims[s := c];
    }

    method LeaveUnsettled(a: Ask, reference: Option<string>, reply: Reply) returns (r: Reply)
      requires Valid()
      modifies this, queue, queue.audit
      ensures Valid() && (Model(), r) == Unsettled(queue.env, old(Model()), a, reference, reply)
    {
      var s := ScopeOf(a);
      SetClaim(s, Claim(a.payload, Unclear, reference, Some(a.payload.invoiceRef)));
      pending := pending + {a.payload.evidence};
      var answer := queue.Enqueue(IntentOf(s), KIND, a.payload.evidence, a.now);
      return if answer.Ok? then reply else Raised;
    }

    method MarkRecorded(a: Ask, reference: string)
      modifies this
      ensures var f := PutClaim(old(FlowModel()), ScopeOf(a), Claim(a.payload, Recorded, Some(reference), None));
        FlowModel() == f.(byEvidence := f.byEvidence[a.payload.evidence := reference])
    {
      SetClaim(ScopeOf(a), Claim(a.payload, Recorded, Some(reference), None));
      byEvidence := byEvidence[a.payload.evidence := reference];
    }

    method ConcludeReadBack(a: Ask, reference: string, record: Answer<Payment>, invoice: Answer<Invoice>) returns (r: Reply)
      requires Valid()
      modifies this, queue, queue.audit
      ensures Valid() && (Model(), r) == ReadBack(queue.env, old(Model()), a, reference, record, invoice)
    {
      if !record.Ok? || !invoice.Ok? {
        r := LeaveUnsettled(a, Some(reference), Blocked);
      } else if record.value.evidence != a.payload.evidence || record.value.invoiceRef != a.payload.invoiceRef {
        r := LeaveUnsettled(a, Some(reference), Blocked);
      } else {
        MarkRecorded(a, reference);
        r := RecordedAs(Some(reference), Receivable(invoice.value));
      }
    }

    method ConcludeRecord(a: Ask, answer: Answer<string>, outage: bool) returns (r: Reply)
      requires Valid()
      modifies this, adapter, queue, queue.audit
      ensures Valid() && (Model(), r) == AfterRecord(queue.env, old(Model()), a, answer, outage)
    {
      match answer
      case Uncertain =>
        r := LeaveUnsettled(a, None, StillUnclear);
      case Rejected =>
        SetClaim(ScopeOf(a), Claim(a.payload, Refused, None, None));
        r := Blocked;
      case Ok(reference) =>
        adapter.SimulateOutage(outage);
        var record := adapter.ReadPaymentRecord(reference);
        var invoice := adapter.ReadInvoiceRecord(a.payload.invoiceRef);
        r := ConcludeReadBack(a, reference, record, invoice);
    }

    method AttemptPayment(a: Ask, o: Weather) returns (r: Reply)
      requires Valid()
      modifies this, adapter, adapter.rows, queue, queue.audit
      ensures Valid() && (Model(), r) == Attempt(queue.env, old(Model()), a, o)
    {
      SetClaim(ScopeOf(a), Claim(a.payload, Pending, None, None));
      adapter.SimulateOutage(o.write);
      var answer := adapter.RecordPayment(CommandOf(a.payload));
      r := ConcludeRecord(a, answer, o.readBack);
    }

    // A repeated request: the receivable is read anew.
    method AnswerAgain(a: Ask, reference: Option<string>, unavailable: bool) returns (r: Reply)
      requires Valid()
      modifies this, adapter, adapter.rows, queue, queue.audit
      ensures Valid()
      ensures var w := old(Model()); var l := Under(w.ledger, unavailable);
        (Model(), r) == Replayed(w.(ledger := l), a, reference, ReadInvoice(l, a.payload.invoiceRef))
    {
      adapter.SimulateOutage(unavailable);
      var again := adapter.ReadInvoiceRecord(a.payload.invoiceRef);
      return if again.Ok? then RecordedAs(reference, Receivable(again.value)) else Blocked;
    }

    method ConsiderPayment(a: Ask, invoice: Invoice, o: Weather) returns (r: Reply)
      requires Valid() && a.payload.amount.value.Some?
      modifies this, adapter, adapter.rows, queue, queue.audit
      ensures Valid() && (Model(), r) == AfterRead(queue.env, old(Model()), a, invoice, o)
    {
      if !GoodInvoice(invoice, a) {
        return Blocked;
      }
      match ClaimVerdict(FlowModel(), a)
      case Stop =>
        return Blocked;
      case Replay(reference) =>
        r := AnswerAgain(a, reference, o.readBack);
      case Go =>
        if Overpays(invoice, a) || EvidenceTaken(FlowModel(), a) {
          return Blocked;
        }
        r := AttemptPayment(a, o);
    }

    method RecordPayment(a: Ask, o: Weather) returns (r: Reply)
      requires Valid()
      modifies this, adapter, adapter.rows, queue, queue.audit
      ensures Valid() && (Model(), r) == RecordFlow(queue.env, old(Model()), a, o)
    {
      if !a.wellFormed || !StartsWith(a.payload.evidence, "EVI-") || !StartsWith(a.payload.invoiceRef, "INV-") {
        return Blocked;
      }
      if a.payload.amount.value.None? || a.payload.amount.value.value <= 0.0 || a.payload.evidence in pending {
        return Blocked;
      }
      adapter.SimulateOutage(o.read);
      var read := adapter.ReadInvoiceRecord(a.payload.invoiceRef);
      if !read.Ok? {
        return Blocked;
      }
      r := ConsiderPayment(a, read.value, o);
    }

    // Reconciling

    method FindAnchor(evidence: string, actor: string) returns (invoiceRef: Option<string>)
      ensures invoiceRef == Anchor(FlowModel(), evidence, actor)
    {
      var so := Looking(None, []);
      var i := 0;
      while i < |order|
        invariant 0 <= i <= |order| && so == SearchClaims(FlowModel(), order[..i], evidence, actor)
      {
        assert order[..i + 1][..i] == order[..i];
        so := Look(FlowModel(), order[i], evidence, actor, so);
        i := i + 1;
      }
      assert order[..i] == order;
      return AnchorOf(so);
    }

    method SweepUnit(unit: string, outcome: Outcome, reference: Option<string>)
      requires Valid()
      modifies this
      ensures Valid() && Model() == SweepFlow(old(Model()), unit, outcome, reference)
    {
      ghost var before := claims;
      var i := 0;
      while i < |order|
        invariant Valid() && 0 <= i <= |order|
        invariant claims == Sweep(adapter.ledger, before, order[..i], unit, outcome, reference)
        invariant FlowModel() == old(FlowModel()).(claims := claims)
      {
        assert order[..i + 1][..i] == order[..i];
        SweepOne(order[i], unit, outcome, reference);
        i := i + 1;
      }
      assert order[..i] == order;
    }

    method SweepOne(s: Scope, unit: string, outcome: Outcome, reference: Option<string>)
      requires Valid()
      modifies this`claims
      ensures claims == if s in old(claims) then old(claims)[s := SweepClaim(adapter.ledger, old(claims)[s], unit, outcome, reference)] else old(claims)
    {
      if s in claims {
        var fits := BelongsTo(claims[s], unit);
        claims := claims[s := if fits then Claim(claims[s].payload, outcome, reference, claims[s].invoiceRef) else claims[s]];
      }
    }

    method BelongsTo(c: Claim, unit: string) returns (fits: bool)
      requires Valid()
      ensures fits == Swept(adapter.ledger, c, unit)
    {
      if !c.outcome.Unclear? {
        return false;
      }
      if c.invoiceRef.None? {
        return true;
      }
      var read := adapter.ReadInvoiceRecord(c.invoiceRef.value);
      return read.Ok? && read.value.unit == unit;
    }

    // During an outage the sweep stops at the first unclear claim it would have to look up.
    method Interrupted() returns (stops: bool)
      requires Valid()
      ensures stops == (adapter.ledger.outage && AnyUnclear(FlowModel()))
    {
      return adapter.outage && exists s :: s in claims && claims[s].outcome.Unclear? && claims[s].invoiceRef.Some?;
    }

    method Confirm(evidence: string, unit: string, record: Payment, outage: bool) returns (r: Reply)
      requires Valid()
      modifies this, adapter
      ensures Valid() && (Model(), r) == Confirmed(old(Model()), evidence, unit, record, outage)
    {
      pending := pending - {evidence};
      adapter.SimulateOutage(outage);
      var stops := Interrupted();
      if stops {
        return Blocked;
      }
      r := ConfirmUnit(evidence, unit, record);
    }

    method ConfirmUnit(evidence: string, unit: string, record: Payment) returns (r: Reply)
      requires Valid()
      modifies this
      ensures Valid() && (Model(), r) == SettleUnit(old(Model()), evidence, unit, record)
    {
      SweepUnit(unit, Recorded, Some(record.reference));
      byEvidence := byEvidence[evidence := record.reference];
      var invoice := adapter.ReadInvoiceRecord(record.invoiceRef);
      return if invoice.Ok? then RecordedAs(Some(record.reference), Receivable(invoice.value)) else Blocked;
    }

    method Deny(evidence: string, unit: string, outage: bool) returns (r: Reply)
      requires Valid()
      modifies this, adapter
      ensures Valid() && (Model(), r) == Absent(old(Model()), evidence, unit, outage)
    {
      pending := pending - {evidence};
      adapter.SimulateOutage(outage);
      var stops := Interrupted();
      if stops {
        return Blocked;
      }
      SweepUnit(unit, Refused, None);
      return NoSuchPayment;
    }

    method ConcludeReconcile(evidence: string, unit: string, answer: Answer<Payment>, outage: bool) returns (r: Reply)
      requires Valid()
      modifies this, adapter
      ensures Valid() && (Model(), r) == AfterReconcile(old(Model()), evidence, unit, answer, outage)
    {
      match answer
      case Uncertain =>
        r := StillUnclear;
      case Rejected =>
        r := Deny(evidence, unit, outage);
      case Ok(record) =>
        r := Confirm(evidence, unit, record, outage);
    }

    method ReconcilePayment(evidence: string, actor: string, allowed: bool, o: Weather) returns (r: Reply)
      requires Valid()
      modifies this, adapter, adapter.rows
      ensures Valid() && (Model(), r) == ReconcileFlow(old(Model()), evidence, actor, allowed, o)
    {
      if evidence !in pending {
        return Blocked;
      }
      var anchor := FindAnchor(evidence, actor);
      if anchor.None? {
        return Blocked;
      }
      adapter.SimulateOutage(o.read);
      var read := adapter.ReadInvoiceRecord(anchor.value);
      if !read.Ok? || !allowed {
        return Blocked;
      }
      var answer := adapter.ReconcilePayment(evidence);
      r := ConcludeReconcile(evidence, read.value.unit, answer, o.readBack);
    }

    // Reversing

    method ConcludeReverse(reference: string, invoiceRef: string, answer: Answer<string>, outage: bool) returns (r: Reply)
      requires Valid()
      modifies this, adapter
      ensures Valid() && (Model(), r) == AfterReverse(old(Model()), reference, invoiceRef, answer, outage)
    {
      if !answer.Ok? {
        return Blocked;
      }
      reversed := reversed + {reference};
      adapter.SimulateOutage(outage);
      var invoice := adapter.ReadInvoiceRecord(invoiceRef);
      return if invoice.Ok? then RecordedAs(Some(answer.value), Receivable(invoice.value)) else Blocked;
    }

    method Undo(reference: string, reason: string, invoiceRef: string, o: Weather) returns (r: Reply)
      requires Valid()
      modifies this, adapter, adapter.rows
      ensures Valid() && (Model(), r) == ReverseAt(old(Model()), reference, reason, invoiceRef, o)
    {
      adapter.SimulateOutage(o.write);
      var answer := adapter.ReversePayment(reference, reason);
      r := ConcludeReverse(reference, invoiceRef, answer, o.readBack);
    }

    method ReversePayment(reference: string, reason: string, wellFormed: bool, allowed: bool, o: Weather) returns (r: Reply)
      requires Valid()
      modifies this, adapter, adapter.rows
      ensures Valid()
      ensures (Model(), r) == ReverseFlow(old(Model()), reference, reason, wellFormed, allowed, o)
    {
      if !wellFormed || !StartsWith(reference, "PAY-") || Blank(reason) {
        return Blocked;
      }
      adapter.SimulateOutage(o.read);
      var read := adapter.ReadPaymentRecord(reference);
      if !read.Ok? || read.value.reversalOf.Some? || reference in reversed {
        return Blocked;
      }
      var invoice := adapter.ReadInvoiceRecord(read.value.invoiceRef);
      if !invoice.Ok? || !allowed {
        return Blocked;
      }
      r := Undo(reference, reason, read.value.invoiceRef, o);
    }
  }
}
