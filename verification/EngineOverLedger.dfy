/**
  The reconciliation engine with the fixture as its provider (src/reconciliation/engine.py:145-161 over
  src/adapters/fixture/erp.py): what a classification says about the provider's books at that moment.
 */
module EngineOverLedger {
  import opened Wrappers
  import opened References
  import Q = ReconciliationQueue
  import QR = QueueRuns
  import E = ReconciliationEngine
  import opened ErpLedger
  import opened LedgerRuns
  import opened LedgerBalance
  import opened LedgerQuery

  // What the fixture does when the engine asks about the anchor of an item.
  function PostReply(r: Answer<PostAnswer>): E.Reply<E.PostAnswer> {
    match r
    case Rejected => E.Rejects
    case Uncertain => E.Fails
    case Ok(PostedAs(Some(reference))) => E.Answers(E.Posted(reference))
    case Ok(PostedAs(None)) => E.Answers(E.Posted(""))
    case Ok(_) => E.Answers(E.NotPosted)
  }

  function IndexReply(r: Answer<seq<string>>): E.Reply<set<string>> {
    match r
    case Rejected => E.Rejects
    case Uncertain => E.Fails
    case Ok(refs) => E.Answers(AsSet(refs))
  }

  function PaymentReply(r: Answer<Payment>): E.Reply<string> {
    match r
    case Rejected => E.Rejects
    case Uncertain => E.Fails
    case Ok(record) => E.Answers(record.reference)
  }

  function ProviderOf(l: Ledger, anchor: string): E.Provider {
    var (l1, posted) := ReconcilePostStep(l, anchor);
    E.Provider(PostReply(posted), IndexReply(QueryInvoices(l1, Some(Posted), None, None)),
               PaymentReply(ReconcilePaymentStep(l, anchor).1), E.Answers(!l.outage))
  }

  // Reading back clears the uncertain mark.
  function ReadBack(l: Ledger, kind: string, anchor: string): Ledger {
    if kind == E.INVOICE_POST then Do(l, ReconcilePost(anchor))
    else if kind == E.PAYMENT_RECORD then Do(l, ReconcilePayment(anchor))
    else l
  }

  datatype World = World(queue: Q.Queue, ledger: Ledger)

  // One call of classify_next.
  function ClassifyNext(env: Q.Env, w: World, max: nat, token: int, now: int): (World, E.Outcome) {
    var oldest := Q.Oldest(w.queue.items, w.queue.order);
    if oldest.None? || oldest.value !in w.queue.items then (w, E.Answered(Q.Nothing))
    else
      var item := w.queue.items[oldest.value];
      var (q, outcome) := E.ClassifyNextStep(env, w.queue, max, token, ProviderOf(w.ledger, item.anchor), now);
      (World(q, ReadBack(w.ledger, item.kind, item.anchor)), outcome)
  }

  // The books

  // The handle stands for an invoice posted under this number.
  predicate PostedUnder(l: Ledger, handle: string, official: string) {
    RowOf(l, handle).Some? && var invoice := l.invoices[RowOf(l, handle).value]; invoice.status.Posted? && invoice.officialRef == Some(official)
  }

  // The handle stands for an invoice that is not posted.
  predicate NotPostedYet(l: Ledger, handle: string) {
    RowOf(l, handle).Some? && !l.invoices[RowOf(l, handle).value].status.Posted?
  }

  predicate RecordedAs(l: Ledger, evidence: string, reference: string) {
    exists k :: 0 <= k < |l.payments| && l.payments[k].evidence == evidence && l.payments[k].reference == reference
  }

  predicate NoRecord(l: Ledger, evidence: string) {
    forall k :: 0 <= k < |l.payments| ==> l.payments[k].evidence != evidence
  }

  lemma {:induction false} OfficialIsText(l: Ledger, i: nat)
    requires Names(l) && i < |l.invoices| && l.invoices[i].officialRef.Some?
    ensures l.invoices[i].officialRef != Some("")
  {
    assert RowNamed(l, i);
    var k :| 0 <= k < |l.issued| && l.issued[k] == i;
    assert NumberGiven(l, k);
    assert |OfficialOf(l, k)| >= 1;
  }

  // Every posted invoice is in the index under its number.
  lemma {:induction false} PostedIsIndexed(l: Ledger, i: nat)
    requires Names(l) && i < |l.invoices| && l.invoices[i].status.Posted?
    ensures l.invoices[i].officialRef.Some? && l.invoices[i].officialRef.value in AsSet(Query(l, l.order, Some(Posted), None, None))
  {
    assert RowNamed(l, i);
    NamesAreReferable(l);
    QueryFinds(l, l.order, None, None);
    var h := Handle(l.invoices[i]);
    assert RowOf(l, h) == Some(i) && h in l.order;
    var found := Query(l, l.order, Some(Posted), None, None);
    assert h in found;
    var k :| 0 <= k < |found| && found[k] == h;
  }

  lemma {:induction false} ReconcileKeepsNames(l: Ledger, handle: string)
    requires Names(l)
    ensures var l1 := ReconcilePostStep(l, handle).0;
      && Names(l1) && l1.outage == l.outage && |l1.invoices| == |l.invoices| && l1.handles == l.handles
      && forall i :: 0 <= i < |l.invoices| ==> l1.invoices[i].status == l.invoices[i].status && l1.invoices[i].officialRef == l.invoices[i].officialRef
  {
    var l1 := ReconcilePostStep(l, handle).0;
    SameNamesKeepNames(l, l1);
  }

  // What the engine makes of an invoice: PRESENT with a number exactly if the provider answers and the handle stands for
  // an invoice posted under it; ABSENT exactly if it stands for one that is not posted; otherwise the read-back is
  // rejected. The index never contradicts the books.
  lemma {:induction false} PostMeetsBooks(l: Ledger, handle: string)
    requires Names(l)
    ensures var v := E.Classify(E.INVOICE_POST, ProviderOf(l, handle));
      && (forall r :: v == E.Classified(Q.Present, Some(r)) <==> !l.outage && PostedUnder(l, handle, r))
      && (v == E.Classified(Q.Absent, None) <==> NotPostedYet(l, handle))
      && (v.ReadBackRejected? <==> RowOf(l, handle).None? || (l.outage && !NotPostedYet(l, handle)))
      && !v.Escapes? && !v.UnknownKind? && (v.Classified? ==> v.classification.Present? || v.classification.Absent?)
      && (v.Classified? && v.classification.Present? ==> v.reference.Some?)
  {
    var l1 := ReconcilePostStep(l, handle).0;
    ReconcileKeepsNames(l, handle);
    if RowOf(l, handle).Some? {
      var i := RowOf(l, handle).value;
      assert RowNamed(l, i);
      if l.invoices[i].status.Posted? {
        OfficialIsText(l, i);
        PostedIsIndexed(l1, i);
      }
    }
  }

  // And of a payment: PRESENT with a reference exactly if a record under it carries the evidence, ABSENT exactly if none
  // does; an outage makes no difference.
  lemma {:induction false} PaymentMeetsBooks(l: Ledger, evidence: string)
    requires Records(l)
    ensures var v := E.Classify(E.PAYMENT_RECORD, ProviderOf(l, evidence));
      && (forall r :: v == E.Classified(Q.Present, Some(r)) <==> RecordedAs(l, evidence, r))
      && (v == E.Classified(Q.Absent, None) <==> NoRecord(l, evidence))
      && v.Classified? && (v.classification.Present? || v.classification.Absent?)
      && (v.classification.Present? ==> v.reference.Some?)
  {
    if evidence in l.evidence {
      var k := EvidenceRow(l.payments, evidence).value;
      assert l.payments[k].evidence == evidence;
      forall j | 0 <= j < |l.payments| && l.payments[j].evidence == evidence ensures j == k { }
    } else {
      forall k | 0 <= k < |l.payments| ensures l.payments[k].evidence != evidence { }
    }
  }

  // The books the engine answers from are not changed by its asking, except for the mark of uncertainty.
  ghost predicate SameBooks(l: Ledger, l': Ledger) {
    && (forall h, r :: PostedUnder(l', h, r) <==> PostedUnder(l, h, r)) && (forall h :: NotPostedYet(l', h) <==> NotPostedYet(l, h))
    && (forall e, r :: RecordedAs(l', e, r) <==> RecordedAs(l, e, r)) && (forall e :: NoRecord(l', e) <==> NoRecord(l, e))
  }

  lemma {:induction false} SameInvoices(l: Ledger, l': Ledger)
    requires l'.payments == l.payments && l'.handles == l.handles && |l'.invoices| == |l.invoices|
    requires forall i :: 0 <= i < |l.invoices| ==> l'.invoices[i].status == l.invoices[i].status && l'.invoices[i].officialRef == l.invoices[i].officialRef
    ensures SameBooks(l, l')
  {
  }

  lemma {:induction false} SameRecords(l: Ledger, l': Ledger)
    requires |l'.payments| == |l.payments| && l'.invoices == l.invoices && l'.handles == l.handles
    requires forall k :: 0 <= k < |l.payments| ==> l'.payments[k].evidence == l.payments[k].evidence && l'.payments[k].reference == l.payments[k].reference
    ensures SameBooks(l, l')
  {
  }

  lemma {:induction false} PostKeepsBooks(l: Ledger, handle: string)
    requires Names(l)
    ensures SameBooks(l, Do(l, ReconcilePost(handle)))
  {
    ReconcileKeepsNames(l, handle);
    SameInvoices(l, Do(l, ReconcilePost(handle)));
  }

  lemma {:induction false} SettledRecords(l: Ledger, evidence: string)
    ensures var l' := ReconcilePaymentStep(l, evidence).0;
      && |l'.payments| == |l.payments| && l'.invoices == l.invoices && l'.handles == l.handles
      && forall k :: 0 <= k < |l.payments| ==> l'.payments[k].evidence == l.payments[k].evidence && l'.payments[k].reference == l.payments[k].reference
  {
  }

  lemma {:induction false} PaymentKeepsBooks(l: Ledger, evidence: string)
    ensures SameBooks(l, Do(l, ReconcilePayment(evidence)))
  {
    SettledRecords(l, evidence);
    SameRecords(l, Do(l, ReconcilePayment(evidence)));
  }

  lemma {:induction false} ReadBackKeepsBooks(l: Ledger, kind: string, anchor: string)
    requires LedgerInv(l)
    ensures LedgerInv(ReadBack(l, kind, anchor)) && SameBooks(l, ReadBack(l, kind, anchor))
  {
    if kind == E.INVOICE_POST {
      DoKeepsInv(l, ReconcilePost(anchor));
      PostKeepsBooks(l, anchor);
    } else if kind == E.PAYMENT_RECORD {
      DoKeepsInv(l, ReconcilePayment(anchor));
      PaymentKeepsBooks(l, anchor);
    }
  }

  // The provider has a document for the item, or none, at this moment.
  predicate Documented(l: Ledger, kind: string, anchor: string, reference: string) {
    if kind == E.INVOICE_POST then PostedUnder(l, anchor, reference) else kind == E.PAYMENT_RECORD && RecordedAs(l, anchor, reference)
  }

  predicate Undocumented(l: Ledger, kind: string, anchor: string) {
    if kind == E.INVOICE_POST then NotPostedYet(l, anchor) else kind == E.PAYMENT_RECORD && NoRecord(l, anchor)
  }

  // A posted invoice can be confirmed only while the provider is reachable, a payment always.
  predicate Confirmable(l: Ledger, kind: string) {
    kind == E.PAYMENT_RECORD || !l.outage
  }

  lemma {:induction false} ReadsBooks(l: Ledger, kind: string, anchor: string)
    requires LedgerInv(l)
    ensures var p := ProviderOf(l, anchor); var v := E.Classify(kind, p);
      && !E.Throws(kind, p) && (E.Lacks(kind, p) <==> Undocumented(l, kind, anchor))
      && (forall r :: v == E.Classified(Q.Present, Some(r)) <==> Confirmable(l, kind) && Documented(l, kind, anchor, r))
      && (v == E.Classified(Q.Absent, None) <==> Undocumented(l, kind, anchor))
      && (v.Classified? ==> (v.classification.Present? && v.reference.Some?) || v == E.Classified(Q.Absent, None))
  {
    if kind == E.INVOICE_POST {
      PostMeetsBooks(l, anchor);
    } else if kind == E.PAYMENT_RECORD {
      PaymentMeetsBooks(l, anchor);
    }
  }

  // A completed item tells what the books say: it is RESOLVED exactly if the provider can confirm a document, and names it;
  // SAFE_RETRYABLE exactly if there is none; and else escalated, or requeued during an outage.
  ghost predicate Tells(l: Ledger, item: Q.Item, done: Q.Item) {
    && (done.status.Resolved? <==> Confirmable(l, item.kind) && exists r :: Documented(l, item.kind, item.anchor, r))
    && (done.status.Resolved? ==> done.resolution.Some? && Documented(l, item.kind, item.anchor, done.resolution.value))
    && (done.status.SafeRetryable? <==> Undocumented(l, item.kind, item.anchor))
    && (done.status.Resolved? || done.status.SafeRetryable? || done.status.Escalated? || (done.status.Pending? && l.outage))
  }

  // What the completion leaves of an item that is served.
  lemma {:induction false} SettledTells(l: Ledger, item: Q.Item, max: nat, token: int, now: int)
    requires LedgerInv(l) && E.Served(item, token, ProviderOf(l, item.anchor))
    ensures var p := ProviderOf(l, item.anchor); var c := E.Complete(E.Classify(item.kind, p), p, item.attempts, max);
      c.Some? && !E.Settled(item, c.value, token, now).status.Classifying? && Tells(l, item, E.Settled(item, c.value, token, now))
  {
    var p := ProviderOf(l, item.anchor);
    var v := E.Classify(item.kind, p);
    ReadsBooks(l, item.kind, item.anchor);
    if r :| Confirmable(l, item.kind) && Documented(l, item.kind, item.anchor, r) {
      assert v == E.Classified(Q.Present, Some(r));
    }
    if v.Classified? && v.classification.Present? {
      assert v == E.Classified(Q.Present, Some(v.reference.value));
    }
  }

  // The item after one call of the engine that claims it.
  lemma {:induction false} ItemAfter(env: Q.Env, q: Q.Queue, l: Ledger, max: nat, token: int, now: int, id: string)
    requires QR.Shape(q) && LedgerInv(l) && Q.Oldest(q.items, q.order) == Some(id)
    ensures id in q.items
    ensures var item := q.items[id]; var (q', outcome) := E.ClassifyNextStep(env, q, max, token, ProviderOf(l, item.anchor), now);
      && id in q'.items && !outcome.Escaped?
      && (q'.items[id].status.Classifying? <==>
            !E.KnownKind(item.kind) || token <= 0 || (Undocumented(l, item.kind, item.anchor) && item.escalatedFrom == Some(Q.Ambiguous)))
      && (!q'.items[id].status.Classifying? ==> outcome == E.Answered(Q.Ok(q'.items[id])) && Tells(l, item, q'.items[id]))
  {
    QR.OldestIsOldest(q.items, q.order);
    var item := q.items[id];
    var p := ProviderOf(l, item.anchor);
    ReadsBooks(l, item.kind, item.anchor);
    E.StuckExactly(env, q, max, token, p, now, id);
    E.ClassifyNextForm(env, q, max, token, p, now, id);
    if E.Served(item, token, p) {
      SettledTells(l, item, max, token, now);
    }
  }

  // One classification of the oldest pending item, over sound books: no exception of the provider escapes; the item is
  // stranded exactly for an unknown kind, a token that is not positive, or a missing document last escalated as
  // AMBIGUOUS, and otherwise tells what the books say; and the books stay as they are.
  lemma {:induction false} EngineMeetsBooks(env: Q.Env, w: World, max: nat, token: int, now: int, id: string)
    requires QR.Shape(w.queue) && LedgerInv(w.ledger) && Q.Oldest(w.queue.items, w.queue.order) == Some(id)
    ensures id in w.queue.items
    ensures var item := w.queue.items[id]; var (w', outcome) := ClassifyNext(env, w, max, token, now); var l := w.ledger;
      && id in w'.queue.items && !outcome.Escaped?
      && (w'.queue.items[id].status.Classifying? <==>
            !E.KnownKind(item.kind) || token <= 0 || (Undocumented(l, item.kind, item.anchor) && item.escalatedFrom == Some(Q.Ambiguous)))
      && (!w'.queue.items[id].status.Classifying? ==> outcome == E.Answered(Q.Ok(w'.queue.items[id])) && Tells(l, item, w'.queue.items[id]))
      && LedgerInv(w'.ledger) && SameBooks(l, w'.ledger)
  {
    ItemAfter(env, w.queue, w.ledger, max, token, now, id);
    ReadBackKeepsBooks(w.ledger, w.queue.items[id].kind, w.queue.items[id].anchor);
  }

  // The number an item was resolved with stays that of its invoice through everything that happens at the provider.
  lemma {:induction false} ResolvedNumberStays(l: Ledger, handle: string, official: string, ops: seq<Op>)
    requires LedgerInv(l) && PostedUnder(l, handle, official)
    ensures var l' := Run(l, ops); RowOf(l', handle) == RowOf(l, handle) && l'.invoices[RowOf(l, handle).value].officialRef == Some(official)
  {
    NumbersAreForever(l, ops);
    var i := RowOf(l, handle).value;
    assert Settled(l.invoices[i], Run(l, ops).invoices[i]);
  }
}
