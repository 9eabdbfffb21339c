/**
  What every run of the provider keeps: the handle dictionary, the gapless number series, evidence,
  and conservation of every invoice's open amount.
 */
module LedgerRuns {
  import opened Wrappers
  import opened References
  import opened ErpLedger

  datatype Op =
    | Create(draft: DraftCommand)
    | Post(reference: string)
    | ReconcilePost(reference: string)
    | Record(payment: PaymentCommand)
    | ReconcilePayment(evidence: string)
    | Reverse(reference: string, reason: string)
    | Cancel(reference: string)
    | FailNextPost(post: Option<PostFailure>)
    | FailNextPayment(lost: Option<PaymentFailure>)
    | SimulateOutage(unavailable: bool)

  function Do(l: Ledger, op: Op): Ledger {
    match op
    case Create(draft) => CreateStep(l, draft).0
    case Post(reference) => PostStep(l, reference).0
    case ReconcilePost(reference) => ReconcilePostStep(l, reference).0
    case Record(payment) => RecordStep(l, payment).0
    case ReconcilePayment(evidence) => ReconcilePaymentStep(l, evidence).0
    case Reverse(reference, reason) => ReverseStep(l, reference, reason).0
    case Cancel(reference) => CancelStep(l, reference).0
    case FailNextPost(post) => l.(failPost := post)
    case FailNextPayment(lost) => l.(failPayment := lost)
    case SimulateOutage(unavailable) => l.(outage := unavailable)
  }

  function Run(l: Ledger, ops: seq<Op>): Ledger {
    if ops == [] then l else Do(Run(l, ops[..|ops| - 1]), ops[|ops| - 1])
  }

  // A series prefix is an upper-case token; "DRAFT" is one that the program does not refuse.
  predicate SeriesPrefix(prefix: string) {
    '-' !in prefix && prefix != "DRAFT"
  }

  // Names: rows, the number series, handles

  function OfficialOf(l: Ledger, k: nat): string {
    Tag(l.prefix, l.first + k)
  }

  predicate RowNamed(l: Ledger, i: nat)
    requires i < |l.invoices|
  {
    var invoice := l.invoices[i];
    && invoice.draftRef == Tag("DRAFT", i + 1)
    && invoice.draftRef in l.handles && l.handles[invoice.draftRef] == i
    && (invoice.officialRef.Some? ==>
          i in l.issued && invoice.officialRef.value in l.handles && l.handles[invoice.officialRef.value] == i)
    && (invoice.status.Draft? ==> invoice.officialRef.None?)
    && (invoice.status.Posted? ==> invoice.officialRef.Some?)
  }

  predicate NumberGiven(l: Ledger, k: nat)
    requires k < |l.issued|
  {
    l.issued[k] < |l.invoices| && l.invoices[l.issued[k]].officialRef == Some(OfficialOf(l, k))
  }

  predicate HandleNamed(l: Ledger, h: string)
    requires h in l.handles
  {
    && l.handles[h] < |l.invoices|
    && (h == l.invoices[l.handles[h]].draftRef || Some(h) == l.invoices[l.handles[h]].officialRef)
  }

  ghost predicate Names(l: Ledger) {
    && l.draftSequence == |l.invoices| + 1 && l.sequence == l.first + |l.issued|
    && (forall i :: 0 <= i < |l.invoices| ==> RowNamed(l, i))
    && (forall k :: 0 <= k < |l.issued| ==> NumberGiven(l, k))
    && (forall h :: h in l.handles ==> HandleNamed(l, h))
    && (forall h :: h in l.handles <==> h in l.order)
  }

  // A reference of a form the provider has not issued yet is no handle.
  lemma {:induction false} NewDraftIsFresh(l: Ledger)
    requires SeriesPrefix(l.prefix) && Names(l)
    ensures Tag("DRAFT", l.draftSequence) !in l.handles
  {
    var h := Tag("DRAFT", l.draftSequence);
    if h in l.handles {
      var i := l.handles[h];
      assert HandleNamed(l, h) && RowNamed(l, i);
      if h == l.invoices[i].draftRef {
        TagInjective("DRAFT", l.draftSequence, "DRAFT", i + 1);
      } else {
        var k :| 0 <= k < |l.issued| && l.issued[k] == i;
        assert NumberGiven(l, k);
        TagInjective("DRAFT", l.draftSequence, l.prefix, l.first + k);
      }
    }
  }

  lemma {:induction false} NewOfficialIsFresh(l: Ledger)
    requires SeriesPrefix(l.prefix) && Names(l)
    ensures Tag(l.prefix, l.sequence) !in l.handles
  {
    var h := Tag(l.prefix, l.sequence);
    if h in l.handles {
      var i := l.handles[h];
      assert HandleNamed(l, h) && RowNamed(l, i);
      if h == l.invoices[i].draftRef {
        TagInjective(l.prefix, l.sequence, "DRAFT", i + 1);
      } else {
        var k :| 0 <= k < |l.issued| && l.issued[k] == i;
        assert NumberGiven(l, k);
        TagInjective(l.prefix, l.sequence, l.prefix, l.first + k);
      }
    }
  }

  // The ledger after a change that touches no name.
  predicate SameNames(l: Ledger, l': Ledger) {
    && l'.prefix == l.prefix && l'.first == l.first && l'.sequence == l.sequence && l'.draftSequence == l.draftSequence
    && l'.handles == l.handles && l'.order == l.order && l'.issued == l.issued
    && |l'.invoices| == |l.invoices|
    && forall i :: 0 <= i < |l.invoices| ==>
         && l'.invoices[i].draftRef == l.invoices[i].draftRef && l'.invoices[i].officialRef == l.invoices[i].officialRef
         && (l'.invoices[i].status == l.invoices[i].status || l'.invoices[i].status.Cancelled?)
  }

  lemma {:induction false} SameNamesKeepNames(l: Ledger, l': Ledger)
    requires Names(l) && SameNames(l, l')
    ensures Names(l')
  {
    forall i | 0 <= i < |l'.invoices| ensures RowNamed(l', i) { assert RowNamed(l, i); }
    forall k | 0 <= k < |l'.issued| ensures NumberGiven(l', k) { assert NumberGiven(l, k); }
    forall h | h in l'.handles ensures HandleNamed(l', h) { assert HandleNamed(l, h); }
  }

  lemma {:induction false} CreateKeepsNames(l: Ledger, c: DraftCommand)
    requires SeriesPrefix(l.prefix) && Names(l)
    ensures Names(CreateStep(l, c).0)
  {
    var l' := CreateStep(l, c).0;
    if l' != l {
      NewDraftIsFresh(l);
      forall i | 0 <= i < |l'.invoices| ensures RowNamed(l', i) {
        if i < |l.invoices| { assert RowNamed(l, i); }
      }
      forall k | 0 <= k < |l'.issued| ensures NumberGiven(l', k) { assert NumberGiven(l, k); }
      forall h | h in l'.handles ensures HandleNamed(l', h) {
        if h in l.handles { assert HandleNamed(l, h); }
      }
    }
  }

  lemma {:induction false} AssignKeepsNames(l: Ledger, row: nat)
    requires SeriesPrefix(l.prefix) && Names(l) && row < |l.invoices| && l.invoices[row].officialRef.None?
    ensures Names(AssignOfficial(l, row))
  {
    var l' := AssignOfficial(l, row);
    NewOfficialIsFresh(l);
    assert l'.issued[|l.issued|] == row;
    forall i | 0 <= i < |l'.invoices| ensures RowNamed(l', i) {
      assert RowNamed(l, i);
      assert i in l.issued ==> i in l'.issued;
    }
    forall k | 0 <= k < |l'.issued| ensures NumberGiven(l', k) {
      if k < |l.issued| {
        assert NumberGiven(l, k);
        assert l'.issued[k] == l.issued[k] && l.issued[k] != row;
      }
    }
    forall h | h in l'.handles ensures HandleNamed(l', h) {
      if h in l.handles { assert HandleNamed(l, h); }
    }
  }

  lemma {:induction false} MarkKeepsNames(l: Ledger, row: nat, uncertain: bool)
    requires Names(l) && row < |l.invoices|
    ensures Names(MarkUncertain(l, row, uncertain))
  {
    SameNamesKeepNames(l, MarkUncertain(l, row, uncertain));
  }

  lemma {:induction false} PostDraftKeepsNames(l: Ledger, row: nat)
    requires SeriesPrefix(l.prefix) && Names(l) && row < |l.invoices| && l.invoices[row].status.Draft?
    ensures Names(PostDraft(l, row).0)
  {
    var l0 := l.(failPost := None);
    SameNamesKeepNames(l, l0);
    assert RowNamed(l, row);
    match l.failPost
    case Some(RejectPost) =>
    case Some(LosePost) =>
      AssignKeepsNames(l0, row);
      MarkKeepsNames(AssignOfficial(l0, row), row, true);
    case Some(DropPost) => MarkKeepsNames(l0, row, true);
    case None => AssignKeepsNames(l0, row);
  }

  lemma {:induction false} PostKeepsNames(l: Ledger, reference: string)
    requires SeriesPrefix(l.prefix) && Names(l)
    ensures Names(PostStep(l, reference).0)
  {
    if PostStep(l, reference).0 != l {
      PostDraftKeepsNames(l, PostTarget(l, reference).value);
    }
  }

  // What a command leaves of a row once it has a number, or was cancelled.
  predicate Settled(before: Invoice, after: Invoice) {
    && after.draftRef == before.draftRef && after.total == before.total && after.unit == before.unit && after.currency == before.currency
    && (before.officialRef.Some? ==> after.officialRef == before.officialRef)
    && (before.status.Cancelled? ==> after.status.Cancelled? && after.officialRef == before.officialRef)
    && (!before.status.Draft? ==> !after.status.Draft? && (after.uncertain ==> before.uncertain))
  }

  predicate Settles(l: Ledger, l': Ledger) {
    |l'.invoices| >= |l.invoices| && forall i :: 0 <= i < |l.invoices| ==> Settled(l.invoices[i], l'.invoices[i])
  }

  lemma {:induction false} RowSettles(l: Ledger, row: nat, invoice: Invoice)
    requires row < |l.invoices| && Settled(l.invoices[row], invoice)
    ensures Settles(l, l.(invoices := l.invoices[row := invoice]))
  {
  }

  lemma {:induction false} PostDraftRow(l: Ledger, row: nat)
    requires row < |l.invoices| && l.invoices[row].status.Draft? && l.invoices[row].officialRef.None?
    ensures var after := PostDraft(l, row).0.invoices;
      |after| == |l.invoices| && Settled(l.invoices[row], after[row]) && after == l.invoices[row := after[row]]
  {
    var numbered := l.invoices[row].(officialRef := Some(Tag(l.prefix, l.sequence)), status := Posted);
    var twice := numbered.(uncertain := true);
    assert l.invoices[row := numbered][row := twice] == l.invoices[row := twice];
  }

  lemma {:induction false} PostDraftSettles(l: Ledger, row: nat)
    requires row < |l.invoices| && l.invoices[row].status.Draft? && l.invoices[row].officialRef.None?
    ensures Settles(l, PostDraft(l, row).0)
  {
    PostDraftRow(l, row);
    RowSettles(l, row, PostDraft(l, row).0.invoices[row]);
  }

  lemma {:induction false} PostSettles(l: Ledger, reference: string)
    requires Names(l)
    ensures Settles(l, PostStep(l, reference).0)
  {
    var target := PostTarget(l, reference);
    if target.Some? {
      var invoice := l.invoices[target.value];
      assert RowNamed(l, target.value);
      if !l.outage && !invoice.uncertain && invoice.status.Draft? {
        PostDraftSettles(l, target.value);
      } else {
        assert PostStep(l, reference).0 == l;
      }
    }
  }

  lemma {:induction false} RecordFrame(l: Ledger, c: PaymentCommand)
    ensures SameNames(l, RecordStep(l, c).0) && Settles(l, RecordStep(l, c).0)
  {
  }

  lemma {:induction false} ReverseFrame(l: Ledger, reference: string, reason: string)
    ensures SameNames(l, ReverseStep(l, reference, reason).0) && Settles(l, ReverseStep(l, reference, reason).0)
  {
  }

  lemma {:induction false} CancelFrame(l: Ledger, reference: string)
    ensures SameNames(l, CancelStep(l, reference).0) && Settles(l, CancelStep(l, reference).0)
  {
  }

  lemma {:induction false} ReconcilePostFrame(l: Ledger, reference: string)
    ensures SameNames(l, ReconcilePostStep(l, reference).0) && Settles(l, ReconcilePostStep(l, reference).0)
  {
  }

  // Every other command leaves the names alone.
  lemma {:induction false} OtherFrame(l: Ledger, op: Op)
    requires !op.Create? && !op.Post?
    ensures SameNames(l, Do(l, op)) && Settles(l, Do(l, op))
  {
    match op
    case ReconcilePost(reference) => ReconcilePostFrame(l, reference);
    case Record(payment) => RecordFrame(l, payment);
    case Reverse(reference, reason) => ReverseFrame(l, reference, reason);
    case Cancel(reference) => CancelFrame(l, reference);
    case _ =>
  }

  lemma {:induction false} DoSettles(l: Ledger, op: Op)
    requires Names(l)
    ensures Settles(l, Do(l, op))
  {
    match op
    case Create(_) =>
    case Post(reference) => PostSettles(l, reference);
    case _ => OtherFrame(l, op);
  }

  lemma {:induction false} DoKeepsNames(l: Ledger, op: Op)
    requires SeriesPrefix(l.prefix) && Names(l)
    ensures Names(Do(l, op)) && Do(l, op).prefix == l.prefix && Do(l, op).first == l.first
  {
    match op
    case Create(draft) => CreateKeepsNames(l, draft);
    case Post(reference) => PostKeepsNames(l, reference);
    case _ =>
      OtherFrame(l, op);
      SameNamesKeepNames(l, Do(l, op));
  }

  lemma {:induction false} RunKeepsNames(prefix: string, first: nat, ops: seq<Op>)
    requires SeriesPrefix(prefix)
    ensures var l := Run(NewLedger(prefix, first), ops); Names(l) && l.prefix == prefix && l.first == first
  {
    if ops != [] {
      RunKeepsNames(prefix, first, ops[..|ops| - 1]);
      DoKeepsNames(Run(NewLedger(prefix, first), ops[..|ops| - 1]), ops[|ops| - 1]);
    }
  }

  // Two rows never share an official number, and a number belongs to one row.
  lemma {:induction false} OfficialsDiffer(l: Ledger, i: nat, j: nat)
    requires SeriesPrefix(l.prefix) && Names(l) && i < |l.invoices| && j < |l.invoices|
    requires l.invoices[i].officialRef.Some? && l.invoices[i].officialRef == l.invoices[j].officialRef
    ensures i == j
  {
    assert RowNamed(l, i) && RowNamed(l, j);
  }

  // The handle dictionary is sound: its keys are exactly the draft and official references of the
  // invoices, and the two handles of a posted invoice name the same row.
  ghost predicate HandlesSound(l: Ledger) {
    && (forall h :: h in l.handles ==> HandleNamed(l, h))
    && (forall i :: 0 <= i < |l.invoices| ==>
          && l.invoices[i].draftRef in l.handles && l.handles[l.invoices[i].draftRef] == i
          && (l.invoices[i].officialRef.Some? ==>
                l.invoices[i].officialRef.value in l.handles && l.handles[l.invoices[i].officialRef.value] == i))
  }

  lemma {:induction false} NamesMakeHandlesSound(l: Ledger)
    requires Names(l)
    ensures HandlesSound(l)
  {
    forall i | 0 <= i < |l.invoices|
      ensures l.invoices[i].draftRef in l.handles && l.handles[l.invoices[i].draftRef] == i
      ensures l.invoices[i].officialRef.Some? ==>
                l.invoices[i].officialRef.value in l.handles && l.handles[l.invoices[i].officialRef.value] == i
    {
      assert RowNamed(l, i);
    }
  }

  // Any one-line invoice.
  const PLAIN: DraftCommand := DraftCommand("CUST-1", "UNIT-1", [Line(Some(1.0), Some(1.0), "EUR")], Some(0), Some(0))

  lemma {:induction false} PlainIsGood()
    ensures GoodDraft(PLAIN)
  {
    var lines := PLAIN.lines;
    assert lines[..0] == [];
    assert GoodLine(lines[0], "EUR");
  }

  // Create two drafts and post the second: with the prefix "DRAFT" its number is the first one's handle.
  function CollidingRun(): seq<Op> {
    [Create(PLAIN), Create(PLAIN), Post(Tag("DRAFT", 2))]
  }

  lemma {:induction false} RunThree(l: Ledger, a: Op, b: Op, c: Op)
    ensures Run(l, [a, b, c]) == Do(Do(Do(l, a), b), c)
  {
    assert Run(l, [a]) == Do(l, a);
    assert Run(l, [a, b]) == Do(Do(l, a), b) by {
      assert [a, b][..1] == [a];
    }
    assert [a, b, c][..2] == [a, b];
  }

  lemma {:induction false} TwoDrafts() returns (l: Ledger)
    ensures l == Do(Do(NewLedger("DRAFT", 1), Create(PLAIN)), Create(PLAIN))
    ensures |l.invoices| == 2 && l.prefix == "DRAFT" && l.sequence == 1 && !l.outage && l.failPost.None?
    ensures Tag("DRAFT", 2) in l.handles && l.handles[Tag("DRAFT", 2)] == 1
    ensures l.invoices[0].draftRef == Tag("DRAFT", 1)
    ensures l.invoices[1].status.Draft? && !l.invoices[1].uncertain
  {
    PlainIsGood();
    l := Do(Do(NewLedger("DRAFT", 1), Create(PLAIN)), Create(PLAIN));
  }

  lemma {:induction false} Collision()
    ensures !HandlesSound(Run(NewLedger("DRAFT", 1), CollidingRun()))
  {
    var l := TwoDrafts();
    RunThree(NewLedger("DRAFT", 1), Create(PLAIN), Create(PLAIN), Post(Tag("DRAFT", 2)));
    var l' := AssignOfficial(l.(failPost := None), 1);
    assert l' == Do(l, Post(Tag("DRAFT", 2)));
    assert l'.handles[Tag("DRAFT", 1)] == 1 && l'.invoices[0].draftRef == Tag("DRAFT", 1);
  }

  ghost predicate AlwaysSound(prefix: string) {
    forall first: nat, ops: seq<Op> :: HandlesSound(Run(NewLedger(prefix, first), ops))
  }

  // The handles are sound over every run exactly when the series prefix is not "DRAFT".
  lemma {:induction false} HandlesSoundExactlyUnlessDraft(prefix: string)
    requires '-' !in prefix
    ensures AlwaysSound(prefix) <==> prefix != "DRAFT"
  {
    if prefix == "DRAFT" {
      Collision();
    } else {
      forall first: nat, ops: seq<Op>
        ensures HandlesSound(Run(NewLedger(prefix, first), ops))
      {
        RunKeepsNames(prefix, first, ops);
        NamesMakeHandlesSound(Run(NewLedger(prefix, first), ops));
      }
    }
  }

  // The k-th number issued is first + k, and it stands on the k-th posted row; every numbered row was
  // issued exactly one number, and no number stands on two rows.
  lemma {:induction false} GaplessNumbers(prefix: string, first: nat, ops: seq<Op>)
    requires SeriesPrefix(prefix)
    ensures var l := Run(NewLedger(prefix, first), ops);
      && l.sequence == first + |l.issued|
      && (forall k :: 0 <= k < |l.issued| ==> l.issued[k] < |l.invoices| && l.invoices[l.issued[k]].officialRef == Some(Tag(prefix, first + k)))
      && (forall k, m :: 0 <= k < m < |l.issued| ==> l.issued[k] != l.issued[m])
      && (forall i :: 0 <= i < |l.invoices| && l.invoices[i].officialRef.Some? ==> i in l.issued)
  {
    var l := Run(NewLedger(prefix, first), ops);
    RunKeepsNames(prefix, first, ops);
    forall k | 0 <= k < |l.issued|
      ensures l.issued[k] < |l.invoices| && l.invoices[l.issued[k]].officialRef == Some(Tag(prefix, first + k))
    {
      assert NumberGiven(l, k);
    }
    forall k, m | 0 <= k < m < |l.issued|
      ensures l.issued[k] != l.issued[m]
    {
      assert NumberGiven(l, k) && NumberGiven(l, m);
      TagNames(OfficialOf(l, k), prefix, first + k, first + m);
    }
    forall i | 0 <= i < |l.invoices| && l.invoices[i].officialRef.Some?
      ensures i in l.issued
    {
      assert RowNamed(l, i);
    }
  }

  predicate KeepsHandles(l: Ledger, l': Ledger) {
    forall h :: h in l.handles ==> h in l'.handles && l'.handles[h] == l.handles[h]
  }

  lemma {:induction false} CreateGrowsHandles(l: Ledger, c: DraftCommand)
    requires SeriesPrefix(l.prefix) && Names(l)
    ensures KeepsHandles(l, CreateStep(l, c).0)
  {
    NewDraftIsFresh(l);
  }

  lemma {:induction false} PostGrowsHandles(l: Ledger, reference: string)
    requires SeriesPrefix(l.prefix) && Names(l)
    ensures KeepsHandles(l, PostStep(l, reference).0)
  {
    NewOfficialIsFresh(l);
  }

  lemma {:induction false} DoGrowsHandles(l: Ledger, op: Op)
    requires SeriesPrefix(l.prefix) && Names(l)
    ensures KeepsHandles(l, Do(l, op))
  {
    match op
    case Create(draft) => CreateGrowsHandles(l, draft);
    case Post(reference) => PostGrowsHandles(l, reference);
    case _ => OtherFrame(l, op);
  }

  // What stays of an earlier ledger: its handles, and its rows as far as they are settled.
  predicate Continues(l: Ledger, l': Ledger) {
    l'.prefix == l.prefix && Settles(l, l') && KeepsHandles(l, l')
  }

  lemma {:induction false} ContinuesFurther(l: Ledger, m: Ledger, n: Ledger)
    requires Continues(l, m) && Continues(m, n)
    ensures Continues(l, n)
  {
    forall i | 0 <= i < |l.invoices|
      ensures Settled(l.invoices[i], n.invoices[i])
    {
      assert Settled(l.invoices[i], m.invoices[i]) && Settled(m.invoices[i], n.invoices[i]);
    }
  }

  lemma {:induction false} DoContinues(l: Ledger, op: Op)
    requires SeriesPrefix(l.prefix) && Names(l)
    ensures Names(Do(l, op)) && Continues(l, Do(l, op))
  {
    DoKeepsNames(l, op);
    DoSettles(l, op);
    DoGrowsHandles(l, op);
  }

  // Handles keep naming their rows; an official number, once given, is never changed or taken back; a cancelled
  // draft never gets one.
  lemma {:induction false} NumbersAreForever(l: Ledger, ops: seq<Op>)
    requires SeriesPrefix(l.prefix) && Names(l)
    ensures Names(Run(l, ops)) && Continues(l, Run(l, ops))
  {
    if ops != [] {
      var m := Run(l, ops[..|ops| - 1]);
      NumbersAreForever(l, ops[..|ops| - 1]);
      DoContinues(m, ops[|ops| - 1]);
      ContinuesFurther(l, m, Do(m, ops[|ops| - 1]));
    }
  }

  // A reference that posts is a handle: the search behind the dictionary never finds more.
  lemma {:induction false} PostTargetIsHandle(l: Ledger, order: seq<string>, reference: string)
    requires Names(l)
    ensures OfficialRow(l, order, reference).Some? ==> RowOf(l, reference).Some?
  {
    if OfficialRow(l, order, reference).Some? {
      assert RowNamed(l, OfficialRow(l, order, reference).value);
    }
  }

  lemma {:induction false} PostedRow(l: Ledger, reference: string) returns (row: nat)
    requires SeriesPrefix(l.prefix) && Names(l) && PostStep(l, reference).1.Ok? && PostStep(l, reference).1.value.PostedAs?
    ensures var l' := PostStep(l, reference).0;
      && row < |l'.invoices| && RowOf(l', reference) == Some(row)
      && l'.invoices[row].status.Posted? && !l'.invoices[row].uncertain && l'.invoices[row].officialRef.Some?
      && PostStep(l, reference).1.value.reference == l'.invoices[row].officialRef
  {
    PostTargetIsHandle(l, l.order, reference);
    PostGrowsHandles(l, reference);
    row := RowOf(l, reference).value;
    assert RowNamed(l, row);
  }

  // Posting is idempotent over any later run: the same handle answers the same number and changes nothing,
  // until the invoice is cancelled, after which it is refused.
  lemma {:induction false} PostingAgain(l: Ledger, reference: string, ops: seq<Op>)
    requires SeriesPrefix(l.prefix) && Names(l) && PostStep(l, reference).1.Ok? && PostStep(l, reference).1.value.PostedAs?
    ensures var l' := Run(PostStep(l, reference).0, ops);
      && RowOf(l', reference).Some?
      && PostStep(l', reference).0 == l'
      && (!l'.outage && !l'.invoices[RowOf(l', reference).value].status.Cancelled? ==> PostStep(l', reference).1 == PostStep(l, reference).1)
  {
    var row := PostedRow(l, reference);
    PostKeepsNames(l, reference);
    NumbersAreForever(PostStep(l, reference).0, ops);
    assert Settled(PostStep(l, reference).0.invoices[row], Run(PostStep(l, reference).0, ops).invoices[row]);
  }
}
