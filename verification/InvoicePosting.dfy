/**
  The posting workflow on top of the provider (src/workflows/invoice_post/workflow.py): the commands as
  functions on a world of workflow maps and ledger, and the theorem that a draft never gets two official
  numbers.
 */
module InvoicePosting {
  import opened Wrappers
  import opened References
  import opened ErpLedger
  import opened LedgerRuns

  datatype PostedRecord = PostedRecord(draftId: string, unit: string, cancelled: bool)

  datatype Flow = Flow(posted: map<string, PostedRecord>, byDraft: map<string, string>, pending: map<string, string>)

  // `owner` records, for every provider invoice the workflow created, the draft it was created for.
  datatype World = World(ledger: Ledger, flow: Flow, owner: map<nat, string>)

  // `allowed` stands for every check made on the caller and the preview before the state is looked at:
  // authorization, separation of opener and poster, configuration version, authenticity. `resolves` says whether the
  // policy yields a financial identity.
  datatype Request = Request(draftId: string, unit: string, allowed: bool, resolves: bool, command: DraftCommand)

  // Whether the provider is unreachable at the successive calls of one command.
  datatype Weather = Weather(create: bool, post: bool, cleanup: bool)

  datatype Reply = Done(answer: PostAnswer) | Blocked

  function Settle(f: Flow, draftId: string, unit: string, official: string): Flow {
    f.(posted := f.posted[official := PostedRecord(draftId, unit, false)],
       byDraft := f.byDraft[draftId := official],
       pending := f.pending - {draftId})
  }

  function Wait(f: Flow, d: string, reference: string): Flow {
    f.(pending := f.pending[d := reference])
  }

  predicate AlreadyPosted(f: Flow, draftId: string) {
    draftId in f.byDraft && f.byDraft[draftId] in f.posted
  }

  // What the workflow makes of the provider's answer to its post.
  function AfterPost(w: World, q: Request, reference: string, r: Answer<PostAnswer>, cleanup: bool): (World, Reply) {
    match r
    case Uncertain => (w.(flow := Wait(w.flow, q.draftId, reference)), Done(Unknown))
    case Rejected => (w, Blocked)
    case Ok(NotPosted) => (w.(ledger := CancelStep(Under(w.ledger, cleanup), reference).0), Done(NotPosted))
    case Ok(Unknown) => (w.(flow := Wait(w.flow, q.draftId, reference)), Done(Unknown))
    case Ok(PostedAs(None)) => (w, Blocked)
    case Ok(PostedAs(Some(official))) => (w.(flow := Settle(w.flow, q.draftId, q.unit, official)), Done(PostedAs(Some(official))))
  }

  // Posting the provider draft just created as row n.
  function PostNew(w: World, q: Request, n: nat, reference: string, o: Weather): (World, Reply) {
    var (l2, r) := PostStep(Under(w.ledger, o.post), reference);
    AfterPost(World(l2, w.flow, w.owner[n := q.draftId]), q, reference, r, o.cleanup)
  }

  function PostFlow(w: World, q: Request, o: Weather): (World, Reply) {
    if !q.allowed || q.draftId in w.flow.pending || AlreadyPosted(w.flow, q.draftId) || !q.resolves then (w, Blocked)
    else
      var (l1, created) := CreateStep(Under(w.ledger, o.create), q.command);
      if !created.Ok? then (w.(ledger := l1), Blocked)
      else PostNew(w.(ledger := l1), q, |w.ledger.invoices|, created.value, o)
  }

  // What the workflow makes of the provider's answer to a reconciliation.
  function AfterReconcile(w: World, q: Request, reference: string, r: Answer<PostAnswer>, cleanup: bool): (World, Reply) {
    match r
    case Rejected => (w, Blocked)
    case Uncertain => (w, Done(Unknown))
    case Ok(Unknown) => (w, Done(Unknown))
    case Ok(NotPosted) =>
      (World(CancelStep(Under(w.ledger, cleanup), reference).0, w.flow.(pending := w.flow.pending - {q.draftId}), w.owner), Done(NotPosted))
    case Ok(PostedAs(None)) => (w, Blocked)
    case Ok(PostedAs(Some(official))) =>
      if !q.resolves then (w, Blocked)
      else (w.(flow := Settle(w.flow, q.draftId, q.unit, official)), Done(PostedAs(Some(official))))
  }

  function ReconcileFlow(w: World, q: Request, o: Weather): (World, Reply) {
    if !q.allowed || q.draftId !in w.flow.pending then (w, Blocked)
    else
      var reference := w.flow.pending[q.draftId];
      var (l1, r) := ReconcilePostStep(w.ledger, reference);
      AfterReconcile(w.(ledger := l1), q, reference, r, o.cleanup)
  }

  function Withdraw(f: Flow, official: string): Flow
    requires official in f.posted
  {
    f.(posted := f.posted[official := f.posted[official].(cancelled := true)])
  }

  function CancelFlow(w: World, official: string, allowed: bool, outage: bool): (World, bool) {
    if official !in w.flow.posted || w.flow.posted[official].cancelled || !allowed then (w, false)
    else
      var (l1, r) := CancelStep(Under(w.ledger, outage), official);
      if !r.Ok? then (w.(ledger := l1), false)
      else (World(l1, Withdraw(w.flow, official), w.owner), true)
  }

  // Runs: the workflow's commands, and anything else that happens at the provider.

  datatype Action =
    | PostDraft(request: Request, weather: Weather)
    | Reconcile(request: Request, weather: Weather)
    | CancelPosted(official: string, allowed: bool, outage: bool)
    | AtProvider(op: Op)

  function Act(w: World, a: Action): World {
    match a
    case PostDraft(q, o) => PostFlow(w, q, o).0
    case Reconcile(q, o) => ReconcileFlow(w, q, o).0
    case CancelPosted(official, allowed, outage) => CancelFlow(w, official, allowed, outage).0
    case AtProvider(op) => w.(ledger := Do(w.ledger, op))
  }

  // Somebody else's cancellation takes effect on the posted invoice a draft is waiting for.
  predicate HarmfulCancel(w: World, reference: string) {
    var row := RowOf(w.ledger, reference);
    && !w.ledger.outage && row.Some? && row.value in w.owner && PendingAt(w, w.owner[row.value], row.value)
    && w.ledger.invoices[row.value].status.Posted?
    && !AnyOutstanding(w.ledger.payments, w.ledger.invoices[row.value].officialRef)
  }

  // Somebody else's post gives a number to an invoice of the workflow that its draft is not waiting for.
  predicate HarmfulPost(w: World, reference: string) {
    var row := PostTarget(w.ledger, reference);
    && !w.ledger.outage && row.Some? && row.value in w.owner && !PendingAt(w, w.owner[row.value], row.value)
    && w.ledger.invoices[row.value].status.Draft? && !w.ledger.invoices[row.value].uncertain
    && (w.ledger.failPost.None? || w.ledger.failPost == Some(LosePost))
  }

  // Others may do anything else at the provider.
  predicate Harmful(w: World, op: Op) {
    match op
    case Cancel(reference) => HarmfulCancel(w, reference)
    case Post(reference) => HarmfulPost(w, reference)
    case _ => false
  }

  predicate Proper(w: World, a: Action) {
    a.AtProvider? ==> !Harmful(w, a.op)
  }

  function RunFlow(w: World, actions: seq<Action>): World {
    if actions == [] then w else Act(RunFlow(w, actions[..|actions| - 1]), actions[|actions| - 1])
  }

  predicate ProperRun(w: World, actions: seq<Action>) {
    actions == [] || (ProperRun(w, actions[..|actions| - 1]) && Proper(RunFlow(w, actions[..|actions| - 1]), actions[|actions| - 1]))
  }

  function StartFlow(prefix: string, first: nat): World {
    World(NewLedger(prefix, first), Flow(map[], map[], map[]), map[])
  }

  // Invariant

  predicate Numbered(l: Ledger, i: nat)
    requires i < |l.invoices|
  {
    l.invoices[i].officialRef.Some?
  }

  // The row a pending draft may have been posted as.
  predicate PendingAt(w: World, d: string, i: nat) {
    d in w.flow.pending && RowOf(w.ledger, w.flow.pending[d]) == Some(i)
  }

  predicate PostedAt(w: World, d: string, i: nat) {
    d in w.flow.byDraft && RowOf(w.ledger, w.flow.byDraft[d]) == Some(i)
  }

  // A numbered invoice of a draft is the one the workflow knows as posted, or the one it waits for.
  predicate OwnedRow(w: World, i: nat)
    requires i in w.owner
  {
    && i < |w.ledger.invoices|
    && (Numbered(w.ledger, i) ==> PostedAt(w, w.owner[i], i) || (PendingAt(w, w.owner[i], i) && w.ledger.invoices[i].status.Posted?))
  }

  predicate PendingDraft(w: World, d: string)
    requires d in w.flow.pending
  {
    && d !in w.flow.byDraft
    && var row := RowOf(w.ledger, w.flow.pending[d]);
    && row.Some? && row.value in w.owner && w.owner[row.value] == d
    && (w.ledger.invoices[row.value].status.Cancelled? ==> !Numbered(w.ledger, row.value))
  }

  predicate SettledDraft(w: World, d: string)
    requires d in w.flow.byDraft
  {
    var official := w.flow.byDraft[d];
    && official in w.flow.posted && w.flow.posted[official].draftId == d
    && var row := RowOf(w.ledger, official);
    && row.Some? && row.value in w.owner && w.owner[row.value] == d && w.ledger.invoices[row.value].officialRef == Some(official)
  }

  ghost predicate Tracks(w: World) {
    && (forall i :: i in w.owner ==> OwnedRow(w, i))
    && (forall d :: d in w.flow.pending ==> PendingDraft(w, d))
    && (forall d :: d in w.flow.byDraft ==> SettledDraft(w, d))
    && PostedIndexed(w.flow)
  }

  predicate PostedIndexed(f: Flow) {
    forall o :: o in f.posted ==> f.posted[o].draftId in f.byDraft && f.byDraft[f.posted[o].draftId] == o
  }

  ghost predicate FlowInv(w: World) {
    SeriesPrefix(w.ledger.prefix) && Names(w.ledger) && Tracks(w)
  }

  // A change at the provider as far as the workflow sees it: handles keep their rows, and its rows, but for
  // those in `touched`, keep number and status.
  predicate CalmBut(w: World, l': Ledger, touched: set<nat>) {
    && l'.prefix == w.ledger.prefix && KeepsHandles(w.ledger, l') && |l'.invoices| >= |w.ledger.invoices|
    && forall i :: i in w.owner && i !in touched ==> SameMark(w.ledger, l', i)
  }

  predicate SameMark(l: Ledger, l': Ledger, i: nat) {
    i < |l.invoices| ==>
      i < |l'.invoices| && l'.invoices[i].officialRef == l.invoices[i].officialRef && l'.invoices[i].status == l.invoices[i].status
  }

  // What the workflow knows about a draft is unchanged.
  predicate SameDraft(f: Flow, f': Flow, d: string) {
    && (d in f'.pending <==> d in f.pending) && (d in f.pending && d in f'.pending ==> f'.pending[d] == f.pending[d])
    && (d in f'.byDraft <==> d in f.byDraft) && (d in f.byDraft && d in f'.byDraft ==> f'.byDraft[d] == f.byDraft[d])
  }

  lemma {:induction false} HandleStays(l: Ledger, l': Ledger, h: string)
    requires KeepsHandles(l, l') && |l'.invoices| >= |l.invoices|
    ensures RowOf(l, h).Some? ==> RowOf(l', h) == RowOf(l, h)
  {
  }

  lemma {:induction false} OwnedStays(w: World, w': World, i: nat)
    requires i in w.owner && OwnedRow(w, i) && w'.owner == w.owner
    requires KeepsHandles(w.ledger, w'.ledger) && |w'.ledger.invoices| >= |w.ledger.invoices|
    requires SameMark(w.ledger, w'.ledger, i) && SameDraft(w.flow, w'.flow, w.owner[i])
    ensures OwnedRow(w', i)
  {
    var d := w.owner[i];
    if d in w.flow.pending { HandleStays(w.ledger, w'.ledger, w.flow.pending[d]); }
    if d in w.flow.byDraft { HandleStays(w.ledger, w'.ledger, w.flow.byDraft[d]); }
  }

  lemma {:induction false} PendingStays(w: World, w': World, d: string)
    requires d in w.flow.pending && PendingDraft(w, d) && w'.owner == w.owner
    requires KeepsHandles(w.ledger, w'.ledger) && |w'.ledger.invoices| >= |w.ledger.invoices|
    requires SameMark(w.ledger, w'.ledger, RowOf(w.ledger, w.flow.pending[d]).value) && SameDraft(w.flow, w'.flow, d)
    ensures PendingDraft(w', d)
  {
    HandleStays(w.ledger, w'.ledger, w.flow.pending[d]);
  }

  lemma {:induction false} SettledStays(w: World, w': World, d: string)
    requires d in w.flow.byDraft && SettledDraft(w, d) && w'.owner == w.owner
    requires KeepsHandles(w.ledger, w'.ledger) && |w'.ledger.invoices| >= |w.ledger.invoices|
    requires d in w'.flow.byDraft && w'.flow.byDraft[d] == w.flow.byDraft[d]
    requires var o := w.flow.byDraft[d]; o in w'.flow.posted && w'.flow.posted[o].draftId == d
    requires var n := RowOf(w.ledger, w.flow.byDraft[d]).value;
      n < |w'.ledger.invoices| && w'.ledger.invoices[n].officialRef == w.ledger.invoices[n].officialRef
    ensures SettledDraft(w', d)
  {
    HandleStays(w.ledger, w'.ledger, w.flow.byDraft[d]);
  }

  ghost predicate TracksBut(w: World, d: string) {
    && (forall i :: i in w.owner && w.owner[i] != d ==> OwnedRow(w, i))
    && (forall e :: e in w.flow.pending && e != d ==> PendingDraft(w, e))
    && (forall e :: e in w.flow.byDraft && e != d ==> SettledDraft(w, e))
  }

  ghost predicate SameButFor(f: Flow, f': Flow, d: string) {
    && (forall e :: e != d ==> SameDraft(f, f', e))
    && (forall o :: o in f.posted ==> o in f'.posted && (f.posted[o].draftId != d ==> f'.posted[o].draftId == f.posted[o].draftId))
  }

  lemma {:induction false} OthersOwned(w: World, w': World, n: nat, d: string)
    requires Tracks(w) && w'.owner == w.owner && n in w.owner && w.owner[n] == d && CalmBut(w, w'.ledger, {n}) && SameButFor(w.flow, w'.flow, d)
    ensures forall i :: i in w.owner && w.owner[i] != d ==> OwnedRow(w', i)
  {
    forall i | i in w.owner && w.owner[i] != d ensures OwnedRow(w', i) {
      assert OwnedRow(w, i);
      OwnedStays(w, w', i);
    }
  }

  lemma {:induction false} OthersPending(w: World, w': World, n: nat, d: string)
    requires Tracks(w) && w'.owner == w.owner && n in w.owner && w.owner[n] == d && CalmBut(w, w'.ledger, {n}) && SameButFor(w.flow, w'.flow, d)
    ensures forall e :: e in w'.flow.pending && e != d ==> PendingDraft(w', e)
  {
    forall e | e in w'.flow.pending && e != d ensures PendingDraft(w', e) {
      assert SameDraft(w.flow, w'.flow, e);
      assert PendingDraft(w, e);
      PendingStays(w, w', e);
    }
  }

  lemma {:induction false} OthersSettled(w: World, w': World, n: nat, d: string)
    requires Tracks(w) && w'.owner == w.owner && n in w.owner && w.owner[n] == d && CalmBut(w, w'.ledger, {n}) && SameButFor(w.flow, w'.flow, d)
    ensures forall e :: e in w'.flow.byDraft && e != d ==> SettledDraft(w', e)
  {
    forall e | e in w'.flow.byDraft && e != d ensures SettledDraft(w', e) {
      assert SameDraft(w.flow, w'.flow, e);
      assert SettledDraft(w, e);
      SettledStays(w, w', e);
    }
  }

  // Whatever happens to one row and its draft, the other drafts are tracked as before.
  lemma {:induction false} OthersStay(w: World, w': World, n: nat, d: string)
    requires Tracks(w) && w'.owner == w.owner && n in w.owner && w.owner[n] == d && CalmBut(w, w'.ledger, {n}) && SameButFor(w.flow, w'.flow, d)
    ensures TracksBut(w', d)
  {
    OthersOwned(w, w', n, d);
    OthersPending(w, w', n, d);
    OthersSettled(w, w', n, d);
  }

  ghost predicate OwnTracked(w: World, d: string) {
    && (forall i :: i in w.owner && w.owner[i] == d ==> OwnedRow(w, i))
    && (d in w.flow.pending ==> PendingDraft(w, d))
    && (d in w.flow.byDraft ==> SettledDraft(w, d))
  }

  lemma {:induction false} AllTracked(w: World, d: string)
    requires TracksBut(w, d) && OwnTracked(w, d) && PostedIndexed(w.flow)
    ensures Tracks(w)
  {
  }

  // The rows of one draft, when its numbered row is n.
  lemma {:induction false} OwnRows(w: World, w': World, n: nat, d: string)
    requires Tracks(w) && w'.owner == w.owner && n in w.owner && w.owner[n] == d && CalmBut(w, w'.ledger, {n})
    requires OwnedRow(w', n)
    requires forall i :: i in w.owner && w.owner[i] == d && i != n ==> i < |w.ledger.invoices| && !Numbered(w.ledger, i)
    ensures forall i :: i in w.owner && w.owner[i] == d ==> OwnedRow(w', i)
  {
    forall i | i in w.owner && w.owner[i] == d && i != n ensures OwnedRow(w', i) {
      assert OwnedRow(w, i) && SameMark(w.ledger, w'.ledger, i);
    }
  }

  // Before, the draft's only numbered row can have been the one it waits for or was settled with.
  lemma {:induction false} OnlyNumbered(w: World, n: nat, d: string)
    requires Tracks(w) && n in w.owner && w.owner[n] == d
    requires d in w.flow.pending ==> RowOf(w.ledger, w.flow.pending[d]) == Some(n)
    requires d in w.flow.byDraft ==> RowOf(w.ledger, w.flow.byDraft[d]) == Some(n)
    ensures forall i :: i in w.owner && w.owner[i] == d && i != n ==> i < |w.ledger.invoices| && !Numbered(w.ledger, i)
  {
    forall i | i in w.owner && w.owner[i] == d && i != n ensures i < |w.ledger.invoices| && !Numbered(w.ledger, i) {
      assert OwnedRow(w, i);
    }
  }

  lemma {:induction false} OwnNumbersStay(w: World, w': World, n: nat, d: string)
    requires Tracks(w) && w'.owner == w.owner && n in w.owner && w.owner[n] == d && CalmBut(w, w'.ledger, {n})
    requires w'.flow == w.flow && d !in w.flow.pending
    requires n < |w.ledger.invoices| && w'.ledger.invoices[n].officialRef == w.ledger.invoices[n].officialRef
    ensures forall i :: i in w.owner && w.owner[i] == d ==> OwnedRow(w', i)
  {
    forall i | i in w.owner && w.owner[i] == d ensures OwnedRow(w', i) {
      assert i != n ==> SameMark(w.ledger, w'.ledger, i);
      OwnedKeepsNumber(w, w', i);
    }
  }

  // A row whose draft is not pending changes its status and keeps its number.
  lemma {:induction false} StatusChange(w: World, w': World, n: nat, d: string)
    requires Tracks(w) && w'.owner == w.owner && n in w.owner && w.owner[n] == d && CalmBut(w, w'.ledger, {n})
    requires w'.flow == w.flow && d !in w.flow.pending
    requires n < |w.ledger.invoices| && w'.ledger.invoices[n].officialRef == w.ledger.invoices[n].officialRef
    ensures Tracks(w')
  {
    OthersStay(w, w', n, d);
    OwnNumbersStay(w, w', n, d);
    if d in w.flow.byDraft {
      assert SettledDraft(w, d);
      SettledStays(w, w', d);
    }
    AllTracked(w', d);
  }

  lemma {:induction false} OwnedKeepsNumber(w: World, w': World, i: nat)
    requires Tracks(w) && w'.owner == w.owner && i in w.owner && w'.flow == w.flow && w.owner[i] !in w.flow.pending
    requires KeepsHandles(w.ledger, w'.ledger) && |w'.ledger.invoices| >= |w.ledger.invoices|
    requires i < |w.ledger.invoices| ==> w'.ledger.invoices[i].officialRef == w.ledger.invoices[i].officialRef
    ensures OwnedRow(w', i)
  {
    assert OwnedRow(w, i);
    if w.owner[i] in w.flow.byDraft { HandleStays(w.ledger, w'.ledger, w.flow.byDraft[w.owner[i]]); }
  }

  // No row of the workflow is touched.
  lemma {:induction false} CalmKeeps(w: World, w': World)
    requires Tracks(w) && w'.owner == w.owner && w'.flow == w.flow && CalmBut(w, w'.ledger, {})
    ensures Tracks(w')
  {
    forall i | i in w'.owner ensures OwnedRow(w', i) { assert OwnedRow(w, i); OwnedStays(w, w', i); }
    forall d | d in w'.flow.pending ensures PendingDraft(w', d) { assert PendingDraft(w, d); PendingStays(w, w', d); }
    forall d | d in w'.flow.byDraft ensures SettledDraft(w', d) { assert SettledDraft(w, d); SettledStays(w, w', d); }
  }

  lemma {:induction false} WaitIsLocal(f: Flow, d: string, reference: string)
    ensures SameButFor(f, Wait(f, d, reference), d)
  {
  }

  // A row and its draft, rebuilt together; its other rows never had a number.
  lemma {:induction false} Rebuilt(w: World, w': World, n: nat, d: string)
    requires Tracks(w) && w'.owner == w.owner && n in w.owner && w.owner[n] == d && CalmBut(w, w'.ledger, {n}) && SameButFor(w.flow, w'.flow, d)
    requires d in w.flow.pending ==> RowOf(w.ledger, w.flow.pending[d]) == Some(n)
    requires d in w.flow.byDraft ==> RowOf(w.ledger, w.flow.byDraft[d]) == Some(n)
    requires OwnedRow(w', n) && (d in w'.flow.pending ==> PendingDraft(w', d)) && (d in w'.flow.byDraft ==> SettledDraft(w', d))
    requires PostedIndexed(w'.flow)
    ensures Tracks(w')
  {
    OthersStay(w, w', n, d);
    OnlyNumbered(w, n, d);
    OwnRows(w, w', n, d);
    AllTracked(w', d);
  }

  // The workflow starts to wait for row n: none of the draft's rows had a number before.
  lemma {:induction false} StartsWaiting(w: World, w': World, n: nat, d: string, reference: string)
    requires Tracks(w) && w'.owner == w.owner && n in w.owner && w.owner[n] == d && CalmBut(w, w'.ledger, {n})
    requires d !in w.flow.pending && d !in w.flow.byDraft && w'.flow == Wait(w.flow, d, reference)
    requires RowOf(w'.ledger, reference) == Some(n) && !w'.ledger.invoices[n].status.Cancelled?
    requires Numbered(w'.ledger, n) ==> w'.ledger.invoices[n].status.Posted?
    ensures Tracks(w')
  {
    WaitIsLocal(w.flow, d, reference);
    Rebuilt(w, w', n, d);
  }

  // A number the workflow learns for row n is new to it.
  lemma {:induction false} OfficialIsNew(w: World, w': World, n: nat, d: string, official: string)
    requires Tracks(w) && KeepsHandles(w.ledger, w'.ledger) && |w'.ledger.invoices| >= |w.ledger.invoices|
    requires n in w.owner && w.owner[n] == d && d !in w.flow.byDraft && RowOf(w'.ledger, official) == Some(n)
    ensures official !in w.flow.posted
  {
    HandleStays(w.ledger, w'.ledger, official);
    assert official in w.flow.posted ==> SettledDraft(w, w.flow.posted[official].draftId);
  }

  lemma {:induction false} SettleIsLocal(f: Flow, d: string, unit: string, official: string)
    requires official !in f.posted
    ensures SameButFor(f, Settle(f, d, unit, official), d)
  {
  }

  lemma {:induction false} SettleIsIndexed(f: Flow, d: string, unit: string, official: string)
    requires PostedIndexed(f) && d !in f.byDraft
    ensures PostedIndexed(Settle(f, d, unit, official))
  {
  }

  lemma {:induction false} NowSettled(f: Flow, w: World, n: nat, d: string, unit: string, official: string)
    requires w.flow == Settle(f, d, unit, official) && n in w.owner && w.owner[n] == d && n < |w.ledger.invoices|
    requires RowOf(w.ledger, official) == Some(n) && w.ledger.invoices[n].officialRef == Some(official)
    ensures OwnedRow(w, n) && d !in w.flow.pending && d in w.flow.byDraft && SettledDraft(w, d)
  {
  }

  // The workflow learns that row n was posted.
  lemma {:induction false} BecomesSettled(w: World, w': World, n: nat, d: string, unit: string, official: string)
    requires Tracks(w) && w'.owner == w.owner && n in w.owner && w.owner[n] == d && CalmBut(w, w'.ledger, {n})
    requires d !in w.flow.byDraft && w'.flow == Settle(w.flow, d, unit, official)
    requires RowOf(w'.ledger, official) == Some(n) && w'.ledger.invoices[n].officialRef == Some(official)
    requires d in w.flow.pending ==> RowOf(w.ledger, w.flow.pending[d]) == Some(n)
    ensures Tracks(w')
  {
    OfficialIsNew(w, w', n, d, official);
    SettleIsLocal(w.flow, d, unit, official);
    SettleIsIndexed(w.flow, d, unit, official);
    NowSettled(w.flow, w', n, d, unit, official);
    Rebuilt(w, w', n, d);
  }

  // The workflow stops waiting: row n never got a number.
  lemma {:induction false} StopsWaiting(w: World, w': World, n: nat, d: string)
    requires Tracks(w) && w'.owner == w.owner && n in w.owner && w.owner[n] == d && w'.ledger == w.ledger
    requires d in w.flow.pending && PendingAt(w, d, n) && !Numbered(w.ledger, n)
    requires w'.flow == w.flow.(pending := w.flow.pending - {d})
    ensures Tracks(w')
  {
    assert PendingDraft(w, d) && OwnedRow(w, n);
    Rebuilt(w, w', n, d);
  }

  // A new provider draft, as yet without a number, is put down to its workflow draft.
  lemma {:induction false} NewOwned(w: World, n: nat, d: string)
    requires Tracks(w) && n !in w.owner && n < |w.ledger.invoices| && !Numbered(w.ledger, n)
    ensures Tracks(w.(owner := w.owner[n := d]))
  {
    var w' := w.(owner := w.owner[n := d]);
    forall i | i in w'.owner ensures OwnedRow(w', i) {
      if i != n { assert OwnedRow(w, i); }
    }
    forall e | e in w'.flow.pending ensures PendingDraft(w', e) { assert PendingDraft(w, e); }
    forall e | e in w'.flow.byDraft ensures SettledDraft(w', e) { assert SettledDraft(w, e); }
  }

  // What the provider's commands do to rows and handles

  lemma {:induction false} UnderKeepsNames(l: Ledger, outage: bool)
    requires Names(l)
    ensures Names(Under(l, outage))
  {
    SameNamesKeepNames(l, Under(l, outage));
  }

  lemma {:induction false} Created(l: Ledger, c: DraftCommand)
    requires SeriesPrefix(l.prefix) && Names(l)
    ensures var (l', r) := CreateStep(l, c);
      && Names(l') && l'.prefix == l.prefix && KeepsHandles(l, l') && |l'.invoices| >= |l.invoices|
      && (forall i :: 0 <= i < |l.invoices| ==> SameMark(l, l', i))
      && (r.Ok? ==>
            && |l'.invoices| == |l.invoices| + 1 && RowOf(l', r.value) == Some(|l.invoices|)
            && var invoice := l'.invoices[|l.invoices|]; invoice.status.Draft? && invoice.officialRef.None? && !invoice.uncertain)
  {
    CreateKeepsNames(l, c);
    CreateGrowsHandles(l, c);
  }

  // Posting a draft the provider has just created, or anything else, moves that row alone.
  lemma {:induction false} PostMovesTarget(l: Ledger, reference: string, i: nat)
    requires Names(l) && i < |l.invoices| && PostTarget(l, reference) != Some(i)
    ensures var l' := PostStep(l, reference).0; i < |l'.invoices| && SameMark(l, l', i)
  {
  }

  lemma {:induction false} PostKept(l: Ledger, reference: string)
    requires SeriesPrefix(l.prefix) && Names(l)
    ensures var l' := PostStep(l, reference).0; Names(l') && l'.prefix == l.prefix && KeepsHandles(l, l') && |l'.invoices| == |l.invoices|
  {
    PostKeepsNames(l, reference);
    PostGrowsHandles(l, reference);
  }

  lemma {:induction false} PostedDraft(l: Ledger, n: nat)
    requires SeriesPrefix(l.prefix) && Names(l) && n < |l.invoices| && l.invoices[n].status.Draft? && l.invoices[n].officialRef.None?
    ensures var (l', r) := ErpLedger.PostDraft(l, n);
      && n < |l'.invoices| && !l'.invoices[n].status.Cancelled?
      && (Numbered(l', n) ==> l'.invoices[n].status.Posted?)
      && (r.NotPosted? ==> SameMark(l, l', n))
      && (r.PostedAs? ==> r.reference.Some? && l'.invoices[n].officialRef == r.reference && RowOf(l', r.reference.value) == Some(n))
  {
  }

  lemma {:induction false} PostedFresh(l: Ledger, reference: string, n: nat)
    requires SeriesPrefix(l.prefix) && Names(l) && RowOf(l, reference) == Some(n)
    requires l.invoices[n].status.Draft? && l.invoices[n].officialRef.None? && !l.invoices[n].uncertain
    ensures var (l', r) := PostStep(l, reference);
      && RowOf(l', reference) == Some(n) && !l'.invoices[n].status.Cancelled?
      && (Numbered(l', n) ==> l'.invoices[n].status.Posted?)
      && !r.Uncertain?
      && (r.Rejected? || r == Ok(NotPosted) ==> SameMark(l, l', n))
      && (r.Ok? && r.value.PostedAs? ==>
            r.value.reference.Some? && l'.invoices[n].officialRef == r.value.reference && RowOf(l', r.value.reference.value) == Some(n))
  {
    PostKept(l, reference);
    if !l.outage {
      PostedDraft(l, n);
    }
  }

  lemma {:induction false} CancelMovesRow(l: Ledger, reference: string, n: nat)
    requires Names(l) && RowOf(l, reference) == Some(n)
    ensures var l' := CancelStep(l, reference).0;
      && Names(l') && l'.prefix == l.prefix && l'.handles == l.handles && |l'.invoices| == |l.invoices|
      && l'.invoices[n].officialRef == l.invoices[n].officialRef
      && forall i :: 0 <= i < |l.invoices| && i != n ==> SameMark(l, l', i)
  {
    CancelFrame(l, reference);
    SameNamesKeepNames(l, CancelStep(l, reference).0);
  }

  lemma {:induction false} ReconcileKeepsMarks(l: Ledger, reference: string)
    requires Names(l)
    ensures var l' := ReconcilePostStep(l, reference).0;
      && Names(l') && l'.prefix == l.prefix && l'.handles == l.handles && |l'.invoices| == |l.invoices|
      && forall i :: 0 <= i < |l.invoices| ==> SameMark(l, l', i)
  {
    ReconcilePostFrame(l, reference);
    SameNamesKeepNames(l, ReconcilePostStep(l, reference).0);
  }

  // What the provider answers about a row that was not cancelled with a number: its number, or that it has none.
  lemma {:induction false} ReconcileTells(l: Ledger, reference: string, n: nat)
    requires Names(l) && RowOf(l, reference) == Some(n) && (l.invoices[n].status.Cancelled? ==> !Numbered(l, n))
    ensures var r := ReconcilePostStep(l, reference).1;
      && r.Ok? && !r.value.Unknown?
      && (r.value.NotPosted? ==> !Numbered(l, n))
      && (r.value.PostedAs? ==> r.value.reference.Some? && l.invoices[n].officialRef == r.value.reference && RowOf(l, r.value.reference.value) == Some(n))
  {
    assert RowNamed(l, n);
  }

  lemma {:induction false} MoneyKeepsMarks(l: Ledger, op: Op)
    requires Names(l) && !op.Create? && !op.Post? && !op.Cancel?
    ensures var l' := Do(l, op);
      && |l'.invoices| == |l.invoices| && forall i :: 0 <= i < |l.invoices| ==> SameMark(l, l', i)
  {
  }

  // Steps of the workflow

  lemma {:induction false} CleanupIsCalm(w: World, reference: string, n: nat, outage: bool)
    requires Names(w.ledger) && n in w.owner && RowOf(w.ledger, reference) == Some(n)
    ensures var l' := CancelStep(Under(w.ledger, outage), reference).0;
      && Names(l') && l'.prefix == w.ledger.prefix && CalmBut(w, l', {n})
      && n < |w.ledger.invoices| && l'.invoices[n].officialRef == w.ledger.invoices[n].officialRef
  {
    UnderKeepsNames(w.ledger, outage);
    CancelMovesRow(Under(w.ledger, outage), reference, n);
  }

  lemma {:induction false} CleanupKeeps(w: World, reference: string, n: nat, d: string, outage: bool)
    requires FlowInv(w) && n in w.owner && w.owner[n] == d && d !in w.flow.pending && RowOf(w.ledger, reference) == Some(n)
    ensures FlowInv(w.(ledger := CancelStep(Under(w.ledger, outage), reference).0))
  {
    CleanupIsCalm(w, reference, n, outage);
    StatusChange(w, w.(ledger := CancelStep(Under(w.ledger, outage), reference).0), n, d);
  }

  // The provider's row n after a post of the fresh provider draft behind `reference`.
  predicate PostOutcome(w: World, l': Ledger, n: nat, reference: string, r: Answer<PostAnswer>) {
    && RowOf(l', reference) == Some(n) && !l'.invoices[n].status.Cancelled?
    && (Numbered(l', n) ==> l'.invoices[n].status.Posted?)
    && !r.Uncertain?
    && (r.Rejected? || r == Ok(NotPosted) ==> SameMark(w.ledger, l', n))
    && (r.Ok? && r.value.PostedAs? ==>
          r.value.reference.Some? && l'.invoices[n].officialRef == r.value.reference && RowOf(l', r.value.reference.value) == Some(n))
  }

  lemma {:induction false} CalmAll(w: World, l': Ledger, n: nat)
    requires CalmBut(w, l', {n}) && SameMark(w.ledger, l', n)
    ensures CalmBut(w, l', {})
  {
  }

  lemma {:induction false} AfterPostKeeps(w: World, l': Ledger, q: Request, n: nat, reference: string, r: Answer<PostAnswer>, cleanup: bool)
    requires FlowInv(w) && Names(l') && CalmBut(w, l', {n}) && n in w.owner && w.owner[n] == q.draftId
    requires q.draftId !in w.flow.pending && q.draftId !in w.flow.byDraft && PostOutcome(w, l', n, reference, r)
    ensures FlowInv(AfterPost(World(l', w.flow, w.owner), q, reference, r, cleanup).0)
  {
    var w' := AfterPost(World(l', w.flow, w.owner), q, reference, r, cleanup).0;
    match r
    case Rejected =>
      CalmAll(w, l', n);
      CalmKeeps(w, w');
    case Ok(NotPosted) =>
      CalmAll(w, l', n);
      CalmKeeps(w, w.(ledger := l'));
      CleanupKeeps(w.(ledger := l'), reference, n, q.draftId, cleanup);
    case Ok(Unknown) => StartsWaiting(w, w', n, q.draftId, reference);
    case Ok(PostedAs(Some(official))) => BecomesSettled(w, w', n, q.draftId, q.unit, official);
    case _ =>
  }

  lemma {:induction false} PostNewKeeps(w: World, q: Request, n: nat, reference: string, o: Weather)
    requires FlowInv(w) && n !in w.owner && q.draftId !in w.flow.pending && q.draftId !in w.flow.byDraft
    requires RowOf(w.ledger, reference) == Some(n)
    requires w.ledger.invoices[n].status.Draft? && w.ledger.invoices[n].officialRef.None? && !w.ledger.invoices[n].uncertain
    ensures FlowInv(PostNew(w, q, n, reference, o).0)
  {
    var l1 := Under(w.ledger, o.post);
    var (l2, r) := PostStep(l1, reference);
    var w2 := w.(owner := w.owner[n := q.draftId]);
    NewOwned(w, n, q.draftId);
    UnderKeepsNames(w.ledger, o.post);
    PostedFresh(l1, reference, n);
    PostKept(l1, reference);
    forall i | i in w2.owner && i != n
      ensures SameMark(w2.ledger, l2, i)
    {
      if i < |l1.invoices| { PostMovesTarget(l1, reference, i); }
    }
    AfterPostKeeps(w2, l2, q, n, reference, r, o.cleanup);
  }

  lemma {:induction false} PostFlowKeeps(w: World, q: Request, o: Weather)
    requires FlowInv(w)
    ensures FlowInv(PostFlow(w, q, o).0)
  {
    if q.allowed && q.draftId !in w.flow.pending && !AlreadyPosted(w.flow, q.draftId) && q.resolves {
      assert q.draftId in w.flow.byDraft ==> SettledDraft(w, q.draftId);
      var n := |w.ledger.invoices|;
      var l0 := Under(w.ledger, o.create);
      UnderKeepsNames(w.ledger, o.create);
      Created(l0, q.command);
      var (l1, created) := CreateStep(l0, q.command);
      var w1 := w.(ledger := l1);
      CalmKeeps(w, w1);
      RowIsUnowned(w, n);
      if created.Ok? {
        PostNewKeeps(w1, q, n, created.value, o);
      }
    }
  }

  lemma {:induction false} RowIsUnowned(w: World, n: nat)
    requires Tracks(w) && n >= |w.ledger.invoices|
    ensures n !in w.owner
  {
    assert n in w.owner ==> OwnedRow(w, n);
  }

  lemma {:induction false} ReconcileCalm(w: World, reference: string)
    requires FlowInv(w)
    ensures FlowInv(w.(ledger := ReconcilePostStep(w.ledger, reference).0))
  {
    ReconcileKeepsMarks(w.ledger, reference);
    CalmKeeps(w, w.(ledger := ReconcilePostStep(w.ledger, reference).0));
  }

  // The workflow gives row n up: the provider said that it was not posted.
  lemma {:induction false} GivesUp(w: World, reference: string, n: nat, d: string, outage: bool)
    requires FlowInv(w) && n in w.owner && w.owner[n] == d && d in w.flow.pending && w.flow.pending[d] == reference
    requires RowOf(w.ledger, reference) == Some(n) && !Numbered(w.ledger, n)
    ensures FlowInv(World(CancelStep(Under(w.ledger, outage), reference).0, w.flow.(pending := w.flow.pending - {d}), w.owner))
  {
    var w' := w.(flow := w.flow.(pending := w.flow.pending - {d}));
    StopsWaiting(w, w', n, d);
    CleanupKeeps(w', reference, n, d, outage);
  }

  lemma {:induction false} ReconcileFlowKeeps(w: World, q: Request, o: Weather)
    requires FlowInv(w)
    ensures FlowInv(ReconcileFlow(w, q, o).0)
  {
    if q.allowed && q.draftId in w.flow.pending {
      var d, reference := q.draftId, w.flow.pending[q.draftId];
      assert PendingDraft(w, d);
      var n := RowOf(w.ledger, reference).value;
      var (l1, r) := ReconcilePostStep(w.ledger, reference);
      var w1 := w.(ledger := l1);
      ReconcileCalm(w, reference);
      ReconcileKeepsMarks(w.ledger, reference);
      ReconcileTells(w.ledger, reference, n);
      AnswerKeeps(w1, q, n, reference, r, o.cleanup);
    }
  }

  // The provider has told about the row the draft waits for.
  lemma {:induction false} AnswerKeeps(w: World, q: Request, n: nat, reference: string, r: Answer<PostAnswer>, cleanup: bool)
    requires FlowInv(w) && n in w.owner && w.owner[n] == q.draftId && q.draftId in w.flow.pending && w.flow.pending[q.draftId] == reference
    requires RowOf(w.ledger, reference) == Some(n) && q.draftId !in w.flow.byDraft && r.Ok? && !r.value.Unknown?
    requires r.value.NotPosted? ==> !Numbered(w.ledger, n)
    requires r.value.PostedAs? ==>
      r.value.reference.Some? && w.ledger.invoices[n].officialRef == r.value.reference && RowOf(w.ledger, r.value.reference.value) == Some(n)
    ensures FlowInv(AfterReconcile(w, q, reference, r, cleanup).0)
  {
    if r.value.NotPosted? {
      GivesUp(w, reference, n, q.draftId, cleanup);
    } else if q.resolves {
      var official := r.value.reference.value;
      BecomesSettled(w, w.(flow := Settle(w.flow, q.draftId, q.unit, official)), n, q.draftId, q.unit, official);
    }
  }

  lemma {:induction false} MarkingKeeps(w: World, official: string)
    requires FlowInv(w) && official in w.flow.posted
    ensures FlowInv(w.(flow := Withdraw(w.flow, official)))
  {
    var w' := w.(flow := Withdraw(w.flow, official));
    forall i | i in w.owner ensures OwnedRow(w', i) { assert OwnedRow(w, i); OwnedStays(w, w', i); }
    forall d | d in w.flow.pending ensures PendingDraft(w', d) { assert PendingDraft(w, d); }
    forall d | d in w.flow.byDraft ensures SettledDraft(w', d) { assert SettledDraft(w, d); }
  }

  lemma {:induction false} CancelledKeeps(w: World, official: string, outage: bool)
    requires FlowInv(w) && official in w.flow.posted
    ensures FlowInv(w.(ledger := CancelStep(Under(w.ledger, outage), official).0))
  {
    var d := w.flow.posted[official].draftId;
    assert SettledDraft(w, d);
    assert d in w.flow.pending ==> PendingDraft(w, d);
    CleanupKeeps(w, official, RowOf(w.ledger, official).value, d, outage);
  }

  lemma {:induction false} CancelFlowForm(w: World, official: string, allowed: bool, outage: bool)
    ensures var w' := CancelFlow(w, official, allowed, outage).0;
      var w1 := w.(ledger := CancelStep(Under(w.ledger, outage), official).0);
      w' == w || (official in w.flow.posted && (w' == w1 || w' == w1.(flow := Withdraw(w1.flow, official))))
  {
  }

  lemma {:induction false} CancelFlowKeeps(w: World, official: string, allowed: bool, outage: bool)
    requires FlowInv(w)
    ensures FlowInv(CancelFlow(w, official, allowed, outage).0)
  {
    CancelFlowForm(w, official, allowed, outage);
    if official in w.flow.posted {
      var w1 := w.(ledger := CancelStep(Under(w.ledger, outage), official).0);
      CancelledKeeps(w, official, outage);
      MarkingKeeps(w1, official);
    }
  }

  // What others do at the provider

  // A row without a number changes, and gets none.
  lemma {:induction false} NoNumberKeeps(w: World, w': World, n: nat)
    requires Tracks(w) && w'.owner == w.owner && w'.flow == w.flow && CalmBut(w, w'.ledger, {n})
    requires n < |w.ledger.invoices| && !Numbered(w.ledger, n) && n < |w'.ledger.invoices| && !Numbered(w'.ledger, n)
    ensures Tracks(w')
  {
    forall i | i in w'.owner ensures OwnedRow(w', i) {
      assert OwnedRow(w, i);
      if i != n { OwnedStays(w, w', i); }
    }
    forall d | d in w'.flow.pending ensures PendingDraft(w', d) {
      assert PendingDraft(w, d);
      HandleStays(w.ledger, w'.ledger, w.flow.pending[d]);
    }
    forall d | d in w'.flow.byDraft ensures SettledDraft(w', d) {
      assert SettledDraft(w, d);
      SettledStays(w, w', d);
    }
  }

  // The invoice a draft waits for is posted.
  lemma {:induction false} AwaitedPosted(w: World, w': World, n: nat, d: string)
    requires Tracks(w) && w'.owner == w.owner && w'.flow == w.flow && CalmBut(w, w'.ledger, {n})
    requires n in w.owner && w.owner[n] == d && PendingAt(w, d, n) && n < |w'.ledger.invoices| && w'.ledger.invoices[n].status.Posted?
    ensures Tracks(w')
  {
    assert PendingDraft(w, d);
    HandleStays(w.ledger, w'.ledger, w.flow.pending[d]);
    Rebuilt(w, w', n, d);
  }

  // The row a post touches keeps its marks unless it is an ordinary draft and no failure without a number is armed.
  lemma {:induction false} PostMarks(l: Ledger, reference: string, n: nat)
    requires SeriesPrefix(l.prefix) && Names(l) && PostTarget(l, reference) == Some(n)
    ensures var l' := PostStep(l, reference).0; var invoice := l.invoices[n];
      && n < |l'.invoices|
      && if !l.outage && invoice.status.Draft? && !invoice.uncertain && (l.failPost.None? || l.failPost == Some(LosePost))
         then Numbered(l', n) && l'.invoices[n].status.Posted?
         else SameMark(l, l', n)
  {
  }

  lemma {:induction false} CalmPost(w: World, reference: string, n: nat)
    requires FlowInv(w) && PostTarget(w.ledger, reference) == Some(n)
    ensures var l' := PostStep(w.ledger, reference).0; Names(l') && CalmBut(w, l', {n})
  {
    var l' := PostStep(w.ledger, reference).0;
    PostKept(w.ledger, reference);
    forall i | i in w.owner && i != n ensures SameMark(w.ledger, l', i) {
      if i < |w.ledger.invoices| { PostMovesTarget(w.ledger, reference, i); }
    }
  }

  lemma {:induction false} OthersPost(w: World, reference: string)
    requires FlowInv(w) && !HarmfulPost(w, reference)
    ensures FlowInv(w.(ledger := PostStep(w.ledger, reference).0))
  {
    var w' := w.(ledger := PostStep(w.ledger, reference).0);
    var row := PostTarget(w.ledger, reference);
    if row.Some? {
      var n := row.value;
      CalmPost(w, reference, n);
      PostMarks(w.ledger, reference, n);
      if SameMark(w.ledger, w'.ledger, n) || n !in w.owner {
        CalmKeeps(w, w');
      } else {
        AwaitedPosted(w, w', n, w.owner[n]);
      }
    }
  }

  lemma {:induction false} HarmfulPostShows(w: World, reference: string)
    requires FlowInv(w) && HarmfulPost(w, reference)
    ensures var w' := w.(ledger := PostStep(w.ledger, reference).0); var n := PostTarget(w.ledger, reference).value;
      Names(w'.ledger) && CalmBut(w, w'.ledger, {n}) && Numbered(w'.ledger, n) && !FlowInv(w')
  {
    var w' := w.(ledger := PostStep(w.ledger, reference).0);
    var n := PostTarget(w.ledger, reference).value;
    var d := w.owner[n];
    CalmPost(w, reference, n);
    PostMarks(w.ledger, reference, n);
    assert RowNamed(w.ledger, n);
    if d in w.flow.byDraft {
      assert SettledDraft(w, d);
      HandleStays(w.ledger, w'.ledger, w.flow.byDraft[d]);
    }
    if d in w.flow.pending {
      assert PendingDraft(w, d);
      HandleStays(w.ledger, w'.ledger, w.flow.pending[d]);
    }
    assert !OwnedRow(w', n);
  }

  lemma {:induction false} CalmCancel(w: World, reference: string, n: nat)
    requires FlowInv(w) && RowOf(w.ledger, reference) == Some(n)
    ensures var l' := CancelStep(w.ledger, reference).0;
      Names(l') && CalmBut(w, l', {n}) && n < |l'.invoices| && l'.invoices[n].officialRef == w.ledger.invoices[n].officialRef
  {
    CancelMovesRow(w.ledger, reference, n);
  }

  lemma {:induction false} OthersCancel(w: World, reference: string)
    requires FlowInv(w) && !HarmfulCancel(w, reference)
    ensures FlowInv(w.(ledger := CancelStep(w.ledger, reference).0))
  {
    var w' := w.(ledger := CancelStep(w.ledger, reference).0);
    var row := RowOf(w.ledger, reference);
    if row.Some? {
      var n := row.value;
      CalmCancel(w, reference, n);
      if SameMark(w.ledger, w'.ledger, n) || n !in w.owner {
        CalmKeeps(w, w');
      } else if Numbered(w.ledger, n) {
        assert OwnedRow(w, n) && RowNamed(w.ledger, n);
        assert w.owner[n] in w.flow.pending ==> PendingDraft(w, w.owner[n]);
        StatusChange(w, w', n, w.owner[n]);
      } else {
        NoNumberKeeps(w, w', n);
      }
    }
  }

  lemma {:induction false} HarmfulCancelShows(w: World, reference: string)
    requires FlowInv(w) && HarmfulCancel(w, reference)
    ensures var w' := w.(ledger := CancelStep(w.ledger, reference).0); var n := RowOf(w.ledger, reference).value;
      && Names(w'.ledger) && CalmBut(w, w'.ledger, {n}) && n < |w'.ledger.invoices| && Numbered(w'.ledger, n)
      && w'.ledger.invoices[n].status.Cancelled? && !FlowInv(w')
  {
    var w' := w.(ledger := CancelStep(w.ledger, reference).0);
    var n := RowOf(w.ledger, reference).value;
    CalmCancel(w, reference, n);
    assert RowNamed(w.ledger, n) && PendingDraft(w, w.owner[n]);
    assert !OwnedRow(w', n);
  }

  lemma {:induction false} OthersAct(w: World, op: Op)
    requires FlowInv(w)
    ensures FlowInv(w.(ledger := Do(w.ledger, op))) <==> !Harmful(w, op)
  {
    match op
    case Post(reference) => if HarmfulPost(w, reference) { HarmfulPostShows(w, reference); } else { OthersPost(w, reference); }
    case Cancel(reference) => if HarmfulCancel(w, reference) { HarmfulCancelShows(w, reference); } else { OthersCancel(w, reference); }
    case Create(draft) =>
      Created(w.ledger, draft);
      CalmKeeps(w, w.(ledger := CreateStep(w.ledger, draft).0));
    case _ =>
      MoneyKeepsMarks(w.ledger, op);
      DoContinues(w.ledger, op);
      CalmKeeps(w, w.(ledger := Do(w.ledger, op)));
  }

  lemma {:induction false} ActKeeps(w: World, a: Action)
    requires FlowInv(w) && Proper(w, a)
    ensures FlowInv(Act(w, a))
  {
    match a
    case PostDraft(q, o) => PostFlowKeeps(w, q, o);
    case Reconcile(q, o) => ReconcileFlowKeeps(w, q, o);
    case CancelPosted(official, allowed, outage) => CancelFlowKeeps(w, official, allowed, outage);
    case AtProvider(op) => OthersAct(w, op);
  }

  lemma {:induction false} RunFlowKeeps(w: World, actions: seq<Action>)
    requires FlowInv(w) && ProperRun(w, actions)
    ensures FlowInv(RunFlow(w, actions))
  {
    if actions != [] {
      RunFlowKeeps(w, actions[..|actions| - 1]);
      ActKeeps(RunFlow(w, actions[..|actions| - 1]), actions[|actions| - 1]);
    }
  }

  // Over every run of posts, reconciliations and cancellations, with any outcome, outage and provider activity that
  // leaves the workflow's own invoices to it: of the provider invoices created for a draft at most one ever gets an
  // official number, and while the draft is pending only the invoice it waits for can have one.
  lemma {:induction false} OneOfficialPerDraft(prefix: string, first: nat, actions: seq<Action>, i: nat, j: nat)
    requires SeriesPrefix(prefix) && ProperRun(StartFlow(prefix, first), actions)
    requires var w := RunFlow(StartFlow(prefix, first), actions);
      i in w.owner && j in w.owner && w.owner[i] == w.owner[j]
    ensures var w := RunFlow(StartFlow(prefix, first), actions);
      && i < |w.ledger.invoices| && j < |w.ledger.invoices|
      && (Numbered(w.ledger, i) && Numbered(w.ledger, j) ==> i == j)
      && (w.owner[i] in w.flow.pending && Numbered(w.ledger, i) ==> RowOf(w.ledger, w.flow.pending[w.owner[i]]) == Some(i))
  {
    RunFlowKeeps(StartFlow(prefix, first), actions);
    var w := RunFlow(StartFlow(prefix, first), actions);
    var d := w.owner[i];
    assert OwnedRow(w, i) && OwnedRow(w, j);
    assert d in w.flow.pending ==> PendingDraft(w, d);
  }

  // A draft the workflow reports as posted stands behind exactly the number it reported.
  lemma {:induction false} PostedDraftHasItsNumber(prefix: string, first: nat, actions: seq<Action>, d: string)
    requires SeriesPrefix(prefix) && ProperRun(StartFlow(prefix, first), actions)
    requires d in RunFlow(StartFlow(prefix, first), actions).flow.byDraft
    ensures var w := RunFlow(StartFlow(prefix, first), actions); var official := w.flow.byDraft[d]; var row := RowOf(w.ledger, official);
      && d !in w.flow.pending
      && row.Some? && row.value in w.owner && w.owner[row.value] == d && w.ledger.invoices[row.value].officialRef == Some(official)
  {
    RunFlowKeeps(StartFlow(prefix, first), actions);
    var w := RunFlow(StartFlow(prefix, first), actions);
    assert SettledDraft(w, d);
    assert d in w.flow.pending ==> PendingDraft(w, d);
  }

  // When somebody else at the provider does harm

  const FAIR: Weather := Weather(false, false, false)

  // Two provider invoices of one draft have numbers.
  predicate Twice(w: World, i: nat, j: nat) {
    && i in w.owner && j in w.owner && w.owner[i] == w.owner[j] && i < j < |w.ledger.invoices|
    && Numbered(w.ledger, i) && Numbered(w.ledger, j)
  }

  ghost predicate TwoNumbers(w: World) {
    exists i, j :: Twice(w, i, j)
  }

  // A request that passes every check.
  predicate GoodRequest(q: Request) {
    q.allowed && q.resolves && GoodDraft(q.command)
  }

  // Row n of the draft has a number, though the workflow neither waits for it nor knows it.
  ghost predicate Betrayed(w: World, d: string, n: nat) {
    && SeriesPrefix(w.ledger.prefix) && Names(w.ledger) && w.ledger.failPost.None?
    && n in w.owner && w.owner[n] == d && n < |w.ledger.invoices| && Numbered(w.ledger, n)
    && d !in w.flow.byDraft
  }

  // An undisturbed post of a good draft issues a number for a new row.
  lemma {:induction false} PostsAnew(w: World, q: Request, n: nat)
    requires Betrayed(w, q.draftId, n) && q.draftId !in w.flow.pending && GoodRequest(q)
    ensures TwoNumbers(Act(w, PostDraft(q, FAIR)))
  {
    var w', m := PostFlow(w, q, FAIR).0, |w.ledger.invoices|;
    var l0 := Under(w.ledger, false);
    UnderKeepsNames(w.ledger, false);
    Created(l0, q.command);
    var (l1, created) := CreateStep(l0, q.command);
    assert RowOf(Under(l1, false), created.value) == Some(m);
    assert w'.owner == w.owner[m := q.draftId] && Numbered(w'.ledger, m) && w'.ledger.invoices[n] == w.ledger.invoices[n];
    assert Twice(w', n, m);
  }

  // A draft whose awaited invoice is not posted, or no longer, is answered as not posted.
  lemma {:induction false} Misclassified(w: World, q: Request, n: nat, k: nat)
    requires Betrayed(w, q.draftId, n) && q.allowed && PendingAt(w, q.draftId, k) && !w.ledger.invoices[k].status.Posted?
    ensures var w' := Act(w, Reconcile(q, FAIR)); Betrayed(w', q.draftId, n) && q.draftId !in w'.flow.pending
  {
    var reference := w.flow.pending[q.draftId];
    var l1 := ReconcilePostStep(w.ledger, reference).0;
    ReconcileKeepsMarks(w.ledger, reference);
    UnderKeepsNames(l1, false);
    CancelFrame(Under(l1, false), reference);
    SameNamesKeepNames(Under(l1, false), CancelStep(Under(l1, false), reference).0);
  }

  lemma {:induction false} OneMore(w: World, actions: seq<Action>, a: Action)
    ensures RunFlow(w, actions + [a]) == Act(RunFlow(w, actions), a)
    ensures ProperRun(w, actions + [a]) <==> ProperRun(w, actions) && Proper(RunFlow(w, actions), a)
  {
    assert (actions + [a])[..|actions|] == actions;
  }

  function Restored(w: World): World {
    Act(w, AtProvider(FailNextPost(None)))
  }

  lemma {:induction false} RestoredBetrayed(w: World, d: string, n: nat)
    requires SeriesPrefix(w.ledger.prefix) && Names(w.ledger) && n in w.owner && w.owner[n] == d
    requires n < |w.ledger.invoices| && Numbered(w.ledger, n) && d !in w.flow.byDraft
    ensures Betrayed(Restored(w), d, n)
  {
    SameNamesKeepNames(w.ledger, Restored(w).ledger);
  }

  // Two or three actions, none of others at the provider but the first.
  lemma {:induction false} RunTwo(w: World, a: Action, b: Action)
    requires Proper(w, a) && !b.AtProvider?
    ensures RunFlow(w, [a, b]) == Act(Act(w, a), b) && ProperRun(w, [a, b])
  {
    OneMore(w, [], a);
    OneMore(w, [a], b);
    assert [] + [a] == [a] && [a] + [b] == [a, b];
  }

  lemma {:induction false} RunThree(w: World, a: Action, b: Action, c: Action)
    requires Proper(w, a) && !b.AtProvider? && !c.AtProvider?
    ensures RunFlow(w, [a, b, c]) == Act(Act(Act(w, a), b), c) && ProperRun(w, [a, b, c])
  {
    RunTwo(w, a, b);
    OneMore(w, [a, b], c);
    assert [a, b] + [c] == [a, b, c];
  }

  // From there the workflow's own commands lead to a second number.
  lemma {:induction false} BetrayedLeadsToTwo(w: World, q: Request, n: nat) returns (actions: seq<Action>)
    requires Betrayed(Restored(w), q.draftId, n) && GoodRequest(q)
    requires q.draftId in w.flow.pending ==>
      exists k: nat :: k < |w.ledger.invoices| && PendingAt(w, q.draftId, k) && !w.ledger.invoices[k].status.Posted?
    ensures ProperRun(w, actions) && TwoNumbers(RunFlow(w, actions))
  {
    var w1, restore := Restored(w), AtProvider(FailNextPost(None));
    if q.draftId in w.flow.pending {
      var k: nat :| k < |w.ledger.invoices| && PendingAt(w, q.draftId, k) && !w.ledger.invoices[k].status.Posted?;
      Misclassified(w1, q, n, k);
      PostsAnew(Act(w1, Reconcile(q, FAIR)), q, n);
      RunThree(w, restore, Reconcile(q, FAIR), PostDraft(q, FAIR));
      actions := [restore, Reconcile(q, FAIR), PostDraft(q, FAIR)];
    } else {
      PostsAnew(w1, q, n);
      RunTwo(w, restore, PostDraft(q, FAIR));
      actions := [restore, PostDraft(q, FAIR)];
    }
  }

  // Two numbers at once: the harmful post, and the invoice the draft was settled with or waits for.
  lemma {:induction false} TwoAtOnce(w: World, n: nat, k: nat)
    requires n in w.owner && k in w.owner && w.owner[n] == w.owner[k] && n != k
    requires n < |w.ledger.invoices| && k < |w.ledger.invoices| && Numbered(w.ledger, n) && Numbered(w.ledger, k)
    ensures ProperRun(w, []) && TwoNumbers(RunFlow(w, []))
  {
    assert Twice(w, n, k) || Twice(w, k, n);
  }

  // The draft still waits for the invoice that was cancelled.
  lemma {:induction false} CancelBetrays(w: World, reference: string, d: string)
    requires FlowInv(w) && HarmfulCancel(w, reference) && d == w.owner[RowOf(w.ledger, reference).value]
    ensures var w1 := w.(ledger := CancelStep(w.ledger, reference).0); var n := RowOf(w.ledger, reference).value;
      && Betrayed(Restored(w1), d, n)
      && n < |w1.ledger.invoices| && PendingAt(w1, d, n) && !w1.ledger.invoices[n].status.Posted?
  {
    var w1, n := w.(ledger := CancelStep(w.ledger, reference).0), RowOf(w.ledger, reference).value;
    HarmfulCancelShows(w, reference);
    assert PendingDraft(w, d);
    RestoredBetrayed(w1, d, n);
    HandleStays(w.ledger, w1.ledger, w.flow.pending[d]);
  }

  lemma {:induction false} CancelHarms(w: World, reference: string, q: Request) returns (actions: seq<Action>)
    requires FlowInv(w) && HarmfulCancel(w, reference) && GoodRequest(q) && q.draftId == w.owner[RowOf(w.ledger, reference).value]
    ensures var w1 := Act(w, AtProvider(Cancel(reference))); ProperRun(w1, actions) && TwoNumbers(RunFlow(w1, actions))
  {
    var w1, n := Act(w, AtProvider(Cancel(reference))), RowOf(w.ledger, reference).value;
    CancelBetrays(w, reference, q.draftId);
    actions := BetrayedLeadsToTwo(w1, q, n);
  }

  // What a harmful post leaves of the rest of the draft's state.
  lemma {:induction false} PostBetrays(w: World, reference: string, d: string)
    requires FlowInv(w) && HarmfulPost(w, reference) && d == w.owner[PostTarget(w.ledger, reference).value]
    ensures var w1 := w.(ledger := PostStep(w.ledger, reference).0); var n := PostTarget(w.ledger, reference).value;
      && CalmBut(w, w1.ledger, {n})
      && n < |w1.ledger.invoices| && Numbered(w1.ledger, n) && !Numbered(w.ledger, n)
      && (d !in w.flow.byDraft ==> Betrayed(Restored(w1), d, n))
  {
    var w1, n := w.(ledger := PostStep(w.ledger, reference).0), PostTarget(w.ledger, reference).value;
    HarmfulPostShows(w, reference);
    assert RowNamed(w.ledger, n);
    if d !in w.flow.byDraft {
      RestoredBetrayed(w1, d, n);
    }
  }

  lemma {:induction false} PostOfSettled(w: World, reference: string, d: string)
    requires FlowInv(w) && HarmfulPost(w, reference) && d == w.owner[PostTarget(w.ledger, reference).value] && d in w.flow.byDraft
    ensures var w1 := Act(w, AtProvider(Post(reference))); ProperRun(w1, []) && TwoNumbers(RunFlow(w1, []))
  {
    PostBetrays(w, reference, d);
    var w1, n := Act(w, AtProvider(Post(reference))), PostTarget(w.ledger, reference).value;
    assert SettledDraft(w, d);
    var k := RowOf(w.ledger, w.flow.byDraft[d]).value;
    assert SameMark(w.ledger, w1.ledger, k);
    TwoAtOnce(w1, n, k);
  }

  // The pending draft's row, after a change at the provider that keeps handles.
  lemma {:induction false} WaitsFor(w: World, w1: World, n: nat, d: string) returns (k: nat)
    requires FlowInv(w) && d in w.flow.pending && w1.flow == w.flow && w1.owner == w.owner && CalmBut(w, w1.ledger, {n})
    ensures k < |w.ledger.invoices| && k < |w1.ledger.invoices| && k in w.owner && w.owner[k] == d && PendingAt(w, d, k) && PendingAt(w1, d, k)
    ensures k != n ==> SameMark(w.ledger, w1.ledger, k)
    ensures w.ledger.invoices[k].status.Posted? ==> Numbered(w.ledger, k)
  {
    assert PendingDraft(w, d);
    HandleStays(w.ledger, w1.ledger, w.flow.pending[d]);
    k := RowOf(w.ledger, w.flow.pending[d]).value;
    assert RowNamed(w.ledger, k);
  }

  lemma {:induction false} PostOfWaiting(w: World, reference: string, q: Request) returns (actions: seq<Action>)
    requires FlowInv(w) && HarmfulPost(w, reference) && GoodRequest(q) && q.draftId == w.owner[PostTarget(w.ledger, reference).value]
    requires q.draftId in w.flow.pending
    ensures var w1 := Act(w, AtProvider(Post(reference))); ProperRun(w1, actions) && TwoNumbers(RunFlow(w1, actions))
  {
    var d := q.draftId;
    PostBetrays(w, reference, d);
    var w1, n := Act(w, AtProvider(Post(reference))), PostTarget(w.ledger, reference).value;
    var k := WaitsFor(w, w1, n, d);
    if w.ledger.invoices[k].status.Posted? {
      TwoAtOnce(w1, n, k);
      actions := [];
    } else {
      actions := BetrayedLeadsToTwo(w1, q, n);
    }
  }

  lemma {:induction false} PostHarms(w: World, reference: string, q: Request) returns (actions: seq<Action>)
    requires FlowInv(w) && HarmfulPost(w, reference) && GoodRequest(q) && q.draftId == w.owner[PostTarget(w.ledger, reference).value]
    ensures var w1 := Act(w, AtProvider(Post(reference))); ProperRun(w1, actions) && TwoNumbers(RunFlow(w1, actions))
  {
    if q.draftId in w.flow.byDraft {
      PostOfSettled(w, reference, q.draftId);
      actions := [];
    } else if q.draftId in w.flow.pending {
      actions := PostOfWaiting(w, reference, q);
    } else {
      PostBetrays(w, reference, q.draftId);
      actions := BetrayedLeadsToTwo(Act(w, AtProvider(Post(reference))), q, PostTarget(w.ledger, reference).value);
    }
  }

  lemma {:induction false} SafeHasOneNumber(w: World)
    requires FlowInv(w)
    ensures !TwoNumbers(w)
  {
    forall i, j | i in w.owner && j in w.owner
      ensures !Twice(w, i, j)
    {
      assert OwnedRow(w, i) && OwnedRow(w, j);
      assert w.owner[i] in w.flow.pending ==> PendingDraft(w, w.owner[i]);
    }
  }

  lemma {:induction false} Harms(w: World, op: Op) returns (actions: seq<Action>)
    requires FlowInv(w) && Harmful(w, op)
    ensures var w1 := Act(w, AtProvider(op)); ProperRun(w1, actions) && TwoNumbers(RunFlow(w1, actions))
  {
    PlainIsGood();
    match op
    case Cancel(reference) =>
      actions := CancelHarms(w, reference, Request(w.owner[RowOf(w.ledger, reference).value], "u", true, true, PLAIN));
    case Post(reference) =>
      actions := PostHarms(w, reference, Request(w.owner[PostTarget(w.ledger, reference).value], "u", true, true, PLAIN));
  }

  // No continuation that respects the rule for others gives a draft two numbers.
  ghost predicate SafeFrom(w: World) {
    forall actions :: ProperRun(w, actions) ==> !TwoNumbers(RunFlow(w, actions))
  }

  lemma {:induction false} SoundIsSafe(w: World)
    requires FlowInv(w)
    ensures SafeFrom(w)
  {
    forall actions | ProperRun(w, actions) ensures !TwoNumbers(RunFlow(w, actions)) {
      RunFlowKeeps(w, actions);
      SafeHasOneNumber(RunFlow(w, actions));
    }
  }

  // One operation of somebody else, in any state the workflow is sound in: it stays sound, and no proper continuation
  // gives a draft two numbers, exactly if the operation neither cancels the posted invoice a draft waits for, nor
  // posts an invoice of the workflow that its draft does not wait for.
  lemma {:induction false} HarmExactly(w: World, op: Op)
    requires FlowInv(w)
    ensures FlowInv(Act(w, AtProvider(op))) <==> !Harmful(w, op)
    ensures SafeFrom(Act(w, AtProvider(op))) <==> !Harmful(w, op)
  {
    OthersAct(w, op);
    if Harmful(w, op) {
      var actions := Harms(w, op);
    } else {
      SoundIsSafe(Act(w, AtProvider(op)));
    }
  }

  // Both kinds of harm are reachable.

  lemma {:induction false} StartIsSound(prefix: string, first: nat)
    requires SeriesPrefix(prefix)
    ensures FlowInv(StartFlow(prefix, first))
  {
  }

  function FirstPost(mode: PostFailure, q: Request, o: Weather): seq<Action> {
    [AtProvider(FailNextPost(Some(mode))), PostDraft(q, o)]
  }

  function Armed(prefix: string, first: nat, mode: PostFailure): World {
    var w := StartFlow(prefix, first);
    w.(ledger := w.ledger.(failPost := Some(mode)))
  }

  lemma {:induction false} FirstPostEnds(prefix: string, first: nat, mode: PostFailure, q: Request, o: Weather)
    requires SeriesPrefix(prefix)
    ensures var w0 := StartFlow(prefix, first); var w := RunFlow(w0, FirstPost(mode, q, o));
      FlowInv(w) && ProperRun(w0, FirstPost(mode, q, o)) && w == Act(Armed(prefix, first, mode), PostDraft(q, o))
  {
    var w0 := StartFlow(prefix, first);
    var arm := AtProvider(FailNextPost(Some(mode)));
    assert Act(w0, arm) == Armed(prefix, first, mode);
    RunTwo(w0, arm, PostDraft(q, o));
    StartIsSound(prefix, first);
    RunFlowKeeps(w0, [arm, PostDraft(q, o)]);
  }

  // The provider's ledger after the first draft.
  lemma {:induction false} FirstDraft(prefix: string, first: nat, mode: PostFailure, q: Request)
    requires GoodRequest(q)
    ensures var l := Armed(prefix, first, mode).ledger; var (l1, created) := CreateStep(Under(l, false), q.command);
      && created == Ok(Tag("DRAFT", 1)) && l1.prefix == prefix && l1.sequence == first
      && l1.failPost == Some(mode) && !l1.outage && |l1.invoices| == 1 && l1.payments == []
      && l1.invoices[0].status.Draft? && !l1.invoices[0].uncertain && RowOf(l1, Tag("DRAFT", 1)) == Some(0)
  {
  }

  lemma {:induction false} LostFirst(prefix: string, first: nat, q: Request)
    requires SeriesPrefix(prefix) && GoodRequest(q)
    ensures var w := Act(Armed(prefix, first, LosePost), PostDraft(q, FAIR));
      HarmfulCancel(w, Tag("DRAFT", 1)) && w.owner == map[0 := q.draftId] && RowOf(w.ledger, Tag("DRAFT", 1)) == Some(0)
  {
    FirstDraft(prefix, first, LosePost, q);
    assert '-' in "-" && Tag(prefix, first)[|prefix|] == '-';
    if Tag(prefix, first) == Tag("DRAFT", 1) {
      TagInjective(prefix, first, "DRAFT", 1);
    }
  }

  lemma {:induction false} RejectedFirst(prefix: string, first: nat, q: Request, o: Weather)
    requires GoodRequest(q) && o == Weather(false, false, true)
    ensures var w := Act(Armed(prefix, first, RejectPost), PostDraft(q, o)); var w1 := w.(ledger := w.ledger.(outage := false));
      HarmfulPost(w1, Tag("DRAFT", 1)) && w1.owner == map[0 := q.draftId] && PostTarget(w1.ledger, Tag("DRAFT", 1)) == Some(0)
  {
    FirstDraft(prefix, first, RejectPost, q);
  }

  // The answer of the first post is lost, and somebody cancels the invoice the draft now waits for: the workflow
  // takes it for not posted, and posting again gives the draft a second number.
  lemma {:induction false} CancelBehindTheBack(prefix: string, first: nat, q: Request) returns (more: seq<Action>)
    requires SeriesPrefix(prefix) && GoodRequest(q)
    ensures var w0 := StartFlow(prefix, first); var actions := FirstPost(LosePost, q, FAIR); var w := RunFlow(w0, actions);
      var w1 := Act(w, AtProvider(Cancel(Tag("DRAFT", 1))));
      && ProperRun(w0, actions) && Harmful(w, Cancel(Tag("DRAFT", 1)))
      && ProperRun(w1, more) && TwoNumbers(RunFlow(w1, more))
  {
    FirstPostEnds(prefix, first, LosePost, q, FAIR);
    LostFirst(prefix, first, q);
    more := CancelHarms(RunFlow(StartFlow(prefix, first), FirstPost(LosePost, q, FAIR)), Tag("DRAFT", 1), q);
  }

  const STORMY: Weather := Weather(false, false, true)

  function RejectedRun(q: Request): seq<Action> {
    FirstPost(RejectPost, q, STORMY) + [AtProvider(SimulateOutage(false))]
  }

  lemma {:induction false} OutageAfter(w0: World, front: seq<Action>, outage: bool)
    requires FlowInv(RunFlow(w0, front)) && ProperRun(w0, front)
    ensures var w, actions := RunFlow(w0, front), front + [AtProvider(SimulateOutage(outage))];
      && RunFlow(w0, actions) == w.(ledger := w.ledger.(outage := outage)) && ProperRun(w0, actions) && FlowInv(RunFlow(w0, actions))
  {
    OneMore(w0, front, AtProvider(SimulateOutage(outage)));
    OthersAct(RunFlow(w0, front), SimulateOutage(outage));
  }

  lemma {:induction false} RejectedRunEnds(prefix: string, first: nat, q: Request)
    requires SeriesPrefix(prefix)
    ensures var w0 := StartFlow(prefix, first); var w := Act(Armed(prefix, first, RejectPost), PostDraft(q, STORMY));
      && RunFlow(w0, RejectedRun(q)) == w.(ledger := w.ledger.(outage := false)) && ProperRun(w0, RejectedRun(q))
      && FlowInv(RunFlow(w0, RejectedRun(q)))
  {
    var w0, front := StartFlow(prefix, first), FirstPost(RejectPost, q, STORMY);
    FirstPostEnds(prefix, first, RejectPost, q, STORMY);
    OutageAfter(w0, front, false);
  }

  // The first post is rejected and its draft at the provider cannot be cleaned up; somebody posts that one, and
  // posting again gives the draft a second number.
  lemma {:induction false} PostBehindTheBack(prefix: string, first: nat, q: Request) returns (more: seq<Action>)
    requires SeriesPrefix(prefix) && GoodRequest(q)
    ensures var w0 := StartFlow(prefix, first); var w := RunFlow(w0, RejectedRun(q));
      var w1 := Act(w, AtProvider(Post(Tag("DRAFT", 1))));
      && ProperRun(w0, RejectedRun(q)) && Harmful(w, Post(Tag("DRAFT", 1)))
      && ProperRun(w1, more) && TwoNumbers(RunFlow(w1, more))
  {
    RejectedRunEnds(prefix, first, q);
    RejectedFirst(prefix, first, q, STORMY);
    more := PostHarms(RunFlow(StartFlow(prefix, first), RejectedRun(q)), Tag("DRAFT", 1), q);
  }
}
