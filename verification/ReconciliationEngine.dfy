/**
  The reconciliation engine (src/reconciliation/engine.py): classification of a queue item by what the
  provider does when it is asked, bounded retry and escalation, and what draining a queue ends in. Every call
  of the engine takes as a value what the provider does: answer, reject, or raise something else.
 */
module ReconciliationEngine {
  import opened Wrappers
  import opened References
  import opened ReconciliationQueue
  import QR = QueueRuns

  // What one call of the provider does: it answers, raises DocumentRejected, or raises any other exception.
  datatype Reply<+T> = Answers(value: T) | Rejects | Fails

  datatype Provider = Provider(
    post: Reply<PostAnswer>,
    index: Reply<set<string>>,
    payment: Reply<string>,
    ping: Reply<bool>)

  // The outcome of reconcile_post: posted, with the reference it names, or anything else.
  datatype PostAnswer = Posted(reference: string) | NotPosted

  // Escapes stands for an exception other than DocumentRejected.
  datatype Verdict = Classified(classification: Class, reference: Option<string>) | ReadBackRejected | UnknownKind | Escapes

  function ClassifyPost(p: Provider): Verdict {
    match p.post
    case Fails => Escapes
    case Rejects => ReadBackRejected
    case Answers(NotPosted) => Classified(Absent, None)
    case Answers(Posted(reference)) =>
      if reference == "" then Classified(Absent, None)
      else
        match p.index
        case Fails => Escapes
        case Rejects => ReadBackRejected
        case Answers(references) =>
          if reference in references then Classified(Present, Some(reference)) else Classified(Ambiguous, None)
  }

  function ClassifyPayment(p: Provider): Verdict {
    match p.payment
    case Fails => Escapes
    case Rejects => Classified(Absent, None)
    case Answers(reference) => Classified(Present, Some(reference))
  }

  const INVOICE_POST: string := "INVOICE_POST"
  const PAYMENT_RECORD: string := "PAYMENT_RECORD"

  predicate KnownKind(kind: string) {
    kind == INVOICE_POST || kind == PAYMENT_RECORD
  }

  function Classify(kind: string, p: Provider): Verdict {
    if kind == INVOICE_POST then ClassifyPost(p)
    else if kind == PAYMENT_RECORD then ClassifyPayment(p)
    else UnknownKind
  }

  // How the engine completes a classification.
  datatype Completion = Completion(classification: Class, next: ItemStatus, resolution: Option<string>, reason: Option<string>)

  const CONTRADICTS: string := "provider state contradicts itself; operator review required"
  const REJECTED: string := "read-back rejected by reachable provider; operator review required"
  const EXHAUSTED: string := "provider unavailable"

  // UNAVAILABLE is requeued while attempts are left, then escalated.
  function Unreachable(attempts: nat, max: nat): Completion {
    if attempts + 1 < max then Completion(Unavailable, Pending, None, None)
    else Completion(Unavailable, Escalated, None, Some(EXHAUSTED))
  }

  // None: an exception leaves the engine before any completion. Only a rejected read-back asks for a ping.
  function Complete(v: Verdict, p: Provider, attempts: nat, max: nat): Option<Completion> {
    match v
    case ReadBackRejected =>
      (match p.ping
       case Answers(reachable) => Some(if reachable then Completion(Ambiguous, Escalated, None, Some(REJECTED)) else Unreachable(attempts, max))
       case _ => None)
    case Classified(Present, reference) => Some(Completion(Present, Resolved, reference, None))
    case Classified(Absent, _) => Some(Completion(Absent, SafeRetryable, None, None))
    case Classified(Ambiguous, _) => Some(Completion(Ambiguous, Escalated, None, Some(CONTRADICTS)))
    case Classified(Unavailable, _) => Some(Unreachable(attempts, max))
    case UnknownKind => None
    case Escapes => None
  }

  // A call of the engine returns or refuses as the queue does, or lets an exception of the provider through.
  datatype Outcome = Answered(answer: Answer) | Escaped

  function ClassifyItemStep(env: Env, q: Queue, max: nat, id: string, token: int, p: Provider, now: int): (Queue, Outcome) {
    if id !in q.items then (q, Answered(Err(InvalidTransition)))
    else
      var item := q.items[id];
      var v := Classify(item.kind, p);
      match Complete(v, p, item.attempts, max)
      case None => (q, if v.UnknownKind? then Answered(Err(InvalidTransition)) else Escaped)
      case Some(c) =>
        var (q', answer) := CompleteStep(env, q, id, token, c.classification, c.next, c.resolution, c.reason, now);
        (q', Answered(answer))
  }

  function ClassifyNextStep(env: Env, q: Queue, max: nat, token: int, p: Provider, now: int): (Queue, Outcome) {
    var (q1, claim) := ClaimNextStep(env, q, token, now);
    if claim.Ok? then ClassifyItemStep(env, q1, max, claim.item.id, token, p, now) else (q1, Answered(claim))
  }

  // One classification

  // The provider names an official reference of the draft.
  predicate Names(p: Provider) {
    p.post.Answers? && p.post.value.Posted? && p.post.value.reference != ""
  }

  // It answers, and has no such document.
  predicate Lacks(kind: string, p: Provider) {
    if kind == INVOICE_POST then p.post.Answers? && !Names(p) else kind == PAYMENT_RECORD && p.payment.Rejects?
  }

  // Something the engine does not catch is raised: by a call it makes for the kind, or by the ping after a rejection.
  predicate Throws(kind: string, p: Provider) {
    if kind == INVOICE_POST then
      || p.post.Fails?
      || (Names(p) && p.index.Fails?)
      || ((p.post.Rejects? || (Names(p) && p.index.Rejects?)) && !p.ping.Answers?)
    else kind == PAYMENT_RECORD && p.payment.Fails?
  }

  // The item is classified to the end, once claimed under this token.
  predicate Served(item: Item, token: int, p: Provider) {
    && KnownKind(item.kind) && !Throws(item.kind, p) && token > 0
    && !(Lacks(item.kind, p) && item.escalatedFrom == Some(Ambiguous))
  }

  function ClaimedItem(item: Item, token: int, now: int): Item {
    item.(status := Classifying, token := token, updatedAt := now)
  }

  // What the item looks like after the claim and the completion.
  function Settled(item: Item, c: Completion, token: int, now: int): Item {
    CompletedItem(ClaimedItem(item, token, now), c.classification, c.next, c.resolution, c.reason, now)
  }

  lemma {:induction false} ClaimsOldest(env: Env, q: Queue, token: int, now: int)
    requires QR.Shape(q)
    ensures var best := Oldest(q.items, q.order); var (q1, claim) := ClaimNextStep(env, q, token, now);
      && (best.None? ==> q1 == q && claim == Nothing)
      && (best.Some? ==>
            && best.value in q.items && q.items[best.value].status.Pending?
            && claim == Ok(ClaimedItem(q.items[best.value], token, now))
            && claim.item.id == best.value
            && q1.items == q.items[best.value := claim.item] && q1.order == q.order)
  {
    QR.OldestIsOldest(q.items, q.order);
  }

  lemma {:induction false} ServedCompletes(item: Item, token: int, p: Provider, max: nat)
    requires item.status.Classifying? && item.token == token
    ensures var c := Complete(Classify(item.kind, p), p, item.attempts, max);
      Served(item, token, p) <==> c.Some? && CompletionRefusal(item, token, c.value.classification, c.value.next).None?
  {
  }

  // What becomes of the oldest pending item.
  lemma {:induction false} ClassifyNextForm(env: Env, q: Queue, max: nat, token: int, p: Provider, now: int, id: string)
    requires QR.Shape(q) && Oldest(q.items, q.order) == Some(id)
    ensures id in q.items
    ensures var item := q.items[id]; var c := Complete(Classify(item.kind, p), p, item.attempts, max);
      var (q', outcome) := ClassifyNextStep(env, q, max, token, p, now);
      && q'.order == q.order
      && (!Served(item, token, p) ==>
            q'.items == q.items[id := ClaimedItem(item, token, now)] && !(outcome.Answered? && outcome.answer.Ok?))
      && (Served(item, token, p) ==>
            c.Some? && q'.items == q.items[id := Settled(item, c.value, token, now)] && outcome == Answered(Ok(q'.items[id])))
  {
    ClaimsOldest(env, q, token, now);
    var item := q.items[id];
    var claimed := ClaimedItem(item, token, now);
    var (q1, claim) := ClaimNextStep(env, q, token, now);
    assert q1.items[id] == claimed && q1.items[id := claimed] == q1.items;
    ServedCompletes(claimed, token, p, max);
    var c := Complete(Classify(item.kind, p), p, item.attempts, max);
    if c.Some? {
      assert q.items[id := claimed][id := Settled(item, c.value, token, now)] == q.items[id := Settled(item, c.value, token, now)];
    }
  }

  lemma {:induction false} EscapesExactly(env: Env, q: Queue, max: nat, token: int, p: Provider, now: int, id: string)
    requires QR.Shape(q) && Oldest(q.items, q.order) == Some(id) && id in q.items
    ensures ClassifyNextStep(env, q, max, token, p, now).1.Escaped? <==> Throws(q.items[id].kind, p)
  {
    ClaimsOldest(env, q, token, now);
  }

  // A completion never leaves the item in CLASSIFYING.
  lemma {:induction false} SettledLeaves(item: Item, p: Provider, max: nat, token: int, now: int)
    ensures var c := Complete(Classify(item.kind, p), p, item.attempts, max);
      c.Some? ==> !Settled(item, c.value, token, now).status.Classifying?
  {
  }

  // classify_next leaves the item it claims in CLASSIFYING exactly when its kind is unknown, the provider raises
  // something other than DocumentRejected, the token is not positive, or the document is absent although the item was
  // last escalated as AMBIGUOUS; then nothing is returned, and the item stays claimed.
  lemma {:induction false} StuckExactly(env: Env, q: Queue, max: nat, token: int, p: Provider, now: int, id: string)
    requires QR.Shape(q) && Oldest(q.items, q.order) == Some(id)
    ensures id in q.items
    ensures var item := q.items[id]; var (q', outcome) := ClassifyNextStep(env, q, max, token, p, now);
      && id in q'.items
      && (q'.items[id].status.Classifying? <==>
            || !KnownKind(item.kind)
            || Throws(item.kind, p)
            || token <= 0
            || (Lacks(item.kind, p) && item.escalatedFrom == Some(Ambiguous)))
      && (outcome == Answered(Ok(q'.items[id])) <==> !q'.items[id].status.Classifying?)
      && (outcome.Escaped? <==> Throws(item.kind, p))
  {
    ClassifyNextForm(env, q, max, token, p, now, id);
    EscapesExactly(env, q, max, token, p, now, id);
    SettledLeaves(q.items[id], p, max, token, now);
  }

  // Draining: one classify_next after another, with any tokens, whatever the provider does

  datatype Call = Call(token: int, provider: Provider, now: int)

  function DrainStep(env: Env, q: Queue, max: nat, c: Call): Queue {
    ClassifyNextStep(env, q, max, c.token, c.provider, c.now).0
  }

  function Drain(env: Env, q: Queue, max: nat, calls: seq<Call>): Queue {
    if calls == [] then q else DrainStep(env, Drain(env, q, max, calls[..|calls| - 1]), max, calls[|calls| - 1])
  }

  // Call i claims the item and does not serve it.
  predicate Strands(env: Env, q: Queue, max: nat, calls: seq<Call>, i: nat, id: string)
    requires i < |calls|
  {
    var m := Drain(env, q, max, calls[..i]);
    Oldest(m.items, m.order) == Some(id) && id in m.items && !Served(m.items[id], calls[i].token, calls[i].provider)
  }

  // Filling: items are enqueued, of any kinds, and nothing else happens.
  datatype Filling = Filling(intent: string, kind: string, anchor: string, now: int)

  function Fill(env: Env, fs: seq<Filling>): Queue {
    if fs == [] then EMPTY_QUEUE
    else
      var f := fs[|fs| - 1];
      EnqueueStep(env, Fill(env, fs[..|fs| - 1]), f.intent, f.kind, f.anchor, f.now).0
  }

  // An item of a queue that was filled and is being drained.
  predicate Drainable(item: Item, max: nat) {
    match item.status
    case Pending => item.attempts < max && item.escalatedFrom.None?
    case Classifying => true
    case Resolved => item.lastClass == Some(Present) && item.resolution.Some?
    case SafeRetryable => item.lastClass == Some(Absent)
    case Escalated => item.lastClass == Some(Ambiguous) || (item.lastClass == Some(Unavailable) && item.attempts == max)
    case Abandoned => false
  }

  ghost predicate DrainInv(q: Queue, max: nat) {
    QR.Shape(q) && forall id :: id in q.items ==> Drainable(q.items[id], max)
  }

  // Attempts left over all pending items: what every classification spends.
  function Left(item: Item, max: nat): nat {
    if item.status.Pending? && item.attempts < max then max - item.attempts else 0
  }

  function Potential(items: map<string, Item>, order: seq<string>, max: nat): nat {
    if order == [] then 0
    else
      var id := order[|order| - 1];
      Potential(items, order[..|order| - 1], max) + (if id in items then Left(items[id], max) else 0)
  }

  lemma {:induction false} PotentialElsewhere(items: map<string, Item>, order: seq<string>, max: nat, id: string, item: Item)
    requires id !in order
    ensures Potential(items[id := item], order, max) == Potential(items, order, max)
  {
    if order != [] {
      PotentialElsewhere(items, order[..|order| - 1], max, id, item);
    }
  }

  lemma {:induction false} PotentialChanges(items: map<string, Item>, order: seq<string>, max: nat, k: nat, item: Item)
    requires k < |order| && order[k] in items && forall i, j :: 0 <= i < j < |order| ==> order[i] != order[j]
    ensures Potential(items[order[k] := item], order, max) + Left(items[order[k]], max) == Potential(items, order, max) + Left(item, max)
  {
    var n := |order| - 1;
    if k == n {
      PotentialElsewhere(items, order[..n], max, order[k], item);
    } else {
      PotentialChanges(items, order[..n], max, k, item);
    }
  }

  lemma {:induction false} NoPotential(items: map<string, Item>, order: seq<string>, max: nat)
    requires Potential(items, order, max) == 0
    requires forall id :: id in items ==> items[id].status.Pending? ==> items[id].attempts < max
    ensures forall id :: id in order && id in items ==> !items[id].status.Pending?
  {
    if order != [] {
      NoPotential(items, order[..|order| - 1], max);
    }
  }

  lemma {:induction false} OrderDistinct(q: Queue)
    requires QR.Shape(q)
    ensures forall i, j :: 0 <= i < j < |q.order| ==> q.order[i] != q.order[j]
  {
    forall i, j | 0 <= i < j < |q.order| ensures q.order[i] != q.order[j] { QR.OrderIsDistinct(q, i, j); }
  }

  // A pending item is moved on: an attempt is spent, or it is stranded.
  lemma {:induction false} ItemSettles(item: Item, p: Provider, max: nat, token: int, now: int)
    requires Drainable(item, max) && item.status.Pending? && Served(item, token, p)
    ensures var c := Complete(Classify(item.kind, p), p, item.attempts, max);
      && c.Some?
      && var settled := Settled(item, c.value, token, now);
      && Drainable(settled, max) && Left(settled, max) < Left(item, max) && settled.intent == item.intent && settled.id == item.id
      && !settled.status.Classifying?
  {
  }

  lemma {:induction false} ClassifyItemKeepsShape(env: Env, q: Queue, max: nat, id: string, token: int, p: Provider, now: int)
    requires QR.Shape(q)
    ensures QR.Shape(ClassifyItemStep(env, q, max, id, token, p, now).0)
  {
    if id in q.items {
      var k := Complete(Classify(q.items[id].kind, p), p, q.items[id].attempts, max);
      if k.Some? {
        QR.PerformKeepsShape(env, q, QR.Complete(id, token, k.value.classification, k.value.next, k.value.resolution, k.value.reason, now));
      }
    }
  }

  lemma {:induction false} DrainKeepsShape(env: Env, q: Queue, max: nat, c: Call)
    requires QR.Shape(q)
    ensures QR.Shape(DrainStep(env, q, max, c))
  {
    var (q1, claim) := ClaimNextStep(env, q, c.token, c.now);
    QR.PerformKeepsShape(env, q, QR.ClaimNext(c.token, c.now));
    if claim.Ok? {
      ClassifyItemKeepsShape(env, q1, max, claim.item.id, c.token, c.provider, c.now);
    }
  }

  // What a call makes of the item it claims.
  function Moved(item: Item, max: nat, c: Call): Item {
    var done := Complete(Classify(item.kind, c.provider), c.provider, item.attempts, max);
    if Served(item, c.token, c.provider) && done.Some? then Settled(item, done.value, c.token, c.now)
    else ClaimedItem(item, c.token, c.now)
  }

  lemma {:induction false} MovedFits(item: Item, max: nat, c: Call)
    requires Drainable(item, max) && item.status.Pending?
    ensures Drainable(Moved(item, max, c), max) && Left(Moved(item, max, c), max) < Left(item, max)
    ensures Moved(item, max, c).status.Classifying? <==> !Served(item, c.token, c.provider)
  {
    if Served(item, c.token, c.provider) {
      ItemSettles(item, c.provider, max, c.token, c.now);
    }
  }

  lemma {:induction false} DrainMovesOldest(env: Env, q: Queue, max: nat, c: Call, id: string)
    requires QR.Shape(q) && Oldest(q.items, q.order) == Some(id)
    ensures id in q.items && q.items[id].status.Pending?
    ensures DrainStep(env, q, max, c).items == q.items[id := Moved(q.items[id], max, c)] && DrainStep(env, q, max, c).order == q.order
  {
    ClassifyNextForm(env, q, max, c.token, c.provider, c.now, id);
    QR.OldestIsOldest(q.items, q.order);
  }

  // One call on a queue that is not drained: the oldest pending item settles or is stranded.
  lemma {:induction false} DrainMoves(env: Env, q: Queue, max: nat, c: Call, id: string)
    requires DrainInv(q, max) && Oldest(q.items, q.order) == Some(id)
    ensures var q' := DrainStep(env, q, max, c);
      && DrainInv(q', max) && q'.order == q.order
      && id in q.items && id in q'.items && q'.items == q.items[id := q'.items[id]]
      && Left(q'.items[id], max) < Left(q.items[id], max)
      && (q'.items[id].status.Classifying? <==> !Served(q.items[id], c.token, c.provider))
  {
    DrainMovesOldest(env, q, max, c, id);
    DrainKeepsShape(env, q, max, c);
    MovedFits(q.items[id], max, c);
  }

  // One attempt at least is spent or given up.
  lemma {:induction false} DrainSpends(env: Env, q: Queue, max: nat, c: Call, id: string)
    requires DrainInv(q, max) && Oldest(q.items, q.order) == Some(id)
    ensures var q' := DrainStep(env, q, max, c);
      && DrainInv(q', max) && q'.order == q.order
      && Potential(q'.items, q'.order, max) < Potential(q.items, q.order, max)
      && id in q.items && id in q'.items && q'.items == q.items[id := q'.items[id]]
      && (q'.items[id].status.Classifying? <==> !Served(q.items[id], c.token, c.provider))
  {
    DrainMoves(env, q, max, c, id);
    OrderDistinct(q);
    var k :| 0 <= k < |q.order| && q.order[k] == id;
    PotentialChanges(q.items, q.order, max, k, DrainStep(env, q, max, c).items[id]);
  }

  lemma {:induction false} DrainRests(env: Env, q: Queue, max: nat, c: Call)
    requires QR.Shape(q) && Oldest(q.items, q.order).None?
    ensures ClassifyNextStep(env, q, max, c.token, c.provider, c.now) == (q, Answered(Nothing))
  {
    ClaimsOldest(env, q, c.token, c.now);
  }

  lemma {:induction false} DrainStepKeeps(env: Env, q: Queue, max: nat, c: Call)
    requires DrainInv(q, max)
    ensures var q' := DrainStep(env, q, max, c);
      && DrainInv(q', max)
      && (Oldest(q.items, q.order).Some? ==> Potential(q'.items, q'.order, max) < Potential(q.items, q.order, max))
      && (Oldest(q.items, q.order).None? ==> q' == q)
  {
    var best := Oldest(q.items, q.order);
    match best
    case Some(id) => DrainSpends(env, q, max, c, id);
    case None => DrainRests(env, q, max, c);
  }

  lemma {:induction false} NothingLeft(q: Queue, max: nat)
    requires DrainInv(q, max) && Potential(q.items, q.order, max) == 0
    ensures Oldest(q.items, q.order).None?
  {
    NoPotential(q.items, q.order, max);
    QR.OldestIsOldest(q.items, q.order);
  }

  // After n calls either nothing is pending, or at least n attempts are spent.
  lemma {:induction false} DrainProgress(env: Env, q: Queue, max: nat, calls: seq<Call>)
    requires DrainInv(q, max)
    ensures var q' := Drain(env, q, max, calls);
      DrainInv(q', max) && (Oldest(q'.items, q'.order).None? || Potential(q'.items, q'.order, max) + |calls| <= Potential(q.items, q.order, max))
  {
    if calls != [] {
      var front, c := calls[..|calls| - 1], calls[|calls| - 1];
      DrainProgress(env, q, max, front);
      DrainStepKeeps(env, Drain(env, q, max, front), max, c);
    }
  }

  // One call strands an item, or leaves the set of stranded items as it is.
  lemma {:induction false} StrandedStep(env: Env, q: Queue, max: nat, calls: seq<Call>, id: string)
    requires DrainInv(q, max) && calls != []
    ensures var m := Drain(env, q, max, calls[..|calls| - 1]); var q' := Drain(env, q, max, calls);
      && (id in m.items <==> id in q'.items)
      && (id in m.items ==>
            (q'.items[id].status.Classifying? <==> m.items[id].status.Classifying? || Strands(env, q, max, calls, |calls| - 1, id)))
  {
    var front, c := calls[..|calls| - 1], calls[|calls| - 1];
    DrainProgress(env, q, max, front);
    var m := Drain(env, q, max, front);
    QR.OldestIsOldest(m.items, m.order);
    var best := Oldest(m.items, m.order);
    match best
    case Some(oldest) => DrainSpends(env, m, max, c, oldest);
    case None => DrainRests(env, m, max, c);
  }

  lemma {:induction false} StrandsShorter(env: Env, q: Queue, max: nat, calls: seq<Call>, i: nat, id: string)
    requires i + 1 < |calls|
    ensures Strands(env, q, max, calls, i, id) <==> Strands(env, q, max, calls[..|calls| - 1], i, id)
  {
    assert calls[..|calls| - 1][..i] == calls[..i];
  }

  ghost predicate EverStrands(env: Env, q: Queue, max: nat, calls: seq<Call>, id: string) {
    exists i: nat :: i < |calls| && Strands(env, q, max, calls, i, id)
  }

  lemma {:induction false} EverStrandsMore(env: Env, q: Queue, max: nat, calls: seq<Call>, id: string)
    requires calls != []
    ensures EverStrands(env, q, max, calls, id) <==>
      EverStrands(env, q, max, calls[..|calls| - 1], id) || Strands(env, q, max, calls, |calls| - 1, id)
  {
    var n := |calls| - 1;
    forall i: nat | i < n
      ensures Strands(env, q, max, calls, i, id) <==> Strands(env, q, max, calls[..n], i, id)
    {
      StrandsShorter(env, q, max, calls, i, id);
    }
    if EverStrands(env, q, max, calls[..n], id) {
      var i: nat :| i < n && Strands(env, q, max, calls[..n], i, id);
      assert Strands(env, q, max, calls, i, id);
    }
  }

  // An item is left in CLASSIFYING exactly when some call claimed it and did not serve it.
  lemma {:induction false} StrandedByCalls(env: Env, q: Queue, max: nat, calls: seq<Call>, id: string)
    requires DrainInv(q, max) && id in q.items && !q.items[id].status.Classifying?
    ensures var q' := Drain(env, q, max, calls);
      id in q'.items && (q'.items[id].status.Classifying? <==> EverStrands(env, q, max, calls, id))
  {
    if calls != [] {
      StrandedByCalls(env, q, max, calls[..|calls| - 1], id);
      StrandedStep(env, q, max, calls, id);
      EverStrandsMore(env, q, max, calls, id);
    }
  }

  lemma {:induction false} FillMakesDrainable(env: Env, fs: seq<Filling>, max: nat)
    requires max > 0
    ensures DrainInv(Fill(env, fs), max)
    ensures forall id :: id in Fill(env, fs).items ==> Fill(env, fs).items[id].status.Pending?
  {
    if fs != [] {
      var f := fs[|fs| - 1];
      var q := Fill(env, fs[..|fs| - 1]);
      FillMakesDrainable(env, fs[..|fs| - 1], max);
      QR.PerformKeepsShape(env, q, QR.Enqueue(f.intent, f.kind, f.anchor, f.now));
      QR.EnqueueForm(env, q, f.intent, f.kind, f.anchor, f.now);
    }
  }

  // A filled queue is drained by as many calls of classify_next as its items have attempts, whatever the provider
  // answers or raises and whatever the tokens: then nothing is pending, a further call finds nothing, and every item
  // is resolved as present with a reference, safe to retry as absent, escalated, or still claimed; still claimed
  // exactly when some call claimed it and did not serve it.
  lemma {:induction false} DrainTerminates(env: Env, fs: seq<Filling>, max: nat, calls: seq<Call>)
    requires max > 0 && |calls| >= Potential(Fill(env, fs).items, Fill(env, fs).order, max)
    ensures var q0 := Fill(env, fs); var q := Drain(env, q0, max, calls);
      && (forall id :: id in q.items ==>
            var item := q.items[id];
            || (item.status.Resolved? && item.lastClass == Some(Present) && item.resolution.Some?)
            || (item.status.SafeRetryable? && item.lastClass == Some(Absent))
            || (item.status.Escalated? && (item.lastClass == Some(Ambiguous) || (item.lastClass == Some(Unavailable) && item.attempts == max)))
            || item.status.Classifying?)
      && (forall id :: id in q0.items ==> id in q.items && (q.items[id].status.Classifying? <==> EverStrands(env, q0, max, calls, id)))
      && forall c: Call :: ClassifyNextStep(env, q, max, c.token, c.provider, c.now) == (q, Answered(Nothing))
  {
    var q0 := Fill(env, fs);
    var q := Drain(env, q0, max, calls);
    FillMakesDrainable(env, fs, max);
    DrainProgress(env, q0, max, calls);
    if Oldest(q.items, q.order).Some? {
      NothingLeft(q, max);
    }
    QR.OldestIsOldest(q.items, q.order);
    forall c: Call ensures ClassifyNextStep(env, q, max, c.token, c.provider, c.now) == (q, Answered(Nothing)) { DrainRests(env, q, max, c); }
    forall id | id in q.items
      ensures !q.items[id].status.Pending?
    {
      assert id in q.order;
    }
    forall id | id in q0.items
      ensures id in q.items && (q.items[id].status.Classifying? <==> EverStrands(env, q0, max, calls, id))
    {
      StrandedByCalls(env, q0, max, calls, id);
    }
  }

  // Order of claims

  // The next call claims the item enqueued as number k.
  predicate ClaimsNext(q: Queue, k: nat)
    requires k < |q.order|
  {
    Oldest(q.items, q.order) == Some(q.order[k])
  }

  // Up to a million items the oldest identifier is the one enqueued first.
  lemma {:induction false} OldestIsFirst(q: Queue, k: nat, j: nat)
    requires QR.Shape(q) && q.next <= 1000000 && k < |q.order| && j < |q.order|
    requires ClaimsNext(q, k) && q.order[j] in q.items && q.items[q.order[j]].status.Pending?
    ensures k <= j
  {
    QR.OldestIsOldest(q.items, q.order);
    if j < k {
      TagOrder("REC", k + 1, j + 1);
      QR.OrderIsDistinct(q, k, j);
    }
  }

  // Pending items only become fewer.
  lemma {:induction false} PendingShrinks(env: Env, q: Queue, max: nat, calls: seq<Call>)
    requires DrainInv(q, max)
    ensures var q' := Drain(env, q, max, calls);
      && DrainInv(q', max) && q'.order == q.order && q'.next == q.next
      && forall id :: id in q'.items && q'.items[id].status.Pending? ==> id in q.items && q.items[id].status.Pending?
  {
    if calls != [] {
      var front, c := calls[..|calls| - 1], calls[|calls| - 1];
      PendingShrinks(env, q, max, front);
      var m := Drain(env, q, max, front);
      var best := Oldest(m.items, m.order);
      match best
      case Some(id) =>
        DrainSpends(env, m, max, c, id);
        QR.OldestIsOldest(m.items, m.order);
        DrainKeepsShape(env, m, max, c);
      case None => DrainRests(env, m, max, c);
    }
  }

  // A drain claims in order of enqueueing, an item again and again until it settles, as long as identifiers have six
  // digits: what a later call claims was never enqueued before what an earlier one claimed.
  lemma {:induction false} ClaimsInOrder(env: Env, fs: seq<Filling>, max: nat, calls: seq<Call>, more: seq<Call>, k: nat, j: nat)
    requires max > 0
    requires var q := Drain(env, Fill(env, fs), max, calls); q.next <= 1000000 && k < |q.order| && ClaimsNext(q, k)
    requires var q' := Drain(env, Drain(env, Fill(env, fs), max, calls), max, more); j < |q'.order| && ClaimsNext(q', j)
    ensures k <= j
  {
    var q0 := Fill(env, fs);
    var q := Drain(env, q0, max, calls);
    var q' := Drain(env, q, max, more);
    FillMakesDrainable(env, fs, max);
    DrainProgress(env, q0, max, calls);
    PendingShrinks(env, q, max, more);
    QR.OldestIsOldest(q'.items, q'.order);
    OldestIsFirst(q, k, j);
  }

  class Engine {
    const queue: OperatorQueue
    const maxAttempts: nat

    constructor (queue: OperatorQueue, maxAttempts: nat)
      requires maxAttempts > 0
      ensures this.queue == queue && this.maxAttempts == maxAttempts
    {
      this.queue := queue;
      this.maxAttempts := maxAttempts;
    }

    method ClassifyItem(id: string, token: int, p: Provider, now: int) returns (r: Outcome)
      requires queue.Valid()
      modifies queue, queue.audit
      ensures queue.Valid() && (queue.Model(), r) == ClassifyItemStep(queue.env, old(queue.Model()), maxAttempts, id, token, p, now)
    {
      if id !in queue.items {
        return Answered(Err(InvalidTransition));
      }
      var item := queue.items[id];
      var verdict := Classify(item.kind, p);
      if verdict.UnknownKind? {
        return Answered(Err(InvalidTransition));
      }
      var decision := Decide(verdict, p, item.attempts);
      if decision.None? {
        return Escaped;
      }
      var c := decision.value;
      var answer := queue.CompleteClassification(id, token, c.classification, c.next, c.resolution, c.reason, now);
      return Answered(answer);
    }

    // A rejected read-back means AMBIGUOUS while the provider answers, and UNAVAILABLE otherwise.
    method Decide(verdict: Verdict, p: Provider, attempts: nat) returns (c: Option<Completion>)
      requires !verdict.UnknownKind?
      ensures c == Complete(verdict, p, attempts, maxAttempts)
    {
      var classification, reference := Unavailable, None;
      match verdict {
        case Escapes =>
          return None;
        case ReadBackRejected =>
          if !p.ping.Answers? {
            return None;
          }
          if p.ping.value {
            return Some(Completion(Ambiguous, Escalated, None, Some(REJECTED)));
          }
        case Classified(found, named) =>
          classification, reference := found, named;
      }
      if classification == Present {
        return Some(Completion(Present, Resolved, reference, None));
      }
      if classification == Absent {
        return Some(Completion(Absent, SafeRetryable, None, None));
      }
      if classification == Ambiguous {
        return Some(Completion(Ambiguous, Escalated, None, Some(CONTRADICTS)));
      }
      var again := attempts + 1 < maxAttempts;
      return Some(Completion(Unavailable, if again then Pending else Escalated, None, if again then None else Some(EXHAUSTED)));
    }

    method ClassifyNext(token: int, p: Provider, now: int) returns (r: Outcome)
      requires queue.Valid()
      modifies queue, queue.audit
      ensures queue.Valid() && (queue.Model(), r) == ClassifyNextStep(queue.env, old(queue.Model()), maxAttempts, token, p, now)
    {
      var claim := queue.ClaimNext(token, now);
      if !claim.Ok? {
        return Answered(claim);
      }
      r := ClassifyItem(claim.item.id, token, p, now);
    }
  }
}
