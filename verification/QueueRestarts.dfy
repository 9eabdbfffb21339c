/**
  After a restart of the operator queue (src/reconciliation/queue.py): what the counter that `replay` leaves behind
  does to the items, the intent index, and the finality of terminal items.
 */
module QueueRestarts {
  import opened Wrappers
  import opened References
  import opened Audit
  import opened ReconciliationQueue
  import opened QueueRuns

  // The queue a restart makes of a transition log.
  function Restart(log: seq<Item>): Session {
    Session(Replay(log), [])
  }

  // No command enqueues a new intent.
  predicate NoNewIntent(known: set<string>, ops: seq<Op>) {
    forall k :: 0 <= k < |ops| && ops[k].Enqueue? ==> ops[k].intent in known
  }

  // The same items by name and intent, whatever their status; index and counter untouched.
  ghost predicate SameItems(q: Queue, q': Queue) {
    && q'.items.Keys == q.items.Keys && q'.byIntent == q.byIntent && q'.next == q.next
    && forall id :: id in q.items ==> q'.items[id].id == q.items[id].id && q'.items[id].intent == q.items[id].intent
  }

  lemma {:induction false} ApplyKeepsItems(env: Env, q: Queue, event: string, item: Item, extra: Payload, now: int)
    requires item.id in q.items && q.items[item.id].id == item.id && q.items[item.id].intent == item.intent
    ensures SameItems(q, Apply(env, q, event, item, extra, now))
  {
  }

  lemma {:induction false} ClaimKeepsItems(env: Env, q: Queue, op: Op)
    requires IndexShape(q) && (op.ClaimNext? || op.ClaimItem?)
    ensures SameItems(q, Perform(env, q, op).0)
  {
    var target := Target(q, op);
    if target.Some? && target.value in q.items {
      var item := After(op, q.items[target.value]);
      var extra := if op.ClaimNext? then map["fencing_token" := Number(op.token)]
                   else map["fencing_token" := Number(op.token), "override" := Text("claim_item")];
      ApplyKeepsItems(env, q, "REC_CLAIM", item, extra, op.now);
    }
  }

  // A command that changes anything on known items puts a successor of one of them.
  lemma {:induction false} StepKeepsItems(env: Env, q: Queue, op: Op)
    requires IndexShape(q) && (op.Enqueue? ==> op.intent in q.byIntent)
    ensures SameItems(q, Perform(env, q, op).0)
  {
    if op.ClaimNext? || op.ClaimItem? {
      ClaimKeepsItems(env, q, op);
    } else if !op.Enqueue? && op.id in q.items {
      var item := After(op, q.items[op.id]);
      match op
      case Complete(_, _, classification, next, resolution, _, now) =>
        ApplyKeepsItems(env, q, ClassifyEvent(next), item, CompletionExtra(classification, resolution), now);
      case MarkRetried(_, resolution, now) =>
        ApplyKeepsItems(env, q, "REC_RETRIED", item, map["resolution_ref" := OptionalText(resolution)], now);
      case Abandon(_, why, now) =>
        ApplyKeepsItems(env, q, "REC_ABANDONED", item, map["operator_reason" := Text(why)], now);
    }
  }

  lemma {:induction false} SameIndex(q: Queue, q': Queue)
    requires IndexShape(q) && SameItems(q, q')
    ensures IndexShape(q')
  {
  }

  lemma {:induction false} RunKeepsItems(env: Env, s: Session, ops: seq<Op>)
    requires IndexShape(s.queue) && NoNewIntent(s.queue.byIntent.Keys, ops)
    ensures SameItems(s.queue, Run(env, s, ops).queue)
  {
    if ops != [] {
      var front := ops[..|ops| - 1];
      RunKeepsItems(env, s, front);
      SameIndex(s.queue, Run(env, s, front).queue);
      StepQueue(env, Run(env, s, front), ops[|ops| - 1]);
      StepKeepsItems(env, Run(env, s, front).queue, ops[|ops| - 1]);
    }
  }

  // A new item under the identifier of another leaves that one's intent astray, and under a new one the index right.
  lemma {:induction false} IndexAfterPut(q: Queue, q': Queue, item: Item)
    requires IndexShape(q) && item.intent !in q.byIntent
    requires q'.items == q.items[item.id := item] && q'.byIntent == q.byIntent[item.intent := item.id]
    ensures IndexShape(q') <==> item.id !in q.items
  {
    if item.id in q.items {
      var lost := q.items[item.id].intent;
      assert q'.byIntent[lost] == item.id && q'.items[item.id].intent != lost;
    } else {
      forall id | id in q'.items
        ensures q'.items[id].id == id && q'.items[id].intent in q'.byIntent && q'.byIntent[q'.items[id].intent] == id
      {
        if id != item.id { assert q.items[id].intent != item.intent; }
      }
      forall intent | intent in q'.byIntent
        ensures q'.byIntent[intent] in q'.items && q'.items[q'.byIntent[intent]].intent == intent
      {
        if intent != item.intent { assert q.byIntent[intent] in q.items; }
      }
    }
  }

  // The enqueue of a new intent takes the identifier of the counter, whatever it names already.
  lemma {:induction false} NewIntentTakesNext(env: Env, q: Queue, intent: string, kind: string, anchor: string, now: int)
    requires IndexShape(q) && intent !in q.byIntent
    ensures var (q', answer) := EnqueueStep(env, q, intent, kind, anchor, now); var id := Tag("REC", q.next);
      && answer == Ok(NewItem(id, intent, kind, anchor, now)) && q'.items == q.items[id := answer.item]
      && q'.byIntent == q.byIntent[intent := id]
      && (forall other :: other in q.items ==> (q'.items[other] == q.items[other] <==> other != id))
      && (IndexShape(q') <==> id !in q.items)
  {
    var (q', answer) := EnqueueStep(env, q, intent, kind, anchor, now);
    IndexAfterPut(q, q', answer.item);
  }

  lemma {:induction false} RestartShape(env: Env, ops: seq<Op>)
    requires HexDigests(env.crypto)
    ensures var q := Run(env, START, ops).queue; var r := Replay(q.log);
      IndexShape(r) && r.items == q.items && r.byIntent == q.byIntent
  {
    RunKeeps(env, ops);
  }

  // After a restart and any commands without a new intent, the next new intent gets the identifier of the replayed
  // counter. It replaces an existing item, of whatever status, exactly when the last snapshot before the restart was
  // not one of the newest item; then that item's intent leads to the new one, and else the index stays right.
  lemma {:induction false} EnqueueAfterRestart(env: Env, ops: seq<Op>, later: seq<Op>, intent: string, kind: string, anchor: string, now: int)
    requires HexDigests(env.crypto)
    requires var known := Run(env, START, ops).queue.byIntent.Keys; NoNewIntent(known, later) && intent !in known
    ensures var q := Run(env, START, ops).queue; var r := Run(env, Restart(q.log), later).queue;
      var (r', answer) := EnqueueStep(env, r, intent, kind, anchor, now); var id := Tag("REC", Replay(q.log).next);
      && r.items.Keys == q.items.Keys && answer == Ok(NewItem(id, intent, kind, anchor, now))
      && r'.items == r.items[id := answer.item]
      && (id in r.items <==> !NewestLast(q))
      && (forall other :: other in r.items ==> (r'.items[other] == r.items[other] <==> other != id))
      && (IndexShape(r') <==> NewestLast(q))
  {
    var q := Run(env, START, ops).queue;
    RestartShape(env, ops);
    ReplayedCounter(env, ops);
    RunKeepsItems(env, Restart(q.log), later);
    var r := Run(env, Restart(q.log), later).queue;
    SameIndex(Replay(q.log), r);
    NewIntentTakesNext(env, r, intent, kind, anchor, now);
  }

  // A run that loses a resolved item: of two items, both resolved, the older is resolved last.

  const ONE: string := Tag("REC", 1)
  const TWO: string := Tag("REC", 2)

  function TwoResolved(a: string, b: string, kind: string, anchor: string, now: int): seq<Op> {
    [Enqueue(a, kind, anchor, now), Enqueue(b, kind, anchor, now), ClaimNext(1, now)] + [ClaimNext(2, now)]
    + [Complete(TWO, 2, Present, Resolved, None, None, now)] + [Complete(ONE, 1, Present, Resolved, None, None, now)]
  }

  lemma {:induction false} OneBeforeTwo()
    ensures ONE != TWO && Before(ONE, TWO)
  {
    TagNames(ONE, "REC", 1, 2);
    TagOrder("REC", 1, 2);
  }

  // Two items with these intents, and their states.
  ghost predicate Pair(q: Queue, a: string, b: string, first: ItemStatus, t: int, second: ItemStatus, u: int) {
    && Shape(q) && q.order == [ONE, TWO] && q.byIntent == map[a := ONE, b := TWO]
    && ONE in q.items && q.items[ONE].intent == a && q.items[ONE].status == first && q.items[ONE].token == t
    && TWO in q.items && q.items[TWO].intent == b && q.items[TWO].status == second && q.items[TWO].token == u
  }

  predicate Single(q: Queue, a: string) {
    && q.order == [ONE] && q.byIntent == map[a := ONE] && q.next == 2
    && ONE in q.items && q.items[ONE].intent == a && q.items[ONE].status.Pending? && q.items[ONE].token == 0
  }

  lemma {:induction false} FirstAdded(env: Env, q: Queue, x: Op)
    requires q == EMPTY_QUEUE && x.Enqueue?
    ensures Shape(Perform(env, q, x).0) && Single(Perform(env, q, x).0, x.intent)
  {
    PerformKeepsShape(env, q, x);
  }

  lemma {:induction false} SecondAdded(env: Env, q: Queue, a: string, y: Op)
    requires Shape(q) && Single(q, a) && y.Enqueue? && a != y.intent
    ensures Pair(Perform(env, q, y).0, a, y.intent, Pending, 0, Pending, 0)
  {
    OneBeforeTwo();
    PerformKeepsShape(env, q, y);
  }

  lemma {:induction false} OldestOfTwo(items: map<string, Item>)
    requires ONE in items && TWO in items
    ensures items[ONE].status.Pending? ==> Oldest(items, [ONE, TWO]) == Some(ONE)
    ensures !items[ONE].status.Pending? && items[TWO].status.Pending? ==> Oldest(items, [ONE, TWO]) == Some(TWO)
  {
    OneBeforeTwo();
    OldestIsOldest(items, [ONE, TWO]);
    if items[ONE].status.Pending? && Before(TWO, ONE) {
      BeforeTransitive(ONE, TWO, ONE);
      BeforeIrreflexive(ONE);
    }
  }

  lemma {:induction false} FirstTaken(env: Env, q: Queue, a: string, b: string, claim: Op)
    requires Pair(q, a, b, Pending, 0, Pending, 0) && claim.ClaimNext?
    ensures Pair(Perform(env, q, claim).0, a, b, Classifying, claim.token, Pending, 0)
  {
    OneBeforeTwo();
    OldestOfTwo(q.items);
    PerformKeepsShape(env, q, claim);
  }

  lemma {:induction false} SecondTaken(env: Env, q: Queue, a: string, b: string, t: int, claim: Op)
    requires Pair(q, a, b, Classifying, t, Pending, 0) && claim.ClaimNext?
    ensures Pair(Perform(env, q, claim).0, a, b, Classifying, t, Classifying, claim.token)
  {
    OneBeforeTwo();
    OldestOfTwo(q.items);
    PerformKeepsShape(env, q, claim);
  }

  predicate Resolves(op: Op, id: string, token: int) {
    op.Complete? && op.id == id && op.token == token > 0 && op.classification.Present? && op.next.Resolved?
  }

  // A legal completion, applied: the item moves, and its snapshot is the last one.
  lemma {:induction false} CompletedInPlace(env: Env, q: Queue, op: Op)
    requires Shape(q) && op.Complete? && op.id in q.items && Legal(op, q.items[op.id])
    ensures var q' := Perform(env, q, op).0; var item := After(op, q.items[op.id]);
      && Shape(q') && q'.items == q.items[op.id := item] && q'.order == q.order && q'.byIntent == q.byIntent
      && q'.log == q.log + [item] && item.id == op.id
  {
    LegalIsApplied(env, q, op);
  }

  lemma {:induction false} SecondResolved(env: Env, q: Queue, a: string, b: string, t: int, u: int, op: Op)
    requires Pair(q, a, b, Classifying, t, Classifying, u) && Resolves(op, TWO, u)
    ensures Pair(Perform(env, q, op).0, a, b, Classifying, t, Resolved, 0)
  {
    OneBeforeTwo();
    CompletedInPlace(env, q, op);
  }

  lemma {:induction false} FirstResolved(env: Env, q: Queue, a: string, b: string, t: int, op: Op)
    requires Pair(q, a, b, Classifying, t, Resolved, 0) && Resolves(op, ONE, t)
    ensures var q' := Perform(env, q, op).0;
      Pair(q', a, b, Resolved, 0, Resolved, 0) && q'.log != [] && q'.log[|q'.log| - 1].id == ONE
  {
    OneBeforeTwo();
    CompletedInPlace(env, q, op);
  }

  lemma {:induction false} ThreeSteps(env: Env, s: Session, x: Op, y: Op, c: Op)
    requires s.queue == EMPTY_QUEUE && x.Enqueue? && y.Enqueue? && x.intent != y.intent && c.ClaimNext?
    ensures Pair(Run(env, s, [x, y, c]).queue, x.intent, y.intent, Classifying, c.token, Pending, 0)
  {
    RunThree(env, s, x, y, c);
    FirstAdded(env, s.queue, x);
    SecondAdded(env, Perform(env, s.queue, x).0, x.intent, y);
    FirstTaken(env, Perform(env, Perform(env, s.queue, x).0, y).0, x.intent, y.intent, c);
  }

  lemma {:induction false} ThreeMore(env: Env, s: Session, ops: seq<Op>, a: string, b: string, t: int, d: Op, e: Op, f: Op)
    requires Pair(Run(env, s, ops).queue, a, b, Classifying, t, Pending, 0)
    requires d.ClaimNext? && Resolves(e, TWO, d.token) && Resolves(f, ONE, t)
    ensures var q := Run(env, s, ops + [d] + [e] + [f]).queue;
      Pair(q, a, b, Resolved, 0, Resolved, 0) && q.log != [] && q.log[|q.log| - 1].id == ONE
  {
    RunOneMore(env, s, ops, d);
    SecondTaken(env, Run(env, s, ops).queue, a, b, t, d);
    RunOneMore(env, s, ops + [d], e);
    SecondResolved(env, Run(env, s, ops + [d]).queue, a, b, t, d.token, e);
    RunOneMore(env, s, ops + [d] + [e], f);
    FirstResolved(env, Run(env, s, ops + [d] + [e]).queue, a, b, t, f);
  }

  lemma {:induction false} CounterBehind(log: seq<Item>, n: nat)
    requires log != [] && log[|log| - 1].id == Tag("REC", n)
    ensures Replay(log).next == n + 1
  {
    NumberOfTag(n);
    var before := Replay(log[..|log| - 1]);
    assert Replay(log) == ReplayStep(before, log[|log| - 1]);
  }

  // The last snapshot is one of the first item, so the counter is 2 again.
  lemma {:induction false} CounterOfTwo(q: Queue, a: string, b: string, first: ItemStatus, second: ItemStatus)
    requires Pair(q, a, b, first, 0, second, 0) && q.log != [] && q.log[|q.log| - 1].id == ONE
    ensures !NewestLast(q) && Replay(q.log).next == 2
  {
    OneBeforeTwo();
    CounterBehind(q.log, 1);
  }

  lemma {:induction false} TwoAreResolved(env: Env, s: Session, x: Op, y: Op, c: Op, d: Op, e: Op, f: Op)
    requires s.queue == EMPTY_QUEUE && x.Enqueue? && y.Enqueue? && x.intent != y.intent && c.ClaimNext? && d.ClaimNext?
    requires Resolves(e, TWO, d.token) && Resolves(f, ONE, c.token)
    ensures var q := Run(env, s, [x, y, c] + [d] + [e] + [f]).queue;
      Pair(q, x.intent, y.intent, Resolved, 0, Resolved, 0) && q.log != [] && q.log[|q.log| - 1].id == ONE
  {
    var front := [x, y, c];
    ThreeSteps(env, s, x, y, c);
    ThreeMore(env, s, front, x.intent, y.intent, c.token, d, e, f);
  }

  lemma {:induction false} SecondIsLost(env: Env, q: Queue, a: string, b: string, c: string, kind: string, anchor: string, now: int)
    requires Pair(q, a, b, Resolved, 0, Resolved, 0) && q.log != [] && q.log[|q.log| - 1].id == ONE
    requires IndexShape(Replay(q.log)) && Replay(q.log).byIntent == q.byIntent && b != c && a != c
    ensures var r := EnqueueStep(env, Replay(q.log), c, kind, anchor, now).0;
      TWO in r.items && r.items[TWO] == NewItem(TWO, c, kind, anchor, now) && b in r.byIntent && r.byIntent[b] == TWO
  {
    CounterOfTwo(q, a, b, Resolved, Resolved);
    NewIntentTakesNext(env, Replay(q.log), c, kind, anchor, now);
  }

  // Resolved stays resolved only up to a restart: the newer item was resolved, the queue is restarted, and the next
  // new intent replaces it by a PENDING item, to which the old intent now leads.
  lemma {:induction false} ResolvedReplaced(env: Env, a: string, b: string, c: string, kind: string, anchor: string, now: int)
    requires HexDigests(env.crypto) && a != b && b != c && a != c
    ensures var q := Run(env, START, TwoResolved(a, b, kind, anchor, now)).queue;
      var r := EnqueueStep(env, Restart(q.log).queue, c, kind, anchor, now).0;
      && !NewestLast(q) && TWO in q.items && q.items[TWO].status.Resolved? && q.items[TWO].intent == b
      && TWO in r.items && r.items[TWO] == NewItem(TWO, c, kind, anchor, now) && b in r.byIntent && r.byIntent[b] == TWO
  {
    var ops := TwoResolved(a, b, kind, anchor, now);
    TwoAreResolved(env, START, ops[0], ops[1], ops[2], ops[3], ops[4], ops[5]);
    assert ops == [ops[0], ops[1], ops[2]] + [ops[3]] + [ops[4]] + [ops[5]];
    var q := Run(env, START, ops).queue;
    CounterOfTwo(q, a, b, Resolved, Resolved);
    RestartShape(env, ops);
    SecondIsLost(env, q, a, b, c, kind, anchor, now);
  }
}
