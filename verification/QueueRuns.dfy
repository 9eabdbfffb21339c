/**
  What every run of the operator queue keeps: the shape of its maps, replay from the transition
  log, lock step with the audit chain, and the fencing discipline of claims and completions.
 */
module QueueRuns {
  import opened Wrappers
  import opened References
  import opened Audit
  import opened ReconciliationQueue

  datatype Op =
    | Enqueue(intent: string, kind: string, anchor: string, now: int)
    | ClaimNext(token: int, now: int)
    | ClaimItem(id: string, token: int, now: int)
    | Complete(id: string, token: int, classification: Class, next: ItemStatus,
               resolution: Option<string>, reason: Option<string>, now: int)
    | MarkRetried(id: string, resolution: Option<string>, now: int)
    | Abandon(id: string, why: string, now: int)

  function Perform(env: Env, q: Queue, op: Op): (Queue, Answer) {
    match op
    case Enqueue(intent, kind, anchor, now) => EnqueueStep(env, q, intent, kind, anchor, now)
    case ClaimNext(token, now) => ClaimNextStep(env, q, token, now)
    case ClaimItem(id, token, now) => ClaimItemStep(env, q, id, token, now)
    case Complete(id, token, classification, next, resolution, reason, now) =>
      CompleteStep(env, q, id, token, classification, next, resolution, reason, now)
    case MarkRetried(id, resolution, now) => MarkRetriedStep(env, q, id, resolution, now)
    case Abandon(id, why, now) => AbandonStep(env, q, id, why, now)
  }

  // History of the applied transitions.
  datatype Event =
    | Enqueued(id: string)
    | Claimed(id: string, token: int)
    | Completed(id: string, token: int, classification: Class, next: ItemStatus)
    | Closed(id: string)

  datatype Session = Session(queue: Queue, history: seq<Event>)

  const START: Session := Session(EMPTY_QUEUE, [])

  function EventOf(op: Op, item: Item): Event {
    match op
    case Enqueue(_, _, _, _) => Enqueued(item.id)
    case ClaimNext(token, _) => Claimed(item.id, token)
    case ClaimItem(_, token, _) => Claimed(item.id, token)
    case Complete(_, token, classification, next, _, _, _) => Completed(item.id, token, classification, next)
    case MarkRetried(_, _, _) => Closed(item.id)
    case Abandon(_, _, _) => Closed(item.id)
  }

  function Step(env: Env, s: Session, op: Op): Session {
    var (q, answer) := Perform(env, s.queue, op);
    if answer.Ok? && q.log != s.queue.log then Session(q, s.history + [EventOf(op, answer.item)]) else Session(q, s.history)
  }

  function Run(env: Env, s: Session, ops: seq<Op>): Session {
    if ops == [] then s else Step(env, Run(env, s, ops[..|ops| - 1]), ops[|ops| - 1])
  }

  lemma {:induction false} StepQueue(env: Env, s: Session, op: Op)
    ensures Step(env, s, op).queue == Perform(env, s.queue, op).0
  {
  }

  // Every applied transition has the same form: an item is put, and its event recorded.

  // The queue commands differ in the item they put; this is all the rest.
  ghost predicate Puts(env: Env, q: Queue, q': Queue, item: Item) {
    && q'.items == q.items[item.id := item]
    && q'.log == q.log + [item]
    && exists event, extra, now :: Disjoint(extra) && q'.chain == Emit(env, q.chain, event, item, extra, now)
  }

  // The extra payload of an event never overrides the three fields every event has.
  predicate Disjoint(extra: Payload) {
    ITEM_ID !in extra && INTENT_KEY !in extra && STATUS !in extra
  }

  // An item that exists is replaced by one with the same identity.
  ghost predicate Updates(env: Env, q: Queue, q': Queue, item: Item) {
    && item.id in q.items && item.intent == q.items[item.id].intent
    && Puts(env, q, q', item)
    && q'.order == q.order && q'.byIntent == q.byIntent && q'.next == q.next
  }

  // A new item gets the next number and a new intent.
  ghost predicate Creates(env: Env, q: Queue, q': Queue, item: Item) {
    && item.intent !in q.byIntent && item.id == Tag("REC", q.next) && item.id !in q.items
    && Puts(env, q, q', item)
    && q'.order == q.order + [item.id] && q'.byIntent == q.byIntent[item.intent := item.id] && q'.next == q.next + 1
  }

  lemma {:induction false} ApplyPuts(env: Env, q: Queue, event: string, item: Item, extra: Payload, now: int)
    requires Disjoint(extra)
    ensures Puts(env, q, Apply(env, q, event, item, extra, now), item)
  {
  }

  // Shape

  ghost predicate OrderShape(q: Queue) {
    && q.next >= 1 && |q.order| == q.next - 1
    && (forall i :: 0 <= i < |q.order| ==> q.order[i] == Tag("REC", i + 1))
    && (forall id :: id in q.items <==> id in q.order)
  }

  ghost predicate IndexShape(q: Queue) {
    && (forall id :: id in q.items ==> q.items[id].id == id && q.items[id].intent in q.byIntent && q.byIntent[q.items[id].intent] == id)
    && (forall intent :: intent in q.byIntent ==> q.byIntent[intent] in q.items && q.items[q.byIntent[intent]].intent == intent)
  }

  ghost predicate Shape(q: Queue) {
    OrderShape(q) && IndexShape(q)
  }

  lemma {:induction false} TagInOrder(q: Queue, n: nat)
    requires Shape(q)
    ensures Tag("REC", n) in q.items <==> 1 <= n < q.next
  {
    if Tag("REC", n) in q.items {
      var i :| 0 <= i < |q.order| && q.order[i] == Tag("REC", n);
      TagNames(q.order[i], "REC", i + 1, n);
    }
    if 1 <= n < q.next {
      assert q.order[n - 1] == Tag("REC", n);
    }
  }

  lemma {:induction false} OldestIsOldest(items: map<string, Item>, order: seq<string>)
    ensures match Oldest(items, order)
      case None => forall id :: id in order && id in items ==> !items[id].status.Pending?
      case Some(best) =>
        && best in order && best in items && items[best].status.Pending?
        && (forall id :: id in order && id in items && items[id].status.Pending? ==> id == best || Before(best, id))
  {
    if order != [] {
      var front, id := order[..|order| - 1], order[|order| - 1];
      OldestIsOldest(items, front);
      match Oldest(items, front)
      case None =>
      case Some(best) =>
        if id in items && items[id].status.Pending? {
          BeforeTotal(id, best);
          if Before(id, best) {
            forall other | other in order && other in items && items[other].status.Pending?
              ensures other == id || Before(id, other)
            {
              if other != id && other != best {
                assert other in front;
                BeforeTransitive(id, best, other);
              }
            }
          }
        }
    }
  }

  // When a command on an existing item is accepted, and the item it leaves.
  predicate Legal(op: Op, item: Item) {
    match op
    case Enqueue(_, _, _, _) => false
    case ClaimNext(_, _) => item.status.Pending?
    case ClaimItem(_, token, _) => (item.status.Classifying? || item.status.SafeRetryable? || item.status.Escalated?) && token > item.token
    case Complete(_, token, classification, next, _, _, _) => CompletionRefusal(item, token, classification, next).None?
    case MarkRetried(_, _, _) => item.status.SafeRetryable?
    case Abandon(_, why, _) => item.status.Escalated? && !Blank(why)
  }

  function After(op: Op, item: Item): Item {
    match op
    case Enqueue(_, _, _, _) => item
    case ClaimNext(token, now) => item.(status := Classifying, token := token, updatedAt := now)
    case ClaimItem(_, token, now) => item.(status := Classifying, token := token, updatedAt := now)
    case Complete(_, _, classification, next, resolution, reason, now) =>
      CompletedItem(item, classification, next, resolution, reason, now)
    case MarkRetried(_, resolution, now) => item.(status := Resolved, resolution := resolution, updatedAt := now)
    case Abandon(_, why, now) => item.(status := Abandoned, reason := Some(why), updatedAt := now)
  }

  // The item a command addresses.
  function Target(q: Queue, op: Op): Option<string> {
    match op
    case Enqueue(_, _, _, _) => None
    case ClaimNext(_, _) => Oldest(q.items, q.order)
    case ClaimItem(id, _, _) => Some(id)
    case Complete(id, _, _, _, _, _, _) => Some(id)
    case MarkRetried(id, _, _) => Some(id)
    case Abandon(id, _, _) => Some(id)
  }

  ghost predicate Transition(env: Env, q: Queue, op: Op, q': Queue, answer: Answer) {
    var target := Target(q, op);
    && target.Some? && target.value in q.items && Legal(op, q.items[target.value])
    && answer == Ok(After(op, q.items[target.value]))
    && Updates(env, q, q', answer.item)
  }

  lemma {:induction false} EnqueueForm(env: Env, q: Queue, intent: string, kind: string, anchor: string, now: int)
    requires Shape(q)
    ensures var (q', answer) := EnqueueStep(env, q, intent, kind, anchor, now);
      || (intent in q.byIntent && q' == q)
      || (answer == Ok(NewItem(Tag("REC", q.next), intent, kind, anchor, now)) && Creates(env, q, q', answer.item))
  {
    if intent !in q.byIntent {
      var item := NewItem(Tag("REC", q.next), intent, kind, anchor, now);
      TagInOrder(q, q.next);
      var q1 := q.(order := q.order + [item.id], byIntent := q.byIntent[intent := item.id], next := q.next + 1);
      ApplyPuts(env, q1, "REC_ENQUEUE", item, map["kind" := Text(kind)], now);
    }
  }

  lemma {:induction false} ClaimNextForm(env: Env, q: Queue, op: Op)
    requires Shape(q) && op.ClaimNext?
    ensures var (q', answer) := ClaimNextStep(env, q, op.token, op.now); (q' == q && !answer.Ok?) || Transition(env, q, op, q', answer)
  {
    OldestIsOldest(q.items, q.order);
    var best := Oldest(q.items, q.order);
    if best.Some? {
      ApplyPuts(env, q, "REC_CLAIM", After(op, q.items[best.value]), map["fencing_token" := Number(op.token)], op.now);
    }
  }

  lemma {:induction false} ClaimItemForm(env: Env, q: Queue, op: Op)
    requires Shape(q) && op.ClaimItem?
    ensures var (q', answer) := ClaimItemStep(env, q, op.id, op.token, op.now); (q' == q && !answer.Ok?) || Transition(env, q, op, q', answer)
  {
    if op.id in q.items {
      ApplyPuts(env, q, "REC_CLAIM", After(op, q.items[op.id]),
                map["fencing_token" := Number(op.token), "override" := Text("claim_item")], op.now);
    }
  }

  lemma {:induction false} CompleteForm(env: Env, q: Queue, op: Op)
    requires Shape(q) && op.Complete?
    ensures var (q', answer) := Perform(env, q, op); (q' == q && !answer.Ok?) || Transition(env, q, op, q', answer)
  {
    if op.id in q.items {
      ApplyPuts(env, q, ClassifyEvent(op.next), After(op, q.items[op.id]), CompletionExtra(op.classification, op.resolution), op.now);
    }
  }

  lemma {:induction false} CloseForm(env: Env, q: Queue, op: Op)
    requires Shape(q) && (op.MarkRetried? || op.Abandon?)
    ensures var (q', answer) := Perform(env, q, op); (q' == q && !answer.Ok?) || Transition(env, q, op, q', answer)
  {
    match op
    case MarkRetried(id, resolution, now) =>
      if id in q.items {
        ApplyPuts(env, q, "REC_RETRIED", After(op, q.items[id]), map["resolution_ref" := OptionalText(resolution)], now);
      }
    case Abandon(id, why, now) =>
      if id in q.items {
        ApplyPuts(env, q, "REC_ABANDONED", After(op, q.items[id]), map["operator_reason" := Text(why)], now);
      }
  }

  // What one command does: nothing, or one transition of one of the two forms.
  lemma {:induction false} PerformForm(env: Env, q: Queue, op: Op)
    requires Shape(q)
    ensures var (q', answer) := Perform(env, q, op);
      || (q' == q)
      || (op.Enqueue? && answer == Ok(NewItem(Tag("REC", q.next), op.intent, op.kind, op.anchor, op.now)) && Creates(env, q, q', answer.item))
      || (!op.Enqueue? && Transition(env, q, op, q', answer))
  {
    match op
    case Enqueue(intent, kind, anchor, now) => EnqueueForm(env, q, intent, kind, anchor, now);
    case ClaimNext(_, _) => ClaimNextForm(env, q, op);
    case ClaimItem(_, _, _) => ClaimItemForm(env, q, op);
    case Complete(_, _, _, _, _, _, _) => CompleteForm(env, q, op);
    case MarkRetried(_, _, _) => CloseForm(env, q, op);
    case Abandon(_, _, _) => CloseForm(env, q, op);
  }

  lemma {:induction false} InLonger(s: seq<string>, x: string, id: string)
    ensures id in s + [x] <==> id in s || id == x
  {
  }

  lemma {:induction false} LongerOrder(order: seq<string>, n: nat, id: string)
    requires n >= 1 && |order| == n - 1 && id == Tag("REC", n) && forall i :: 0 <= i < |order| ==> order[i] == Tag("REC", i + 1)
    ensures forall i :: 0 <= i < |order + [id]| ==> (order + [id])[i] == Tag("REC", i + 1)
  {
  }

  lemma {:induction false} CreateKeepsOrder(env: Env, q: Queue, q': Queue, item: Item)
    requires OrderShape(q) && Creates(env, q, q', item)
    ensures OrderShape(q')
  {
    LongerOrder(q.order, q.next, item.id);
    forall id
      ensures id in q'.items <==> id in q'.order
    {
      InLonger(q.order, item.id, id);
    }
  }

  lemma {:induction false} CreateKeepsIndex(env: Env, q: Queue, q': Queue, item: Item)
    requires IndexShape(q) && Creates(env, q, q', item)
    ensures IndexShape(q')
  {
    forall id | id in q'.items
      ensures q'.items[id].id == id && q'.items[id].intent in q'.byIntent && q'.byIntent[q'.items[id].intent] == id
    {
      if id != item.id {
        assert q.items[id].intent != item.intent;
      }
    }
  }

  lemma {:induction false} CreateKeepsShape(env: Env, q: Queue, q': Queue, item: Item)
    requires Shape(q) && Creates(env, q, q', item)
    ensures Shape(q')
  {
    CreateKeepsOrder(env, q, q', item);
    CreateKeepsIndex(env, q, q', item);
  }

  lemma {:induction false} UpdateKeepsShape(env: Env, q: Queue, q': Queue, item: Item)
    requires Shape(q) && Updates(env, q, q', item)
    ensures Shape(q')
  {
  }

  // Replay and audit

  // An audit record tells the item, its intent and its status.
  predicate Mirrors(r: Record, item: Item) {
    && ITEM_ID in r.payload && r.payload[ITEM_ID] == Text(item.id)
    && INTENT_KEY in r.payload && r.payload[INTENT_KEY] == Text(item.intent)
    && STATUS in r.payload && r.payload[STATUS] == Text(StatusText(item.status))
  }

  predicate LockStep(env: Env, q: Queue) {
    && Verified(env.crypto, q.chain)
    && |q.chain.records| == |q.log|
    && forall i :: 0 <= i < |q.log| ==> Mirrors(q.chain.records[i], q.log[i])
  }

  predicate Replayed(q: Queue) {
    var r := Replay(q.log);
    r.items == q.items && r.order == q.order && r.byIntent == q.byIntent
  }

  lemma {:induction false} FieldsArePublic()
    ensures !Sensitive(ITEM_ID) && !Sensitive(INTENT_KEY) && !Sensitive(STATUS)
  {
    assert |Lower(ITEM_ID)| == 7;
    assert Lower(INTENT_KEY)[0] == 'i' && |Lower(INTENT_KEY)| == 10;
    assert Lower(STATUS)[1] == 't' && |Lower(STATUS)| == 6;
  }

  lemma {:induction false} EmitMirrors(env: Env, ch: Chain, event: string, item: Item, extra: Payload, now: int)
    requires HexDigests(env.crypto) && Verified(env.crypto, ch) && Disjoint(extra)
    ensures var ch' := Emit(env, ch, event, item, extra, now);
      && Verified(env.crypto, ch') && |ch'.records| == |ch.records| + 1
      && ch'.records[..|ch.records|] == ch.records && Mirrors(ch'.records[|ch.records|], item)
  {
    HeadIsHashText(env.crypto, ch);
    FieldsArePublic();
    var r := EventRecord(env, ch, event, item, extra, now).value;
    ExtendVerifies(env.crypto, ch, r);
  }

  lemma {:induction false} PutKeepsLockStep(env: Env, q: Queue, q': Queue, item: Item)
    requires HexDigests(env.crypto) && LockStep(env, q) && Puts(env, q, q', item)
    ensures LockStep(env, q')
  {
    var event, extra, now :| Disjoint(extra) && q'.chain == Emit(env, q.chain, event, item, extra, now);
    EmitMirrors(env, q.chain, event, item, extra, now);
    forall i | 0 <= i < |q'.log|
      ensures Mirrors(q'.chain.records[i], q'.log[i])
    {
      if i < |q.log| {
        assert q'.chain.records[i] == q'.chain.records[..|q.log|][i];
        assert Mirrors(q.chain.records[i], q.log[i]);
      }
    }
  }

  lemma {:induction false} ReplayMore(log: seq<Item>, item: Item)
    ensures Replay(log + [item]) == ReplayStep(Replay(log), item)
  {
    assert (log + [item])[..|log|] == log;
  }

  lemma {:induction false} UpdateKeepsReplay(env: Env, q: Queue, q': Queue, item: Item)
    requires Shape(q) && Replayed(q) && Updates(env, q, q', item)
    ensures Replayed(q')
  {
    ReplayMore(q.log, item);
    assert q.byIntent[item.intent := item.id] == q.byIntent;
  }

  lemma {:induction false} CreateKeepsReplay(env: Env, q: Queue, q': Queue, item: Item)
    requires Replayed(q) && Creates(env, q, q', item)
    ensures Replayed(q')
  {
    ReplayMore(q.log, item);
  }

  ghost predicate QueueInv(env: Env, q: Queue) {
    Shape(q) && LockStep(env, q) && Replayed(q)
  }

  lemma {:induction false} PerformKeeps(env: Env, q: Queue, op: Op)
    requires HexDigests(env.crypto) && QueueInv(env, q)
    ensures QueueInv(env, Perform(env, q, op).0)
  {
    var (q', answer) := Perform(env, q, op);
    PerformForm(env, q, op);
    if q' != q {
      var item := answer.item;
      if op.Enqueue? {
        CreateKeepsShape(env, q, q', item);
        CreateKeepsReplay(env, q, q', item);
      } else {
        UpdateKeepsShape(env, q, q', item);
        UpdateKeepsReplay(env, q, q', item);
      }
      PutKeepsLockStep(env, q, q', item);
    }
  }

  lemma {:induction false} RunKeeps(env: Env, ops: seq<Op>)
    requires HexDigests(env.crypto)
    ensures QueueInv(env, Run(env, START, ops).queue)
  {
    if ops != [] {
      RunKeeps(env, ops[..|ops| - 1]);
      PerformKeeps(env, Run(env, START, ops[..|ops| - 1]).queue, ops[|ops| - 1]);
    }
  }

  // In every reachable state, replaying the transition log rebuilds the items and the intent index exactly.
  lemma {:induction false} ReplayRebuilds(env: Env, ops: seq<Op>)
    requires HexDigests(env.crypto)
    ensures var q := Run(env, START, ops).queue;
      Replay(q.log).items == q.items && Replay(q.log).order == q.order && Replay(q.log).byIntent == q.byIntent
  {
    RunKeeps(env, ops);
  }

  // In every reachable state the audit chain verifies and holds one record per snapshot, with its item, intent and status.
  lemma {:induction false} AuditMirrorsLog(env: Env, ops: seq<Op>)
    requires HexDigests(env.crypto)
    ensures var q := Run(env, START, ops).queue;
      && Verified(env.crypto, q.chain) && |q.chain.records| == |q.log|
      && forall i :: 0 <= i < |q.log| ==> Mirrors(q.chain.records[i], q.log[i])
  {
    RunKeeps(env, ops);
  }

  // The counter after a replay

  lemma {:induction false} OnlyDigitsConcat(a: string, b: string)
    ensures OnlyDigits(a + b) == OnlyDigits(a) + OnlyDigits(b)
  {
    if a == [] {
      assert a + b == b;
    } else {
      assert (a + b)[1..] == a[1..] + b;
      OnlyDigitsConcat(a[1..], b);
    }
  }

  lemma {:induction false} NumberOfTag(n: nat)
    ensures OnlyDigits(Tag("REC", n)) == Pad6(n) && NumberOf(Pad6(n)) == n
  {
    assert OnlyDigits("REC-") == "" by {
      assert "REC-"[1..] == "EC-" && "EC-"[1..] == "C-" && "C-"[1..] == "-" && "-"[1..] == "";
    }
    assert Tag("REC", n) == "REC-" + Pad6(n);
    OnlyDigitsConcat("REC-", Pad6(n));
    OnlyDigitsOfDigits(Pad6(n));
    NumberOfPad6(n);
  }

  predicate LoggedItemsKnown(q: Queue) {
    forall i :: 0 <= i < |q.log| ==> q.log[i].id in q.items
  }

  lemma {:induction false} PerformLogsKnownItems(env: Env, q: Queue, op: Op)
    requires Shape(q) && LoggedItemsKnown(q) && (q.log == [] ==> q.next == 1)
    ensures var q' := Perform(env, q, op).0; LoggedItemsKnown(q') && (q'.log == [] ==> q'.next == 1)
  {
    PerformForm(env, q, op);
  }

  lemma {:induction false} RunLogsKnownItems(env: Env, ops: seq<Op>)
    requires HexDigests(env.crypto)
    ensures LoggedItemsKnown(Run(env, START, ops).queue)
    ensures var q := Run(env, START, ops).queue; q.log == [] ==> q.next == 1
  {
    if ops != [] {
      var before := Run(env, START, ops[..|ops| - 1]);
      RunLogsKnownItems(env, ops[..|ops| - 1]);
      RunKeeps(env, ops[..|ops| - 1]);
      StepQueue(env, before, ops[|ops| - 1]);
      PerformLogsKnownItems(env, before.queue, ops[|ops| - 1]);
    }
  }

  lemma {:induction false} OrderIsDistinct(q: Queue, i: nat, j: nat)
    requires Shape(q) && i < |q.order| && j < |q.order|
    ensures q.order[i] == q.order[j] <==> i == j
  {
    TagNames(q.order[i], "REC", i + 1, j + 1);
  }

  // The counter a replay ends with is the one behind the item of the last snapshot.
  lemma {:induction false} ReplayedNumber(q: Queue) returns (i: nat)
    requires Shape(q) && LoggedItemsKnown(q) && q.log != []
    ensures i < |q.order| && q.log[|q.log| - 1].id == q.order[i] && Replay(q.log).next == i + 2
  {
    var last := q.log[|q.log| - 1];
    i :| 0 <= i < |q.order| && q.order[i] == last.id;
    NumberOfTag(i + 1);
  }

  // Nothing was logged, or the last snapshot is one of the newest item.
  predicate NewestLast(q: Queue) {
    q.log == [] || (q.order != [] && q.log[|q.log| - 1].id == q.order[|q.order| - 1])
  }

  lemma {:induction false} CounterAfterReplay(q: Queue)
    requires Shape(q) && LoggedItemsKnown(q) && (q.log == [] ==> q.next == 1)
    ensures Replay(q.log).next == q.next <==> NewestLast(q)
    ensures Tag("REC", Replay(q.log).next) in q.items <==> Replay(q.log).next != q.next
  {
    if q.log != [] {
      var i := ReplayedNumber(q);
      OrderIsDistinct(q, i, |q.order| - 1);
    }
    TagInOrder(q, Replay(q.log).next);
  }

  // Replay restores the counter exactly when the last snapshot is one of the newest item (or nothing was logged).
  // Otherwise, and only then, the first identifier issued after the replay already names an item.
  lemma {:induction false} ReplayedCounter(env: Env, ops: seq<Op>)
    requires HexDigests(env.crypto)
    ensures var q := Run(env, START, ops).queue; var r := Replay(q.log);
      && (r.next == q.next <==> NewestLast(q))
      && (Tag("REC", r.next) in r.items <==> !NewestLast(q))
  {
    RunKeeps(env, ops);
    RunLogsKnownItems(env, ops);
    CounterAfterReplay(Run(env, START, ops).queue);
  }

  // Fencing

  function LastEvent(history: seq<Event>, id: string): Option<Event> {
    if history == [] then None
    else if history[|history| - 1].id == id then Some(history[|history| - 1])
    else LastEvent(history[..|history| - 1], id)
  }

  function Completions(history: seq<Event>, id: string): nat {
    if history == [] then 0
    else
      var e := history[|history| - 1];
      Completions(history[..|history| - 1], id) + (if e.Completed? && e.id == id then 1 else 0)
  }

  // The classification behind the latest escalation of the item.
  function LastEscalation(history: seq<Event>, id: string): Option<Class> {
    if history == [] then None
    else
      var e := history[|history| - 1];
      if e.Completed? && e.id == id && e.next.Escalated? then Some(e.classification)
      else LastEscalation(history[..|history| - 1], id)
  }

  // A completion ends the latest claim; a claim inside a classification takes a greater token.
  predicate Placed(history: seq<Event>, i: nat)
    requires i < |history|
  {
    var e := history[i];
    var last := LastEvent(history[..i], e.id);
    && (e.Completed? ==> last == Some(Claimed(e.id, e.token)))
    && (e.Claimed? ==> last.Some? && (last.value.Claimed? ==> last.value.token < e.token))
  }

  predicate ItemTells(s: Session, id: string)
    requires id in s.queue.items
  {
    var item := s.queue.items[id];
    var last := LastEvent(s.history, id);
    && last.Some?
    && (item.status.Classifying? <==> last.value.Claimed?)
    && (item.status.Classifying? ==> last == Some(Claimed(id, item.token)))
    && (item.token != 0 ==> item.status.Classifying?)
    && item.attempts == Completions(s.history, id)
    && item.escalatedFrom == LastEscalation(s.history, id)
    && (item.status.SafeRetryable? ==> item.escalatedFrom != Some(Ambiguous))
  }

  ghost predicate HistoryInv(s: Session) {
    && (forall i :: 0 <= i < |s.history| ==> Placed(s.history, i))
    && (forall id :: id in s.queue.items ==> ItemTells(s, id))
    && (forall id :: id !in s.queue.items ==> LastEvent(s.history, id) == None && Completions(s.history, id) == 0 && LastEscalation(s.history, id) == None)
  }

  // Appending an event about one item leaves what the history says about the others.
  lemma {:induction false} HistoryGrows(history: seq<Event>, e: Event)
    ensures var longer := history + [e];
      && LastEvent(longer, e.id) == Some(e)
      && Completions(longer, e.id) == Completions(history, e.id) + (if e.Completed? then 1 else 0)
      && LastEscalation(longer, e.id) == (if e.Completed? && e.next.Escalated? then Some(e.classification) else LastEscalation(history, e.id))
      && (forall id :: id != e.id ==> LastEvent(longer, id) == LastEvent(history, id))
      && (forall id :: id != e.id ==> Completions(longer, id) == Completions(history, id))
      && (forall id :: id != e.id ==> LastEscalation(longer, id) == LastEscalation(history, id))
  {
    assert (history + [e])[..|history|] == history;
  }

  lemma {:induction false} PlacedGrows(history: seq<Event>, e: Event)
    requires forall i :: 0 <= i < |history| ==> Placed(history, i)
    requires Placed(history + [e], |history|)
    ensures forall i :: 0 <= i < |history + [e]| ==> Placed(history + [e], i)
  {
    forall i | 0 <= i < |history|
      ensures Placed(history + [e], i)
    {
      assert (history + [e])[..i] == history[..i];
      assert Placed(history, i);
    }
  }

  // An accepted command's item agrees with the history that gains its event.
  lemma {:induction false} AfterTells(s: Session, q': Queue, op: Op, id: string)
    requires id in s.queue.items && s.queue.items[id].id == id && ItemTells(s, id) && Legal(op, s.queue.items[id])
    requires q'.items == s.queue.items[id := After(op, s.queue.items[id])]
    ensures var e := EventOf(op, After(op, s.queue.items[id]));
      e.id == id && Placed(s.history + [e], |s.history|) && ItemTells(Session(q', s.history + [e]), id)
  {
    var e := EventOf(op, After(op, s.queue.items[id]));
    HistoryGrows(s.history, e);
    assert (s.history + [e])[..|s.history|] == s.history;
  }

  lemma {:induction false} NewTells(s: Session, q': Queue, item: Item)
    requires HistoryInv(s) && item.id !in s.queue.items && q'.items == s.queue.items[item.id := item]
    requires item.status.Pending? && item.attempts == 0 && item.token == 0 && item.escalatedFrom == None
    ensures var e := Enqueued(item.id);
      Placed(s.history + [e], |s.history|) && ItemTells(Session(q', s.history + [e]), item.id)
  {
    HistoryGrows(s.history, Enqueued(item.id));
  }

  lemma {:induction false} StepKeepsHistory(env: Env, s: Session, op: Op)
    requires Shape(s.queue) && HistoryInv(s)
    ensures HistoryInv(Step(env, s, op))
  {
    var (q, answer) := Perform(env, s.queue, op);
    PerformForm(env, s.queue, op);
    if q != s.queue {
      var e := EventOf(op, answer.item);
      var s' := Session(q, s.history + [e]);
      if op.Enqueue? {
        NewTells(s, q, answer.item);
      } else {
        assert ItemTells(s, Target(s.queue, op).value);
        AfterTells(s, q, op, Target(s.queue, op).value);
      }
      assert Step(env, s, op) == s';
      OthersTell(s, s', e);
    }
  }

  lemma {:induction false} OthersTell(s: Session, s': Session, e: Event)
    requires HistoryInv(s) && s'.history == s.history + [e]
    requires e.id in s'.queue.items && s'.queue.items == s.queue.items[e.id := s'.queue.items[e.id]]
    requires Placed(s'.history, |s.history|) && ItemTells(s', e.id)
    ensures HistoryInv(s')
  {
    HistoryGrows(s.history, e);
    PlacedGrows(s.history, e);
    forall id | id in s'.queue.items
      ensures ItemTells(s', id)
    {
      if id != e.id {
        assert ItemTells(s, id);
      }
    }
  }

  lemma {:induction false} RunKeepsHistory(env: Env, ops: seq<Op>)
    requires HexDigests(env.crypto)
    ensures HistoryInv(Run(env, START, ops))
  {
    if ops != [] {
      RunKeepsHistory(env, ops[..|ops| - 1]);
      RunKeeps(env, ops[..|ops| - 1]);
      StepKeepsHistory(env, Run(env, START, ops[..|ops| - 1]), ops[|ops| - 1]);
    }
  }

  predicate Silent(history: seq<Event>, id: string, from: int, to: int)
    requires 0 <= from && to <= |history|
  {
    forall k :: from <= k < to ==> history[k].id != id
  }

  // Where the last event of an item before position `end` stands.
  lemma {:induction false} LastEventAt(history: seq<Event>, end: nat, id: string) returns (j: int)
    requires end <= |history|
    ensures -1 <= j < end && Silent(history, id, j + 1, end)
    ensures j == -1 ==> LastEvent(history[..end], id) == None
    ensures j >= 0 ==> history[j].id == id && LastEvent(history[..end], id) == Some(history[j])
  {
    if end == 0 {
      j := -1;
    } else {
      assert history[..end][..end - 1] == history[..end - 1];
      if history[end - 1].id == id {
        j := end - 1;
      } else {
        j := LastEventAt(history, end - 1, id);
      }
    }
  }

  // Every completion is made with the token of the latest claim of the item, and nothing happened to the item
  // in between: so a claim is completed at most once, and never by an overtaken claimant.
  lemma {:induction false} CompletionByLatestClaimant(env: Env, ops: seq<Op>, i: nat)
    requires HexDigests(env.crypto)
    requires i < |Run(env, START, ops).history| && Run(env, START, ops).history[i].Completed?
    ensures var h := Run(env, START, ops).history;
      exists j :: 0 <= j < i && h[j] == Claimed(h[i].id, h[i].token) && Silent(h, h[i].id, j + 1, i)
  {
    RunKeepsHistory(env, ops);
    var h := Run(env, START, ops).history;
    assert Placed(h, i);
    var j := LastEventAt(h, i, h[i].id);
    assert h[j] == Claimed(h[i].id, h[i].token);
  }

  // Between two completions of one item lies a new claim.
  lemma {:induction false} OneCompletionPerClaim(env: Env, ops: seq<Op>, i: nat, k: nat)
    requires HexDigests(env.crypto)
    requires var h := Run(env, START, ops).history; i < k < |h| && h[i].Completed? && h[k].Completed? && h[i].id == h[k].id
    ensures var h := Run(env, START, ops).history;
      exists j :: i < j < k && h[j] == Claimed(h[k].id, h[k].token)
  {
    CompletionByLatestClaimant(env, ops, k);
    var h := Run(env, START, ops).history;
    var j :| 0 <= j < k && h[j] == Claimed(h[k].id, h[k].token) && Silent(h, h[k].id, j + 1, k);
    assert i <= j;
  }

  // Re-claims within one classification strictly increase the token.
  lemma {:induction false} ReclaimsIncrease(env: Env, ops: seq<Op>, j: nat, i: nat)
    requires HexDigests(env.crypto)
    requires var h := Run(env, START, ops).history;
      j < i < |h| && h[j].Claimed? && h[i].Claimed? && h[j].id == h[i].id && Silent(h, h[i].id, j + 1, i)
    ensures var h := Run(env, START, ops).history; h[j].token < h[i].token
  {
    RunKeepsHistory(env, ops);
    var h := Run(env, START, ops).history;
    assert Placed(h, i);
    var m := LastEventAt(h, i, h[i].id);
    assert m == j;
  }

  // Tokens live only in CLASSIFYING, attempts count completions, and the recorded escalation is the latest one.
  lemma {:induction false} ItemsTellHistory(env: Env, ops: seq<Op>, id: string)
    requires HexDigests(env.crypto)
    requires id in Run(env, START, ops).queue.items
    ensures var s := Run(env, START, ops); var item := s.queue.items[id];
      && (item.token != 0 ==> item.status.Classifying?)
      && item.attempts == Completions(s.history, id)
      && item.escalatedFrom == LastEscalation(s.history, id)
      && !(item.status.SafeRetryable? && item.escalatedFrom == Some(Ambiguous))
  {
    RunKeepsHistory(env, ops);
    assert ItemTells(Run(env, START, ops), id);
  }

  lemma {:induction false} PerformKeepsShape(env: Env, q: Queue, op: Op)
    requires Shape(q)
    ensures Shape(Perform(env, q, op).0)
  {
    var (q', answer) := Perform(env, q, op);
    PerformForm(env, q, op);
    if q' != q {
      if op.Enqueue? {
        CreateKeepsShape(env, q, q', answer.item);
      } else {
        UpdateKeepsShape(env, q, q', answer.item);
      }
    }
  }

  // An existing item is left alone, or moved by a legal command.
  lemma {:induction false} ItemAfterPerform(env: Env, q: Queue, op: Op, id: string)
    requires Shape(q) && id in q.items
    ensures var items := Perform(env, q, op).0.items;
      id in items && (items[id] == q.items[id] || (Legal(op, q.items[id]) && items[id] == After(op, q.items[id])))
  {
    PerformForm(env, q, op);
  }

  lemma {:induction false} TerminalIsFinal(op: Op, item: Item)
    requires item.status.Resolved? || item.status.Abandoned?
    ensures !Legal(op, item)
  {
  }

  lemma {:induction false} TerminalStep(env: Env, s: Session, op: Op, id: string)
    requires Shape(s.queue) && id in s.queue.items && (s.queue.items[id].status.Resolved? || s.queue.items[id].status.Abandoned?)
    ensures var q := Step(env, s, op).queue;
      Shape(q) && id in q.items && q.items[id] == s.queue.items[id]
  {
    StepQueue(env, s, op);
    PerformKeepsShape(env, s.queue, op);
    TerminalIsFinal(op, s.queue.items[id]);
    ItemAfterPerform(env, s.queue, op, id);
  }

  // Terminal items never change again.
  lemma {:induction false} TerminalIsForever(env: Env, s: Session, ops: seq<Op>, id: string)
    requires Shape(s.queue)
    requires id in s.queue.items && (s.queue.items[id].status.Resolved? || s.queue.items[id].status.Abandoned?)
    ensures Shape(Run(env, s, ops).queue)
    ensures id in Run(env, s, ops).queue.items && Run(env, s, ops).queue.items[id] == s.queue.items[id]
  {
    if ops != [] {
      TerminalIsForever(env, s, ops[..|ops| - 1], id);
      TerminalStep(env, Run(env, s, ops[..|ops| - 1]), ops[|ops| - 1], id);
    }
  }

  // Escalation memory

  // The owner's completion to SAFE_RETRYABLE is accepted exactly when the latest escalation was not AMBIGUOUS:
  // an earlier AMBIGUOUS one does not count.
  lemma {:induction false} RetryLaneGuard(env: Env, ops: seq<Op>, id: string, token: int, classification: Class)
    requires HexDigests(env.crypto)
    requires var q := Run(env, START, ops).queue; id in q.items && q.items[id].status.Classifying? && q.items[id].token == token && token > 0
    ensures var s := Run(env, START, ops);
      CompletionRefusal(s.queue.items[id], token, classification, SafeRetryable) == None <==> LastEscalation(s.history, id) != Some(Ambiguous)
  {
    ItemsTellHistory(env, ops, id);
  }

  lemma {:induction false} ClaimIsApplied(env: Env, q: Queue, id: string, token: int, now: int)
    requires Shape(q) && id in q.items && Legal(ClaimItem(id, token, now), q.items[id])
    ensures ClaimItemStep(env, q, id, token, now).0.items == q.items[id := After(ClaimItem(id, token, now), q.items[id])]
  {
  }

  lemma {:induction false} CompletionIsApplied(env: Env, q: Queue, op: Op)
    requires Shape(q) && op.Complete? && op.id in q.items && Legal(op, q.items[op.id])
    ensures CompleteStep(env, q, op.id, op.token, op.classification, op.next, op.resolution, op.reason, op.now).0.items
         == q.items[op.id := After(op, q.items[op.id])]
  {
  }

  // A legal claim or completion is applied to its item.
  lemma {:induction false} LegalIsApplied(env: Env, q: Queue, op: Op)
    requires Shape(q) && (op.ClaimItem? || op.Complete?) && op.id in q.items && Legal(op, q.items[op.id])
    ensures Shape(Perform(env, q, op).0)
    ensures Perform(env, q, op).0.items == q.items[op.id := After(op, q.items[op.id])]
  {
    PerformKeepsShape(env, q, op);
    match op
    case ClaimItem(id, token, now) => ClaimIsApplied(env, q, id, token, now);
    case _ => CompletionIsApplied(env, q, op);
  }

  lemma {:induction false} FourSteps(env: Env, q: Queue, q1: Queue, q2: Queue, q3: Queue, a: Op, b: Op, c: Op, d: Op)
    requires Shape(q) && a.ClaimItem? && b.Complete? && c.ClaimItem? && d.Complete? && a.id == b.id == c.id == d.id
    requires q1 == Perform(env, q, a).0 && q2 == Perform(env, q1, b).0 && q3 == Perform(env, q2, c).0
    requires a.id in q.items
    requires var i0 := q.items[a.id]; var i1 := After(a, i0); var i2 := After(b, i1); var i3 := After(c, i2);
      Legal(a, i0) && Legal(b, i1) && Legal(c, i2) && Legal(d, i3)
    ensures var items := Perform(env, q3, d).0.items;
      a.id in items && items[a.id] == After(d, After(c, After(b, After(a, q.items[a.id]))))
  {
    LegalIsApplied(env, q, a);
    LegalIsApplied(env, q1, b);
    LegalIsApplied(env, q2, c);
    LegalIsApplied(env, q3, d);
  }

  lemma {:induction false} ForgettingIsLegal(item: Item, id: string, now: int)
    requires item.status.Escalated? && item.token == 0
    ensures var i1 := After(ClaimItem(id, 1, now), item);
      var i2 := After(Complete(id, 1, Unavailable, Escalated, None, None, now), i1);
      var i3 := After(ClaimItem(id, 2, now), i2);
      && Legal(ClaimItem(id, 1, now), item) && Legal(Complete(id, 1, Unavailable, Escalated, None, None, now), i1)
      && Legal(ClaimItem(id, 2, now), i2) && Legal(Complete(id, 2, Absent, SafeRetryable, None, None, now), i3)
  {
  }

  // The memory of AMBIGUOUS can be lost: whatever item was escalated as AMBIGUOUS, a claim that ends in an
  // UNAVAILABLE escalation and one more claim bring it to SAFE_RETRYABLE.
  lemma {:induction false} AmbiguousCanBeForgotten(env: Env, q: Queue, id: string, now: int)
    requires Shape(q) && id in q.items && q.items[id].status.Escalated? && q.items[id].token == 0 && q.items[id].escalatedFrom == Some(Ambiguous)
    ensures var q1 := Perform(env, q, ClaimItem(id, 1, now)).0;
      var q2 := Perform(env, q1, Complete(id, 1, Unavailable, Escalated, None, None, now)).0;
      var q3 := Perform(env, q2, ClaimItem(id, 2, now)).0;
      var q4 := Perform(env, q3, Complete(id, 2, Absent, SafeRetryable, None, None, now)).0;
      id in q4.items && q4.items[id].status.SafeRetryable?
  {
    var a, b := ClaimItem(id, 1, now), Complete(id, 1, Unavailable, Escalated, None, None, now);
    var c, d := ClaimItem(id, 2, now), Complete(id, 2, Absent, SafeRetryable, None, None, now);
    var q1 := Perform(env, q, a).0;
    var q2 := Perform(env, q1, b).0;
    ForgettingIsLegal(q.items[id], id, now);
    FourSteps(env, q, q1, q2, Perform(env, q2, c).0, a, b, c, d);
  }

  // Such an item is reached from the start by three commands.
  function ToAmbiguous(intent: string, kind: string, anchor: string, now: int): seq<Op> {
    [Enqueue(intent, kind, anchor, now), ClaimNext(1, now), Complete(Tag("REC", 1), 1, Ambiguous, Escalated, None, None, now)]
  }

  lemma {:induction false} RunOneMore(env: Env, s: Session, ops: seq<Op>, op: Op)
    ensures Run(env, s, ops + [op]).queue == Perform(env, Run(env, s, ops).queue, op).0
  {
    assert (ops + [op])[..|ops|] == ops;
    StepQueue(env, Run(env, s, ops), op);
  }

  lemma {:induction false} RunThree(env: Env, s: Session, a: Op, b: Op, c: Op)
    ensures Run(env, s, [a, b, c]).queue == Perform(env, Perform(env, Perform(env, s.queue, a).0, b).0, c).0
  {
    RunOneMore(env, s, [], a);
    RunOneMore(env, s, [a], b);
    RunOneMore(env, s, [a, b], c);
    assert [] + [a] == [a] && [a] + [b] == [a, b] && [a, b] + [c] == [a, b, c];
  }

  // The item enqueued first, escalated: from any queue that holds it alone.
  lemma {:induction false} FirstEnqueued(env: Env, q: Queue, enqueue: Op)
    requires q == EMPTY_QUEUE && enqueue.Enqueue?
    ensures var q' := Perform(env, q, enqueue).0; var id := Tag("REC", 1); Shape(q') && q'.order == [id] && id in q'.items && q'.items[id].status.Pending?
  {
    PerformKeepsShape(env, q, enqueue);
  }

  lemma {:induction false} FirstClaimed(env: Env, q: Queue, claim: Op)
    requires Shape(q) && q.order == [Tag("REC", 1)] && Tag("REC", 1) in q.items && q.items[Tag("REC", 1)].status.Pending?
    requires claim.ClaimNext? && claim.token == 1
    ensures var id := Tag("REC", 1); var q' := Perform(env, q, claim).0;
      Shape(q') && id in q'.items && q'.items[id].status.Classifying? && q'.items[id].token == 1
  {
    assert q.order[..0] == [] && Oldest(q.items, q.order) == Some(Tag("REC", 1));
    PerformKeepsShape(env, q, claim);
  }

  // The item is escalated as AMBIGUOUS.
  predicate EscalatedFirst(q: Queue) {
    var id := Tag("REC", 1);
    id in q.items && q.items[id].status.Escalated? && q.items[id].token == 0 && q.items[id].escalatedFrom == Some(Ambiguous)
  }

  lemma {:induction false} FirstEscalated(env: Env, q: Queue, escalate: Op)
    requires Shape(q) && Tag("REC", 1) in q.items && q.items[Tag("REC", 1)].status.Classifying? && q.items[Tag("REC", 1)].token == 1
    requires escalate.Complete? && escalate.id == Tag("REC", 1) && escalate.token == 1
    requires escalate.classification.Ambiguous? && escalate.next.Escalated?
    ensures var q' := Perform(env, q, escalate).0; Shape(q') && EscalatedFirst(q')
  {
    LegalIsApplied(env, q, escalate);
  }

  lemma {:induction false} EscalatesFirst(env: Env, s: Session, a: Op, b: Op, c: Op)
    requires s.queue == EMPTY_QUEUE && a.Enqueue? && b.ClaimNext? && b.token == 1
    requires c.Complete? && c.id == Tag("REC", 1) && c.token == 1 && c.classification.Ambiguous? && c.next.Escalated?
    ensures Shape(Run(env, s, [a, b, c]).queue) && EscalatedFirst(Run(env, s, [a, b, c]).queue)
  {
    RunThree(env, s, a, b, c);
    FirstEnqueued(env, s.queue, a);
    FirstClaimed(env, Perform(env, s.queue, a).0, b);
    FirstEscalated(env, Perform(env, Perform(env, s.queue, a).0, b).0, c);
  }

  lemma {:induction false} AmbiguousReached(env: Env, intent: string, kind: string, anchor: string, now: int)
    ensures var q := Run(env, START, ToAmbiguous(intent, kind, anchor, now)).queue; var id := Tag("REC", 1);
      Shape(q) && id in q.items && q.items[id].status.Escalated? && q.items[id].token == 0 && q.items[id].escalatedFrom == Some(Ambiguous)
  {
    var ops := ToAmbiguous(intent, kind, anchor, now);
    EscalatesFirst(env, START, ops[0], ops[1], ops[2]);
    assert ops == [ops[0], ops[1], ops[2]];
  }
}
