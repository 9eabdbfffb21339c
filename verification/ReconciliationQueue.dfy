/**
  The operator queue (src/reconciliation/queue.py, src/contracts/reconciliation.py): the value
  transitions of its commands, and the class that applies them in place while it appends to the
  transition log and extends its audit chain.
 */
module ReconciliationQueue {
  import opened Wrappers
  import opened References
  import opened Audit

  datatype Class = Present | Absent | Ambiguous | Unavailable

  datatype ItemStatus = Pending | Classifying | SafeRetryable | Escalated | Resolved | Abandoned

  datatype Item = Item(
    id: string,
    intent: string,
    kind: string,
    anchor: string,
    status: ItemStatus,
    attempts: nat,
    token: int,
    lastClass: Option<Class>,
    resolution: Option<string>,
    reason: Option<string>,
    escalatedFrom: Option<Class>,
    enqueuedAt: int,
    updatedAt: int)

  datatype Env = Env(crypto: Crypto, stamp: int -> string)

  // `order` is the insertion order of the item dictionary.
  datatype Queue = Queue(
    items: map<string, Item>,
    order: seq<string>,
    byIntent: map<string, string>,
    next: nat,
    log: seq<Item>,
    chain: Chain)

  datatype Refusal = InvalidTransition | ItemLocked

  datatype Answer = Ok(item: Item) | Nothing | Err(refusal: Refusal)

  const EMPTY_QUEUE: Queue := Queue(map[], [], map[], 1, [], EMPTY_CHAIN)

  function ClassText(c: Class): string {
    match c
    case Present => "PRESENT"
    case Absent => "ABSENT"
    case Ambiguous => "AMBIGUOUS"
    case Unavailable => "UNAVAILABLE"
  }

  function StatusText(s: ItemStatus): string {
    match s
    case Pending => "PENDING"
    case Classifying => "CLASSIFYING"
    case SafeRetryable => "SAFE_RETRYABLE"
    case Escalated => "ESCALATED"
    case Resolved => "RESOLVED"
    case Abandoned => "ABANDONED"
  }

  predicate Allowed(from: ItemStatus, to: ItemStatus) {
    match from
    case Pending => to.Classifying?
    case Classifying => to.Resolved? || to.SafeRetryable? || to.Escalated? || to.Pending?
    case SafeRetryable => to.Resolved? || to.Classifying?
    case Escalated => to.Abandoned? || to.Classifying?
    case Resolved => false
    case Abandoned => false
  }

  function ClassifyEvent(next: ItemStatus): string {
    match next
    case Resolved => "REC_CLASSIFY_RESOLVED"
    case SafeRetryable => "REC_CLASSIFY_SAFE_RETRYABLE"
    case Escalated => "REC_CLASSIFY_ESCALATED"
    case _ => "REC_CLASSIFY_REQUEUED"
  }

  function OptionalText(t: Option<string>): Json {
    if t.Some? then Text(t.value) else Null
  }

  // Audit

  const ITEM_ID: string := "item_id"
  const INTENT_KEY: string := "intent_key"
  const STATUS: string := "status"

  function EventPayload(item: Item, extra: Payload): Payload {
    map[ITEM_ID := Text(item.id), INTENT_KEY := Text(item.intent), STATUS := Text(StatusText(item.status))] + extra
  }

  function EventRecord(env: Env, chain: Chain, event: string, item: Item, extra: Payload, now: int): Option<Record> {
    NewRecord(|chain.records| + 1, HeadHash(chain), event, "reconciliation-queue", env.stamp(now), EventPayload(item, extra))
  }

  function Emit(env: Env, chain: Chain, event: string, item: Item, extra: Payload, now: int): Chain {
    match EventRecord(env, chain, event, item, extra, now)
    case Some(r) => Extend(env.crypto, chain, r)
    case None => chain
  }

  // One applied transition: the new snapshot replaces the item, joins the log, and is audited.
  function Apply(env: Env, q: Queue, event: string, item: Item, extra: Payload, now: int): Queue {
    q.(items := q.items[item.id := item], log := q.log + [item], chain := Emit(env, q.chain, event, item, extra, now))
  }

  // Commands

  function NewItem(id: string, intent: string, kind: string, anchor: string, now: int): Item {
    Item(id, intent, kind, anchor, Pending, 0, 0, None, None, None, None, now, now)
  }

  function EnqueueStep(env: Env, q: Queue, intent: string, kind: string, anchor: string, now: int): (Queue, Answer) {
    if intent in q.byIntent && q.byIntent[intent] in q.items then
      var existing := q.items[q.byIntent[intent]];
      if existing.anchor != anchor || existing.kind != kind then (q, Err(InvalidTransition)) else (q, Ok(existing))
    else
      var item := NewItem(Tag("REC", q.next), intent, kind, anchor, now);
      var q1 := q.(order := if item.id in q.items then q.order else q.order + [item.id],
                   byIntent := q.byIntent[intent := item.id], next := q.next + 1);
      (Apply(env, q1, "REC_ENQUEUE", item, map["kind" := Text(kind)], now), Ok(item))
  }

  // The PENDING item whose identifier sorts first.
  function Oldest(items: map<string, Item>, order: seq<string>): Option<string> {
    if order == [] then None
    else
      var best := Oldest(items, order[..|order| - 1]);
      var id := order[|order| - 1];
      if id in items && items[id].status.Pending? && (best.None? || Before(id, best.value)) then Some(id) else best
  }

  function ClaimNextStep(env: Env, q: Queue, token: int, now: int): (Queue, Answer) {
    match Oldest(q.items, q.order)
    case None => (q, Nothing)
    case Some(id) =>
      if id !in q.items then (q, Nothing) else
      var claimed := q.items[id].(status := Classifying, token := token, updatedAt := now);
      (Apply(env, q, "REC_CLAIM", claimed, map["fencing_token" := Number(token)], now), Ok(claimed))
  }

  function ClaimItemStep(env: Env, q: Queue, id: string, token: int, now: int): (Queue, Answer) {
    if id !in q.items then (q, Err(InvalidTransition)) else
    var item := q.items[id];
    if item.status.Resolved? || item.status.Abandoned? then (q, Err(InvalidTransition))
    else if item.status.Pending? then (q, Err(InvalidTransition))
    else if token <= item.token then (q, Err(ItemLocked))
    else
      var claimed := item.(status := Classifying, token := token, updatedAt := now);
      (Apply(env, q, "REC_CLAIM", claimed, map["fencing_token" := Number(token), "override" := Text("claim_item")], now), Ok(claimed))
  }

  // Why a completion is refused, in the order the checks are made.
  function CompletionRefusal(item: Item, token: int, classification: Class, next: ItemStatus): Option<Refusal> {
    if item.token != token || token <= 0 then Some(ItemLocked)
    else if !Allowed(item.status, next) then Some(InvalidTransition)
    else if next.Resolved? && (classification.Absent? || classification.Unavailable?) then Some(InvalidTransition)
    else if next.SafeRetryable? && item.escalatedFrom == Some(Ambiguous) then Some(InvalidTransition)
    else None
  }

  function CompletedItem(item: Item, classification: Class, next: ItemStatus, resolution: Option<string>,
                         reason: Option<string>, now: int): Item {
    item.(status := next,
          attempts := item.attempts + 1,
          token := 0,
          lastClass := Some(classification),
          resolution := if resolution.Some? then resolution else item.resolution,
          reason := reason,
          escalatedFrom := if next.Escalated? then Some(classification) else item.escalatedFrom,
          updatedAt := now)
  }

  function CompletionExtra(classification: Class, resolution: Option<string>): Payload {
    map["classification" := Text(ClassText(classification)), "resolution_ref" := OptionalText(resolution)]
  }

  function CompleteStep(env: Env, q: Queue, id: string, token: int, classification: Class, next: ItemStatus,
                        resolution: Option<string>, reason: Option<string>, now: int): (Queue, Answer) {
    if id !in q.items then (q, Err(InvalidTransition)) else
    var item := q.items[id];
    match CompletionRefusal(item, token, classification, next)
    case Some(refusal) => (q, Err(refusal))
    case None =>
      var updated := CompletedItem(item, classification, next, resolution, reason, now);
      (Apply(env, q, ClassifyEvent(next), updated, CompletionExtra(classification, resolution), now), Ok(updated))
  }

  function MarkRetriedStep(env: Env, q: Queue, id: string, resolution: Option<string>, now: int): (Queue, Answer) {
    if id !in q.items || !q.items[id].status.SafeRetryable? then (q, Err(InvalidTransition)) else
    var updated := q.items[id].(status := Resolved, resolution := resolution, updatedAt := now);
    (Apply(env, q, "REC_RETRIED", updated, map["resolution_ref" := OptionalText(resolution)], now), Ok(updated))
  }

  function AbandonStep(env: Env, q: Queue, id: string, reason: string, now: int): (Queue, Answer) {
    if id !in q.items || Blank(reason) || !q.items[id].status.Escalated? then (q, Err(InvalidTransition)) else
    var updated := q.items[id].(status := Abandoned, reason := Some(reason), updatedAt := now);
    (Apply(env, q, "REC_ABANDONED", updated, map["operator_reason" := Text(reason)], now), Ok(updated))
  }

  // Restart from a transition log: items, insertion order, intent index and counter; a new log and chain.
  function ReplayStep(q: Queue, snapshot: Item): Queue {
    var digits := OnlyDigits(snapshot.id);
    q.(items := q.items[snapshot.id := snapshot],
       order := if snapshot.id in q.items then q.order else q.order + [snapshot.id],
       byIntent := q.byIntent[snapshot.intent := snapshot.id],
       next := if digits == "" then q.next else NumberOf(digits) + 1)
  }

  function Replay(log: seq<Item>): Queue {
    if log == [] then EMPTY_QUEUE else ReplayStep(Replay(log[..|log| - 1]), log[|log| - 1])
  }

  class OperatorQueue {
    const env: Env
    const audit: AuditChain
    var items: map<string, Item>
    var order: seq<string>
    var byIntent: map<string, string>
    var sequence: nat
    var log: seq<Item>

    constructor (env: Env)
      requires HexDigests(env.crypto)
      ensures Valid() && fresh(audit) && Model() == EMPTY_QUEUE && this.env == env
    {
      this.env := env;
      audit := new AuditChain(env.crypto);
      items, order, byIntent, sequence, log := map[], [], map[], 1, [];
    }

    ghost predicate Valid()
      reads this, audit
    {
      && audit.crypto == env.crypto && audit.Valid() && !audit.failNextAppend && HexDigests(env.crypto)
      && (forall id :: id in items ==> items[id].id == id)
      && (forall intent :: intent in byIntent ==> byIntent[intent] in items)
    }

    function Model(): Queue
      reads this, audit
    {
      Queue(items, order, byIntent, sequence, log, audit.Model())
    }

    // Every transition ends like this: replace the item, log the snapshot, append an audit
    // record built from the present head. The record continues the chain, so it is never refused.
    method Commit(event: string, item: Item, extra: Payload, now: int)
      requires Valid()
      modifies this, audit
      ensures Valid() && Model() == Apply(env, old(Model()), event, item, extra, now)
    {
      items := items[item.id := item];
      log := log + [item];
      HeadIsHashText(env.crypto, audit.Model());
      var record := EventRecord(env, audit.Model(), event, item, extra, now);
      var r := audit.Append(record.value);
    }

    method Enqueue(intent: string, kind: string, anchor: string, now: int) returns (r: Answer)
      requires Valid()
      modifies this, audit
      ensures Valid() && (Model(), r) == EnqueueStep(env, old(Model()), intent, kind, anchor, now)
    {
      if intent in byIntent {
        var existing := items[byIntent[intent]];
        if existing.anchor != anchor || existing.kind != kind {
          return Err(InvalidTransition);
        }
        return Ok(existing);
      }
      var item := NewItem(Tag("REC", sequence), intent, kind, anchor, now);
      sequence := sequence + 1;
      if item.id !in items {
        order := order + [item.id];
      }
      Commit("REC_ENQUEUE", item, map["kind" := Text(kind)], now);
      byIntent := byIntent[intent := item.id];
      return Ok(item);
    }

    method ClaimNext(token: int, now: int) returns (r: Answer)
      requires Valid()
      modifies this, audit
      ensures Valid() && (Model(), r) == ClaimNextStep(env, old(Model()), token, now)
    {
      var best: Option<string> := None;
      var i := 0;
      while i < |order|
        invariant 0 <= i <= |order|
        invariant best == Oldest(items, order[..i])
        invariant best.Some? ==> best.value in items
      {
        assert order[..i + 1][..i] == order[..i];
        var id := order[i];
        if id in items && items[id].status.Pending? && (best.None? || Before(id, best.value)) {
          best := Some(id);
        }
        i := i + 1;
      }
      assert order[..i] == order;
      if best.None? {
        return Nothing;
      }
      var claimed := items[best.value].(status := Classifying, token := token, updatedAt := now);
      Commit("REC_CLAIM", claimed, map["fencing_token" := Number(token)], now);
      return Ok(claimed);
    }

    method ClaimItem(id: string, token: int, now: int) returns (r: Answer)
      requires Valid()
      modifies this, audit
      ensures Valid() && (Model(), r) == ClaimItemStep(env, old(Model()), id, token, now)
    {
      if id !in items {
        return Err(InvalidTransition);
      }
      var item := items[id];
      if item.status.Resolved? || item.status.Abandoned? {
        return Err(InvalidTransition);
      }
      if item.status.Pending? {
        return Err(InvalidTransition);
      }
      if token <= item.token {
        return Err(ItemLocked);
      }
      var claimed := item.(status := Classifying, token := token, updatedAt := now);
      Commit("REC_CLAIM", claimed, map["fencing_token" := Number(token), "override" := Text("claim_item")], now);
      return Ok(claimed);
    }

    // The checks of a completion, in their order.
    method CheckCompletion(item: Item, token: int, classification: Class, next: ItemStatus) returns (refusal: Option<Refusal>)
      ensures refusal == CompletionRefusal(item, token, classification, next)
    {
      if item.token != token || token <= 0 {
        return Some(ItemLocked);
      }
      if !Allowed(item.status, next) {
        return Some(InvalidTransition);
      }
      if next.Resolved? && (classification.Absent? || classification.Unavailable?) {
        return Some(InvalidTransition);
      }
      if next.SafeRetryable? && item.escalatedFrom == Some(Ambiguous) {
        return Some(InvalidTransition);
      }
      return None;
    }

    method CompleteClassification(id: string, token: int, classification: Class, next: ItemStatus,
                                  resolution: Option<string>, reason: Option<string>, now: int) returns (r: Answer)
      requires Valid()
      modifies this, audit
      ensures Valid()
      ensures (Model(), r) == CompleteStep(env, old(Model()), id, token, classification, next, resolution, reason, now)
    {
      if id !in items {
        return Err(InvalidTransition);
      }
      var item := items[id];
      var refusal := CheckCompletion(item, token, classification, next);
      if refusal.Some? {
        return Err(refusal.value);
      }
      var updated := CompletedItem(item, classification, next, resolution, reason, now);
      Commit(ClassifyEvent(next), updated, CompletionExtra(classification, resolution), now);
      return Ok(updated);
    }

    method MarkRetried(id: string, resolution: Option<string>, now: int) returns (r: Answer)
      requires Valid()
      modifies this, audit
      ensures Valid() && (Model(), r) == MarkRetriedStep(env, old(Model()), id, resolution, now)
    {
      if id !in items || !items[id].status.SafeRetryable? {
        return Err(InvalidTransition);
      }
      var updated := items[id].(status := Resolved, resolution := resolution, updatedAt := now);
      Commit("REC_RETRIED", updated, map["resolution_ref" := OptionalText(resolution)], now);
      return Ok(updated);
    }

    method Abandon(id: string, reason: string, now: int) returns (r: Answer)
      requires Valid()
      modifies this, audit
      ensures Valid() && (Model(), r) == AbandonStep(env, old(Model()), id, reason, now)
    {
      if id !in items || Blank(reason) || !items[id].status.Escalated? {
        return Err(InvalidTransition);
      }
      var updated := items[id].(status := Abandoned, reason := Some(reason), updatedAt := now);
      Commit("REC_ABANDONED", updated, map["operator_reason" := Text(reason)], now);
      return Ok(updated);
    }

    // One snapshot of the log, put back.
    method Restore(snapshot: Item)
      modifies this
      ensures Model() == ReplayStep(old(Model()), snapshot)
    {
      if snapshot.id !in items {
        order := order + [snapshot.id];
      }
      items := items[snapshot.id := snapshot];
      byIntent := byIntent[snapshot.intent := snapshot.id];
      var digits := OnlyDigits(snapshot.id);
      if digits != "" {
        sequence := NumberOf(digits) + 1;
      }
    }

    // A restarted queue: rebuilt from the snapshots one after another.
    static method ReplayLog(env: Env, log: seq<Item>) returns (q: OperatorQueue)
      requires HexDigests(env.crypto)
      ensures fresh(q) && fresh(q.audit) && q.Model() == Replay(log)
    {
      q := new OperatorQueue(env);
      var i := 0;
      while i < |log|
        invariant 0 <= i <= |log|
        invariant fresh(q) && fresh(q.audit) && q.Model() == Replay(log[..i])
      {
        assert log[..i + 1][..i] == log[..i];
        q.Restore(log[i]);
        i := i + 1;
      }
      assert log[..i] == log;
    }
  }
}
