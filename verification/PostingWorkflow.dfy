/**
  The posting workflow in place: its three dictionaries and the adapter it drives. The provider may become
  unreachable, or reachable again, before every call a method makes to it.
 */
module PostingWorkflow {
  import opened Wrappers
  import opened ErpLedger
  import opened ErpAdapter
  import opened InvoicePosting

  class InvoicePostWorkflow {
    const adapter: FixtureErpAdapter
    var posted: map<string, PostedRecord>
    var byDraft: map<string, string>
    var pending: map<string, string>
    ghost var owner: map<nat, string>

    constructor (adapter: FixtureErpAdapter)
      requires adapter.Valid()
      ensures Valid() && this.adapter == adapter && Model() == World(adapter.ledger, Flow(map[], map[], map[]), map[])
    {
      this.adapter := adapter;
      posted, byDraft, pending := map[], map[], map[];
      owner := map[];
    }

    ghost predicate Valid()
      reads this, adapter, adapter.rows
    {
      adapter.Valid()
    }

    ghost function Model(): World
      reads this, adapter
    {
      World(adapter.ledger, Flow(posted, byDraft, pending), owner)
    }

    // The snapshot of a posted invoice is frozen; the draft waits no longer.
    method Freeze(draftId: string, unit: string, official: string)
      modifies this
      ensures Model() == old(Model()).(flow := Settle(old(Model()).flow, draftId, unit, official))
    {
      posted := posted[official := PostedRecord(draftId, unit, false)];
      byDraft := byDraft[draftId := official];
      pending := pending - {draftId};
    }

    // What follows the provider's answer to a post.
    method Conclude(q: Request, reference: string, r: Answer<PostAnswer>, outage: bool) returns (reply: Reply)
      requires Valid()
      modifies this, adapter, adapter.rows
      ensures Valid() && adapter.rows == old(adapter.rows)
      ensures (Model(), reply) == AfterPost(old(Model()), q, reference, r, outage)
    {
      match r
      case Rejected =>
        return Blocked;
      case Uncertain =>
        pending := pending[q.draftId := reference];
        return Done(Unknown);
      case Ok(NotPosted) =>
        adapter.SimulateOutage(outage);
        var _ := adapter.CancelInvoice(reference);
        return Done(NotPosted);
      case Ok(Unknown) =>
        pending := pending[q.draftId := reference];
        return Done(Unknown);
      case Ok(PostedAs(official)) =>
        if official.None? {
          return Blocked;
        }
        Freeze(q.draftId, q.unit, official.value);
        return Done(PostedAs(official));
    }

    method Post(q: Request, o: Weather) returns (reply: Reply)
      requires Valid()
      modifies this, adapter, adapter.rows
      ensures Valid() && old(adapter.rows) <= adapter.rows
      ensures (Model(), reply) == PostFlow(old(Model()), q, o)
    {
      ghost var w := Model();
      if !q.allowed || q.draftId in pending {
        return Blocked;
      }
      if q.draftId in byDraft && byDraft[q.draftId] in posted {
        return Blocked;
      }
      if !q.resolves {
        return Blocked;
      }
      adapter.SimulateOutage(o.create);
      var created := adapter.CreateDraftInvoice(q.command);
      if !created.Ok? {
        return Blocked;
      }
      reply := PostCreated(q, |w.ledger.invoices|, created.value, o);
    }

    method PostCreated(q: Request, ghost n: nat, reference: string, o: Weather) returns (reply: Reply)
      requires Valid()
      modifies this, adapter, adapter.rows
      ensures Valid() && adapter.rows == old(adapter.rows)
      ensures (Model(), reply) == PostNew(old(Model()), q, n, reference, o)
    {
      owner := owner[n := q.draftId];
      adapter.SimulateOutage(o.post);
      var r := adapter.PostInvoice(reference);
      reply := Conclude(q, reference, r, o.cleanup);
    }

    // What follows the provider's answer to a reconciliation.
    method ConcludeReconcile(q: Request, reference: string, r: Answer<PostAnswer>, outage: bool) returns (reply: Reply)
      requires Valid()
      modifies this, adapter, adapter.rows
      ensures Valid() && adapter.rows == old(adapter.rows)
      ensures (Model(), reply) == AfterReconcile(old(Model()), q, reference, r, outage)
    {
      match r
      case Rejected =>
        return Blocked;
      case Uncertain =>
        return Done(Unknown);
      case Ok(Unknown) =>
        return Done(Unknown);
      case Ok(NotPosted) =>
        pending := pending - {q.draftId};
        adapter.SimulateOutage(outage);
        var _ := adapter.CancelInvoice(reference);
        return Done(NotPosted);
      case Ok(PostedAs(official)) =>
        if official.None? || !q.resolves {
          return Blocked;
        }
        Freeze(q.draftId, q.unit, official.value);
        return Done(PostedAs(official));
    }

    method ReconcilePost(q: Request, o: Weather) returns (reply: Reply)
      requires Valid()
      modifies this, adapter, adapter.rows
      ensures Valid() && adapter.rows == old(adapter.rows)
      ensures (Model(), reply) == ReconcileFlow(old(Model()), q, o)
    {
      if !q.allowed || q.draftId !in pending {
        return Blocked;
      }
      var reference := pending[q.draftId];
      var r := adapter.ReconcilePost(reference);
      reply := ConcludeReconcile(q, reference, r, o.cleanup);
    }

    method Withdrawn(official: string)
      requires official in posted
      modifies this`posted
      ensures Model() == old(Model()).(flow := Withdraw(old(Model()).flow, official))
    {
      posted := posted[official := posted[official].(cancelled := true)];
    }

    method CancelAtProvider(official: string, outage: bool) returns (done: bool)
      requires Valid()
      modifies this, adapter, adapter.rows
      ensures Valid() && adapter.rows == old(adapter.rows)
      ensures var (l1, r) := CancelStep(Under(old(adapter.ledger), outage), official); Model() == old(Model()).(ledger := l1) && done == r.Ok?
    {
      adapter.SimulateOutage(outage);
      var r := adapter.CancelInvoice(official);
      return r.Ok?;
    }

    method CancelPosted(official: string, allowed: bool, outage: bool) returns (done: bool)
      requires Valid()
      modifies this, adapter, adapter.rows
      ensures Valid() && adapter.rows == old(adapter.rows)
      ensures (Model(), done) == CancelFlow(old(Model()), official, allowed, outage)
    {
      if official !in posted || posted[official].cancelled || !allowed {
        return false;
      }
      done := CancelAtProvider(official, outage);
      if done {
        Withdrawn(official);
      }
    }
  }
}
