/**
  The executor (src/mutations/executor.py) as written: one call after another on the store and
  the audit chain, with its exception paths. Its contract says that it does nothing but take
  protocol steps of one new worker, so whatever every interleaving keeps, it keeps.
 */
module MutationExecution {
  import opened Wrappers
  import opened Leases
  import opened Audit
  import opened MutationProtocol
  import MutationSafety
  import S = MutationStore

  // `after` is reached from `before` by starting worker `id` on `job` and then only advancing it, to this result.
  ghost predicate Performed(env: Env, before: World, after: World, id: nat, job: Job, answer: ProviderAnswer, result: JobResult) {
    && id !in before.workers
    && (exists steps: nat :: after == Run(env, before, Solo(id, job, answer, steps)))
    && id in after.workers && after.workers[id] == Finished(job, result)
  }

  function Solo(id: nat, job: Job, answer: ProviderAnswer, steps: nat): seq<Label> {
    [Start(id, job)] + seq(steps, _ => Advance(id, answer))
  }

  lemma {:induction false} SoloStarts(env: Env, before: World, id: nat, job: Job, answer: ProviderAnswer)
    ensures Run(env, before, Solo(id, job, answer, 0)) == Do(env, before, Start(id, job))
  {
    var none := Solo(id, job, answer, 0);
    assert none[..|none| - 1] == [];
  }

  lemma {:induction false} RunMore(env: Env, w: World, labels: seq<Label>, l: Label)
    ensures Run(env, w, labels + [l]) == Do(env, Run(env, w, labels), l)
  {
    var all := labels + [l];
    assert all[..|all| - 1] == labels;
  }

  lemma {:induction false} SoloMore(env: Env, before: World, id: nat, job: Job, answer: ProviderAnswer, steps: nat)
    ensures Run(env, before, Solo(id, job, answer, steps + 1))
         == Do(env, Run(env, before, Solo(id, job, answer, steps)), Advance(id, answer))
  {
    assert Solo(id, job, answer, steps + 1) == Solo(id, job, answer, steps) + [Advance(id, answer)];
    RunMore(env, before, Solo(id, job, answer, steps), Advance(id, answer));
  }

  lemma {:induction false} AdvanceKeepsWorkers(env: Env, w: World, id: nat, answer: ProviderAnswer)
    requires id in w.workers
    ensures Do(env, w, Advance(id, answer)) == DoAdvance(env, w, id, answer)
    ensures id in DoAdvance(env, w, id, answer).workers
  {
    MutationSafety.OtherKeyStep(env, w, id, answer);
  }

  // The error an audit event ends in when its append was refused.
  function Unaudited(r: AppendResult): JobResult {
    if r.AppendFailed? then Raised(AuditFailed) else Raised(AuditOutOfOrder)
  }

  class MutationExecutor {
    const env: Env
    const store: S.InMemoryMutationStore
    const audit: AuditChain
    // The protocol state this executor is at, and the job it is performing.
    ghost var world: World
    ghost var before: World
    ghost var steps: nat

    constructor (env: Env, store: S.InMemoryMutationStore, audit: AuditChain)
      requires audit.crypto == env.crypto && audit.Valid()
      ensures Valid() && this.env == env && this.store == store && this.audit == audit
      ensures world.workers == map[] && world.calls == []
    {
      this.env, this.store, this.audit := env, store, audit;
      world := World(store.Model(), audit.Model(), audit.failNextAppend, map[], []);
      before, steps := World(store.Model(), audit.Model(), audit.failNextAppend, map[], []), 0;
    }

    ghost predicate Valid()
      reads this, store, audit
    {
      && audit.crypto == env.crypto && audit.Valid()
      && world.store == store.Model()
      && world.chain == audit.Model()
      && world.failNextAppend == audit.failNextAppend
    }

    ghost predicate Underway(id: nat, job: Job, answer: ProviderAnswer)
      reads this
    {
      id !in before.workers && world == Run(env, before, Solo(id, job, answer, steps)) && id in world.workers
    }

    ghost method Commence(id: nat, job: Job, answer: ProviderAnswer)
      requires id !in world.workers
      modifies this
      ensures before == old(world) && world == Place(before, id, Begin(job)) && Underway(id, job, answer)
    {
      before, steps := world, 0;
      world := Do(env, world, Start(id, job));
      SoloStarts(env, before, id, job, answer);
    }

    ghost method Tick(id: nat, job: Job, answer: ProviderAnswer)
      requires Underway(id, job, answer)
      modifies this
      ensures before == old(before) && Underway(id, job, answer)
      ensures world == DoAdvance(env, old(world), id, answer)
    {
      SoloMore(env, before, id, job, answer, steps);
      AdvanceKeepsWorkers(env, world, id, answer);
      world := DoAdvance(env, world, id, answer);
      steps := steps + 1;
    }

    // What every statement below keeps.
    twostate predicate Going(id: nat, job: Job, answer: ProviderAnswer)
      reads this, store, audit
    {
      Valid() && Underway(id, job, answer) && before == old(before)
    }

    method CheckLease(ghost id: nat, job: Job, ghost answer: ProviderAnswer) returns (refused: Option<JobResult>)
      requires Valid() && Underway(id, job, answer) && world.workers[id] == Begin(job)
      modifies this
      ensures Going(id, job, answer)
      ensures match refused
        case Some(result) => world.workers[id] == Finished(job, result)
        case None => world.workers[id] == if job.kind.Execute? then Registering(job) else Authorizing(job)
    {
      var freshness := job.lease.AssertFresh(job.presented, job.at);
      Tick(id, job, answer);
      if !freshness.Fresh? {
        return Some(Raised(LeaseRefused(freshness)));
      }
      if (if job.kind.Execute? then !job.keyMatches else job.lease.key != job.key) {
        return Some(Raised(KeyMismatch));
      }
      return None;
    }

    method RegisterToken(ghost id: nat, job: Job, ghost answer: ProviderAnswer)
      requires Valid() && Underway(id, job, answer) && world.workers[id] == Registering(job)
      modifies this, store
      ensures Going(id, job, answer) && world.workers[id] == Claiming(job)
    {
      store.RegisterFencing(job.key, job.lease.fencingToken);
      Tick(id, job, answer);
    }

    method ClaimKey(ghost id: nat, job: Job, ghost answer: ProviderAnswer) returns (settled: Option<JobResult>)
      requires Valid() && Underway(id, job, answer) && world.workers[id] == Claiming(job)
      modifies this, store
      ensures Going(id, job, answer)
      ensures world.workers[id] == match settled
        case Some(result) => Finished(job, result)
        case None => Building(job, PreMutation)
    {
      var claimed := store.Claim(job.key, job.payloadHash);
      Tick(id, job, answer);
      if !claimed.Done? {
        return Some(Raised(Store(claimed)));
      }
      if claimed.outcome.status.Terminal() {
        return Some(Returned(claimed.outcome));
      }
      if !claimed.outcome.created {
        return Some(RecoveryRequired);
      }
      return None;
    }

    // Two protocol steps: the record is built from the present head, then appended.
    method AuditEvent(ghost id: nat, job: Job, ghost answer: ProviderAnswer, point: Point) returns (r: AppendResult)
      requires Valid() && Underway(id, job, answer) && world.workers[id] == Building(job, point)
      modifies this, audit
      ensures Going(id, job, answer)
      ensures match r
        case Appended(_) => world.workers[id] == AfterAppend(job, point, |old(world).chain.records|)
        case AppendFailed => world.workers[id] == AfterAppendFailure(job, point)
        case _ => world.workers[id] == Finished(job, Raised(AuditOutOfOrder))
    {
      var record := BuildRecord(env, audit.Model(), job, point);
      Tick(id, job, answer);
      r := AppendEvent(id, job, answer, point, record);
    }

    method AppendEvent(ghost id: nat, job: Job, ghost answer: ProviderAnswer, point: Point, record: Option<Record>)
      returns (r: AppendResult)
      requires Valid() && Underway(id, job, answer) && world.workers[id] == Appending(job, point, record)
      modifies this, audit
      ensures Going(id, job, answer)
      ensures match r
        case Appended(_) => world.workers[id] == AfterAppend(job, point, |old(world).chain.records|)
        case AppendFailed => world.workers[id] == AfterAppendFailure(job, point)
        case _ => world.workers[id] == Finished(job, Raised(AuditOutOfOrder))
    {
      Tick(id, job, answer);
      if record.None? {
        return BadSequence;
      }
      r := audit.Append(record.value);
    }

    method RollBack(ghost id: nat, job: Job, ghost answer: ProviderAnswer)
      requires Valid() && Underway(id, job, answer) && world.workers[id] == RollingBack(job)
      modifies this, store
      ensures Going(id, job, answer) && world.workers[id] == Finished(job, Raised(AuditBlocked))
    {
      store.RollbackClaim(job.key);
      Tick(id, job, answer);
    }

    // The provider is the environment's: what it answers is given.
    ghost method CallProvider(id: nat, job: Job, answer: ProviderAnswer)
      requires Valid() && Underway(id, job, answer) && world.workers[id].Invoking? && world.workers[id].job == job
      modifies this
      ensures Going(id, job, answer) && world.workers[id] == Awaiting(job)
      ensures |world.calls| == |old(world).calls| + 1
    {
      Tick(id, job, answer);
    }

    ghost method ReturnFromProvider(id: nat, job: Job, answer: ProviderAnswer)
      requires Valid() && Underway(id, job, answer) && world.workers[id] == Awaiting(job)
      modifies this
      ensures Going(id, job, answer)
      ensures world.workers[id] == match answer
        case Reference(reference) => WritingSuccess(job, reference)
        case RuntimeFailure => WritingFailure(job)
        case OtherFailure => Finished(job, Raised(ProviderEscaped))
    {
      Tick(id, job, answer);
    }

    method RecordFailure(ghost id: nat, job: Job, ghost answer: ProviderAnswer) returns (written: S.Answer)
      requires Valid() && Underway(id, job, answer) && world.workers[id] == WritingFailure(job)
      modifies this, store
      ensures Going(id, job, answer)
      ensures world.workers[id] == if written.Done? then Building(job, AfterProviderFailure) else Finished(job, Raised(Store(written)))
    {
      written := store.WriteFailure(job.key, FailedNoMutation);
      Tick(id, job, answer);
    }

    method RecordSuccess(ghost id: nat, job: Job, ghost answer: ProviderAnswer, reference: string) returns (written: S.Answer)
      requires Valid() && Underway(id, job, answer) && world.workers[id] == WritingSuccess(job, reference)
      modifies this, store
      ensures Going(id, job, answer)
      ensures world.workers[id] == match written
        case Done(outcome) => Building(job, PostMutation(reference, outcome))
        case LocalWriteFailed => Building(job, AfterLocalWriteFailure(reference))
        case _ => Finished(job, Raised(Store(written)))
    {
      written := store.WriteSuccess(job.key, reference, reference);
      Tick(id, job, answer);
    }

    method Downgrade(ghost id: nat, job: Job, ghost answer: ProviderAnswer, reference: string) returns (written: S.Answer)
      requires Valid() && Underway(id, job, answer) && world.workers[id] == Downgrading(job, reference)
      modifies this, store
      ensures Going(id, job, answer)
      ensures world.workers[id] == if written.Done? then Building(job, TerminalAuditFailed(reference)) else Finished(job, Raised(Store(written)))
    {
      written := store.Resolve(job.key, Uncertain, Some(reference));
      Tick(id, job, answer);
    }

    // `answer` is what the provider does if it is called.
    method Execute(ghost id: nat, job: Job, answer: ProviderAnswer) returns (result: JobResult)
      requires Valid() && id !in world.workers && job.kind.Execute?
      modifies this, store, audit
      ensures Valid() && Performed(env, old(world), world, id, job, answer, result)
    {
      Commence(id, job, answer);
      var refused := CheckLease(id, job, answer);
      if refused.Some? {
        return refused.value;
      }
      RegisterToken(id, job, answer);
      var settled := ClaimKey(id, job, answer);
      if settled.Some? {
        return settled.value;
      }
      var audited := AuditEvent(id, job, answer, PreMutation);
      if audited.AppendFailed? {
        RollBack(id, job, answer);
        return Raised(AuditBlocked);
      }
      if !audited.Appended? {
        return Raised(AuditOutOfOrder);
      }
      CallProvider(id, job, answer);
      ReturnFromProvider(id, job, answer);
      match answer
      case OtherFailure =>
        return Raised(ProviderEscaped);
      case RuntimeFailure =>
        result := AfterFailure(id, job, answer);
      case Reference(reference) =>
        result := AfterReference(id, job, answer, reference);
    }

    // `except RuntimeError` around the provider call.
    method AfterFailure(ghost id: nat, job: Job, ghost answer: ProviderAnswer) returns (result: JobResult)
      requires Valid() && Underway(id, job, answer) && world.workers[id] == WritingFailure(job)
      modifies this, store, audit
      ensures Going(id, job, answer) && world.workers[id] == Finished(job, result)
    {
      var written := RecordFailure(id, job, answer);
      if !written.Done? {
        return Raised(Store(written));
      }
      var audited := AuditEvent(id, job, answer, AfterProviderFailure);
      return if audited.Appended? then Raised(ProviderFailed) else Unaudited(audited);
    }

    // Local terminal write first, terminal success audit second.
    method AfterReference(ghost id: nat, job: Job, ghost answer: ProviderAnswer, reference: string) returns (result: JobResult)
      requires Valid() && Underway(id, job, answer) && world.workers[id] == WritingSuccess(job, reference)
      modifies this, store, audit
      ensures Going(id, job, answer) && world.workers[id] == Finished(job, result)
    {
      var written := RecordSuccess(id, job, answer, reference);
      if written.LocalWriteFailed? {
        var audited := AuditEvent(id, job, answer, AfterLocalWriteFailure(reference));
        return if audited.Appended? then Raised(Store(S.LocalWriteFailed)) else Unaudited(audited);
      }
      if !written.Done? {
        return Raised(Store(written));
      }
      var posted := AuditEvent(id, job, answer, PostMutation(reference, written.outcome));
      if posted.Appended? {
        return Returned(written.outcome);
      }
      if !posted.AppendFailed? {
        return Raised(AuditOutOfOrder);
      }
      result := AfterAuditFailure(id, job, answer, reference);
    }

    // The success audit failed behind a local success: the outcome becomes uncertain.
    method AfterAuditFailure(ghost id: nat, job: Job, ghost answer: ProviderAnswer, reference: string) returns (result: JobResult)
      requires Valid() && Underway(id, job, answer) && world.workers[id] == Downgrading(job, reference)
      modifies this, store, audit
      ensures Going(id, job, answer) && world.workers[id] == Finished(job, result)
    {
      var downgraded := Downgrade(id, job, answer, reference);
      if !downgraded.Done? {
        return Raised(Store(downgraded));
      }
      var closing := AuditEvent(id, job, answer, TerminalAuditFailed(reference));
      return if closing.Appended? || closing.AppendFailed? then Raised(OutcomeUncertain) else Raised(AuditOutOfOrder);
    }

    method CheckOwner(ghost id: nat, job: Job, ghost answer: ProviderAnswer) returns (stale: bool)
      requires Valid() && Underway(id, job, answer) && world.workers[id] == Authorizing(job)
      modifies this
      ensures Going(id, job, answer)
      ensures world.workers[id] == if stale then Finished(job, Raised(StaleOwner)) else Reading(job)
    {
      var recorded := S.CurrentFencingToken(store.Model(), job.key);
      Tick(id, job, answer);
      return recorded != 0 && job.lease.fencingToken != recorded;
    }

    method ReadBack(ghost id: nat, job: Job, ghost answer: ProviderAnswer) returns (settled: Option<JobResult>, found: Option<string>)
      requires Valid() && Underway(id, job, answer) && world.workers[id] == Reading(job)
      modifies this
      ensures Going(id, job, answer)
      ensures world.workers[id] == match settled
        case Some(result) => Finished(job, result)
        case None => Resolving(job, found)
    {
      Tick(id, job, answer);
      found := None;
      if job.key !in store.data {
        return Some(Raised(UnknownKey)), found;
      }
      var outcome := store.data[job.key];
      if !outcome.status.Uncertain? {
        return Some(Returned(outcome)), found;
      }
      return None, outcome.externalReference;
    }

    method ResolveUncertain(ghost id: nat, job: Job, ghost answer: ProviderAnswer, found: Option<string>) returns (resolved: S.Answer)
      requires Valid() && Underway(id, job, answer) && world.workers[id] == Resolving(job, found)
      modifies this, store
      ensures Going(id, job, answer)
      ensures world.workers[id] == match resolved
        case Done(outcome) => Building(job, Recovered(outcome))
        case _ => Finished(job, Raised(Store(resolved)))
    {
      if found.Some? && found.value != "" {
        resolved := store.Resolve(job.key, ResolvedPresent, found);
      } else {
        resolved := store.Resolve(job.key, ResolvedAbsent, None);
      }
      Tick(id, job, answer);
    }

    method Recover(ghost id: nat, job: Job) returns (result: JobResult)
      requires Valid() && id !in world.workers && job.kind.Recover?
      modifies this, store, audit
      ensures Valid() && Performed(env, old(world), world, id, job, OtherFailure, result)
    {
      ghost var answer := OtherFailure;
      Commence(id, job, answer);
      var refused := CheckLease(id, job, answer);
      if refused.Some? {
        return refused.value;
      }
      var stale := CheckOwner(id, job, answer);
      if stale {
        return Raised(StaleOwner);
      }
      var settled, found := ReadBack(id, job, answer);
      if settled.Some? {
        return settled.value;
      }
      result := ResolveAndAudit(id, job, answer, found);
    }

    // The store is written before the recovery is audited.
    method ResolveAndAudit(ghost id: nat, job: Job, ghost answer: ProviderAnswer, found: Option<string>) returns (result: JobResult)
      requires Valid() && Underway(id, job, answer) && world.workers[id] == Resolving(job, found)
      modifies this, store, audit
      ensures Going(id, job, answer) && world.workers[id] == Finished(job, result)
    {
      var resolved := ResolveUncertain(id, job, answer, found);
      if !resolved.Done? {
        return Raised(Store(resolved));
      }
      var audited := AuditEvent(id, job, answer, Recovered(resolved.outcome));
      return if audited.Appended? then Returned(resolved.outcome) else Unaudited(audited);
    }
  }
}
