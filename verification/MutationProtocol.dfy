/**
  The crash-safe mutation protocol (src/mutations/executor.py) as steps of many workers.

  A worker runs one `execute` or one `recover`; its program counter names the statement it is
  about to perform. Each store call, each read of the audit head, each audit append and each
  half of the provider call is one step. Any worker may be killed between any two steps, any
  audit append and any local write may be made to fail, other code may append to the shared
  chain, and the provider may return any text, fail, or never return.

  The call log is history, not program state: it says when the provider was invoked, for whom,
  and what came back.
 */
module MutationProtocol {
  import opened Wrappers
  import opened Leases
  import opened Audit
  import S = MutationStore

  datatype Env = Env(crypto: Crypto, stamp: int -> string)

  datatype Kind = Execute | Recover

  // keyMatches: the presented key equals the derived one (or no namespace was given).
  datatype Job = Job(
    kind: Kind,
    key: string,
    eventType: string,
    payloadHash: string,
    at: int,
    actor: string,
    lease: Lease,
    presented: int,
    keyMatches: bool)

  datatype Error =
    | LeaseRefused(why: Freshness)
    | KeyMismatch
    | StaleOwner
    | UnknownKey
    | Store(answer: S.Answer)
    | AuditBlocked
    | AuditFailed
    | AuditOutOfOrder
    | ProviderFailed
    | ProviderEscaped
    | OutcomeUncertain
    | Killed

  datatype JobResult = Returned(outcome: Outcome) | RecoveryRequired | Raised(error: Error)

  // The audit events of one job.
  datatype Point =
    | PreMutation
    | AfterProviderFailure
    | AfterLocalWriteFailure(reference: string)
    | PostMutation(reference: string, outcome: Outcome)
    | TerminalAuditFailed(reference: string)
    | Recovered(outcome: Outcome)

  datatype PC =
    | Begin(job: Job)
    | Registering(job: Job)
    | Claiming(job: Job)
    | Building(job: Job, point: Point)
    | Appending(job: Job, point: Point, record: Option<Record>)
    | RollingBack(job: Job)
    | Invoking(job: Job, pre: nat)
    | Awaiting(job: Job)
    | WritingFailure(job: Job)
    | WritingSuccess(job: Job, reference: string)
    | Downgrading(job: Job, reference: string)
    | Authorizing(job: Job)
    | Reading(job: Job)
    | Resolving(job: Job, found: Option<string>)
    | Finished(job: Job, result: JobResult)

  // Invocation of the provider: by whom, behind which audit record, and the reference it returned.
  datatype Call = Call(key: string, worker: nat, pre: nat, returned: Option<string>)

  datatype World = World(
    store: S.Store,
    chain: Chain,
    failNextAppend: bool,
    workers: map<nat, PC>,
    calls: seq<Call>)

  datatype ProviderAnswer = Reference(reference: string) | RuntimeFailure | OtherFailure

  datatype Label =
    | Start(worker: nat, job: Job)
    | Advance(worker: nat, answer: ProviderAnswer)
    | Kill(worker: nat)
    | ArmAppendFailure
    | ArmWriteFailure
    | ForeignAppend(record: Record)

  function Init(capacity: int): World {
    World(S.EmptyStore(capacity), EMPTY_CHAIN, false, map[], [])
  }

  // Payloads of the audit events

  function PointPayload(job: Job, point: Point): Payload {
    match point
    case PreMutation =>
      map["key" := Text(job.key), "action" := Text("pre_mutation"), "fencing_token" := Number(job.lease.fencingToken)]
    case AfterProviderFailure =>
      map["key" := Text(job.key), "action" := Text("provider_failed"), "error" := Text("provider_error")]
    case AfterLocalWriteFailure(reference) =>
      map["key" := Text(job.key), "action" := Text("local_write_failed"),
          "external_reference" := Text(reference), "status" := Text("uncertain")]
    case PostMutation(reference, _) =>
      map["key" := Text(job.key), "action" := Text("post_mutation"),
          "external_reference" := Text(reference), "status" := Text("success")]
    case TerminalAuditFailed(reference) =>
      map["key" := Text(job.key), "action" := Text("terminal_audit_failed"),
          "external_reference" := Text(reference), "status" := Text("uncertain")]
    case Recovered(outcome) =>
      if outcome.status.ResolvedPresent? && outcome.externalReference.Some? then
        map["key" := Text(job.key), "action" := Text("recovered"), "status" := Text("resolved_present"),
            "external_reference" := Text(outcome.externalReference.value)]
      else
        map["key" := Text(job.key), "action" := Text("recovered"), "status" := Text("resolved_absent")]
  }

  function BuildRecord(env: Env, chain: Chain, job: Job, point: Point): Option<Record> {
    NewRecord(|chain.records| + 1, HeadHash(chain), if job.kind.Recover? then "RECOVERY" else job.eventType,
              job.actor, env.stamp(job.at), PointPayload(job, point))
  }

  // Steps

  function Place(w: World, id: nat, pc: PC): World {
    w.(workers := w.workers[id := pc])
  }

  function Raise(w: World, id: nat, job: Job, error: Error): World {
    Place(w, id, Finished(job, Raised(error)))
  }

  // What follows an audit event that was appended.
  function AfterAppend(job: Job, point: Point, index: nat): PC {
    match point
    case PreMutation => Invoking(job, index)
    case AfterProviderFailure => Finished(job, Raised(ProviderFailed))
    case AfterLocalWriteFailure(_) => Finished(job, Raised(Store(S.LocalWriteFailed)))
    case PostMutation(_, outcome) => Finished(job, Returned(outcome))
    case TerminalAuditFailed(_) => Finished(job, Raised(OutcomeUncertain))
    case Recovered(outcome) => Finished(job, Returned(outcome))
  }

  // What follows an audit event whose append failed.
  function AfterAppendFailure(job: Job, point: Point): PC {
    match point
    case PreMutation => RollingBack(job)
    case PostMutation(reference, _) => Downgrading(job, reference)
    case TerminalAuditFailed(_) => Finished(job, Raised(OutcomeUncertain))
    case _ => Finished(job, Raised(AuditFailed))
  }

  function DoAppend(env: Env, w: World, id: nat, job: Job, point: Point, record: Option<Record>): World {
    if record.None? then Raise(w, id, job, AuditOutOfOrder)
    else if w.failNextAppend then Place(w.(failNextAppend := false), id, AfterAppendFailure(job, point))
    else if !Continues(w.chain, record.value) then Raise(w, id, job, AuditOutOfOrder)
    else Place(w.(chain := Extend(env.crypto, w.chain, record.value)), id, AfterAppend(job, point, |w.chain.records|))
  }

  function DoClaim(w: World, id: nat, job: Job): World {
    var (store, answer) := S.ClaimStep(w.store, job.key, job.payloadHash);
    var w1 := w.(store := store);
    if !answer.Done? then Raise(w1, id, job, Store(answer))
    else if answer.outcome.status.Terminal() then Place(w1, id, Finished(job, Returned(answer.outcome)))
    else if !answer.outcome.created then Place(w1, id, Finished(job, RecoveryRequired))
    else Place(w1, id, Building(job, PreMutation))
  }

  function DoInvoke(w: World, id: nat, job: Job, pre: nat): World {
    Place(w.(calls := w.calls + [Call(job.key, id, pre, None)]), id, Awaiting(job))
  }

  function SetReturned(calls: seq<Call>, id: nat, reference: string): seq<Call> {
    seq(|calls|, i requires 0 <= i < |calls| =>
      if calls[i].worker == id then calls[i].(returned := Some(reference)) else calls[i])
  }

  function DoReturn(w: World, id: nat, job: Job, answer: ProviderAnswer): World {
    match answer
    case Reference(reference) =>
      Place(w.(calls := SetReturned(w.calls, id, reference)), id, WritingSuccess(job, reference))
    case RuntimeFailure => Place(w, id, WritingFailure(job))
    case OtherFailure => Raise(w, id, job, ProviderEscaped)
  }

  function DoWriteFailure(w: World, id: nat, job: Job): World {
    var (store, answer) := S.WriteFailureStep(w.store, job.key, FailedNoMutation);
    var w1 := w.(store := store);
    if answer.Done? then Place(w1, id, Building(job, AfterProviderFailure)) else Raise(w1, id, job, Store(answer))
  }

  function DoWriteSuccess(w: World, id: nat, job: Job, reference: string): World {
    var (store, answer) := S.WriteSuccessStep(w.store, job.key, reference, reference);
    var w1 := w.(store := store);
    match answer
    case Done(outcome) => Place(w1, id, Building(job, PostMutation(reference, outcome)))
    case LocalWriteFailed => Place(w1, id, Building(job, AfterLocalWriteFailure(reference)))
    case _ => Raise(w1, id, job, Store(answer))
  }

  function DoDowngrade(w: World, id: nat, job: Job, reference: string): World {
    var (store, answer) := S.ResolveStep(w.store, job.key, Uncertain, Some(reference));
    var w1 := w.(store := store);
    if answer.Done? then Place(w1, id, Building(job, TerminalAuditFailed(reference))) else Raise(w1, id, job, Store(answer))
  }

  // recover: only the recorded owner of the key may go on (an unrecorded key has no owner).
  function DoAuthorize(w: World, id: nat, job: Job): World {
    var recorded := S.CurrentFencingToken(w.store, job.key);
    if recorded != 0 && job.lease.fencingToken != recorded then Raise(w, id, job, StaleOwner)
    else Place(w, id, Reading(job))
  }

  function DoRead(w: World, id: nat, job: Job): World {
    if job.key !in w.store.data then Raise(w, id, job, UnknownKey)
    else
      var outcome := w.store.data[job.key];
      if !outcome.status.Uncertain? then Place(w, id, Finished(job, Returned(outcome)))
      else Place(w, id, Resolving(job, outcome.externalReference))
  }

  // An absent or empty reference reads as "the provider has nothing".
  function DoResolve(w: World, id: nat, job: Job, reference: Option<string>): World {
    var present := reference.Some? && reference.value != "";
    var (store, answer) :=
      if present then S.ResolveStep(w.store, job.key, ResolvedPresent, reference)
      else S.ResolveStep(w.store, job.key, ResolvedAbsent, None);
    var w1 := w.(store := store);
    if answer.Done? then Place(w1, id, Building(job, Recovered(answer.outcome))) else Raise(w1, id, job, Store(answer))
  }

  function DoBegin(w: World, id: nat, job: Job): World {
    var freshness := job.lease.AssertFresh(job.presented, job.at);
    if !freshness.Fresh? then Raise(w, id, job, LeaseRefused(freshness))
    else if job.kind.Execute? then
      (if !job.keyMatches then Raise(w, id, job, KeyMismatch) else Place(w, id, Registering(job)))
    else
      (if job.lease.key != job.key then Raise(w, id, job, KeyMismatch) else Place(w, id, Authorizing(job)))
  }

  function DoAdvance(env: Env, w: World, id: nat, answer: ProviderAnswer): World
    requires id in w.workers
  {
    match w.workers[id]
    case Begin(job) => DoBegin(w, id, job)
    case Registering(job) =>
      Place(w.(store := S.FencingStep(w.store, job.key, job.lease.fencingToken)), id, Claiming(job))
    case Claiming(job) => DoClaim(w, id, job)
    case Building(job, point) => Place(w, id, Appending(job, point, BuildRecord(env, w.chain, job, point)))
    case Appending(job, point, record) => DoAppend(env, w, id, job, point, record)
    case RollingBack(job) => Raise(w.(store := S.RollbackStep(w.store, job.key)), id, job, AuditBlocked)
    case Invoking(job, pre) => DoInvoke(w, id, job, pre)
    case Awaiting(job) => DoReturn(w, id, job, answer)
    case WritingFailure(job) => DoWriteFailure(w, id, job)
    case WritingSuccess(job, reference) => DoWriteSuccess(w, id, job, reference)
    case Downgrading(job, reference) => DoDowngrade(w, id, job, reference)
    case Authorizing(job) => DoAuthorize(w, id, job)
    case Reading(job) => DoRead(w, id, job)
    case Resolving(job, found) => DoResolve(w, id, job, found)
    case Finished(_, _) => w
  }

  function Do(env: Env, w: World, l: Label): World {
    match l
    case Start(id, job) => if id in w.workers then w else Place(w, id, Begin(job))
    case Advance(id, answer) => if id in w.workers then DoAdvance(env, w, id, answer) else w
    case Kill(id) => if id in w.workers && !w.workers[id].Finished? then Raise(w, id, w.workers[id].job, Killed) else w
    case ArmAppendFailure => w.(failNextAppend := true)
    case ArmWriteFailure => w.(store := w.store.(failNextWrite := true))
    case ForeignAppend(record) =>
      if Continues(w.chain, record) then w.(chain := Extend(env.crypto, w.chain, record)) else w
  }

  function Run(env: Env, w: World, labels: seq<Label>): World {
    if labels == [] then w
    else Do(env, Run(env, w, labels[..|labels| - 1]), labels[|labels| - 1])
  }
}
