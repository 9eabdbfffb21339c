/**
  What every interleaving of the mutation protocol keeps.

  The invariant says what each program counter may rely on, what each stored row proves about
  the provider call of its key, and that claims, calls and audit records are not shared.
 */
module MutationSafety {
  import opened Wrappers
  import opened Leases
  import opened Audit
  import opened MutationProtocol
  import S = MutationStore

  // The call of `key` by worker `id` has come back with `returned` (None: it has not come back with a reference).
  predicate HasCall(w: World, id: nat, key: string, returned: Option<string>) {
    exists i :: 0 <= i < |w.calls| && w.calls[i].worker == id && w.calls[i].key == key && w.calls[i].returned == returned
  }

  predicate KeyReturned(w: World, key: string, returned: Option<string>) {
    exists i :: 0 <= i < |w.calls| && w.calls[i].key == key && w.calls[i].returned == returned
  }

  predicate Uncalled(w: World, key: string) {
    forall i :: 0 <= i < |w.calls| ==> w.calls[i].key != key
  }

  predicate RowPending(w: World, key: string) {
    key in w.store.data && w.store.data[key].status.Pending?
  }

  predicate NotCaller(w: World, id: nat) {
    forall i :: 0 <= i < |w.calls| ==> w.calls[i].worker != id
  }

  predicate OwnsClaim(w: World, id: nat, key: string) {
    RowPending(w, key) && Uncalled(w, key) && NotCaller(w, id)
  }

  // The worker created the claim of its key and has not yet called the provider.
  predicate Owning(pc: PC) {
    pc.RollingBack? || pc.Invoking? || ((pc.Building? || pc.Appending?) && pc.point.PreMutation?)
  }

  // A record of the given event of the given job; what the key was is redacted.
  predicate EventOf(r: Record, job: Job, point: Point) {
    && r.eventType == (if job.kind.Recover? then "RECOVERY" else job.eventType)
    && r.actor == job.actor
    && r.payload == Redact(PointPayload(job, point))
  }

  predicate PreRecordAt(w: World, job: Job, pre: nat) {
    pre < |w.chain.records| && EventOf(w.chain.records[pre], job, PreMutation)
  }

  predicate PointOk(w: World, id: nat, job: Job, point: Point) {
    match point
    case PreMutation => OwnsClaim(w, id, job.key)
    case PostMutation(reference, _) => HasCall(w, id, job.key, Some(reference))
    case _ => true
  }

  predicate PcOk(w: World, id: nat, pc: PC) {
    match pc
    case Building(job, point) => PointOk(w, id, job, point)
    case Appending(job, point, record) =>
      PointOk(w, id, job, point) && (record.Some? ==> EventOf(record.value, job, point))
    case RollingBack(job) => OwnsClaim(w, id, job.key)
    case Invoking(job, pre) =>
      && OwnsClaim(w, id, job.key) && PreRecordAt(w, job, pre)
      && forall i :: 0 <= i < |w.calls| ==> w.calls[i].pre != pre
    case Awaiting(job) => HasCall(w, id, job.key, None) && RowPending(w, job.key)
    case WritingFailure(job) => HasCall(w, id, job.key, None) && RowPending(w, job.key)
    case WritingSuccess(job, reference) => HasCall(w, id, job.key, Some(reference))
    case Downgrading(job, reference) => HasCall(w, id, job.key, Some(reference))
    case Resolving(job, found) => found.Some? && KeyReturned(w, job.key, found)
    case Begin(_) => NotCaller(w, id)
    case Registering(_) => NotCaller(w, id)
    case Claiming(_) => NotCaller(w, id)
    case _ => true
  }

  // What a stored status says about the one provider call of the key.
  predicate RowFits(w: World, key: string, row: Outcome) {
    match row.status
    case Pending => true
    case FailedNoMutation => KeyReturned(w, key, None)
    case Uncertain => row.externalReference.Some? && KeyReturned(w, key, row.externalReference)
    case ResolvedPresent => row.externalReference.Some? && KeyReturned(w, key, row.externalReference)
    case ResolvedAbsent => KeyReturned(w, key, Some(""))
    case Conflict => false
  }

  predicate RowOk(w: World, key: string)
    requires key in w.store.data
  {
    RowFits(w, key, w.store.data[key])
  }

  predicate CallOk(w: World, i: nat)
    requires i < |w.calls|
  {
    var call := w.calls[i];
    && call.key in w.store.data
    && call.worker in w.workers && w.workers[call.worker].job.key == call.key
    && PreRecordAt(w, w.workers[call.worker].job, call.pre)
  }

  ghost predicate CallsDistinct(w: World) {
    forall i, j :: 0 <= i < j < |w.calls| ==>
      w.calls[i].key != w.calls[j].key && w.calls[i].worker != w.calls[j].worker && w.calls[i].pre != w.calls[j].pre
  }

  ghost predicate OwnersDistinct(w: World) {
    forall a, b :: a in w.workers && b in w.workers && a != b && Owning(w.workers[a]) && Owning(w.workers[b]) ==>
      && w.workers[a].job.key != w.workers[b].job.key
      && (w.workers[a].Invoking? && w.workers[b].Invoking? ==> w.workers[a].pre != w.workers[b].pre)
  }

  ghost predicate CallsOk(w: World) {
    forall i :: 0 <= i < |w.calls| ==> CallOk(w, i)
  }

  ghost predicate PcsOk(w: World) {
    forall id :: id in w.workers ==> PcOk(w, id, w.workers[id])
  }

  ghost predicate RowsOk(w: World) {
    forall key :: key in w.store.data ==> RowOk(w, key)
  }

  ghost predicate Inv(env: Env, w: World) {
    && Verified(env.crypto, w.chain)
    && CallsOk(w) && CallsDistinct(w) && OwnersDistinct(w) && PcsOk(w) && RowsOk(w)
  }

  // Program counters that rely on the row of their key being PENDING.
  predicate NeedsPending(pc: PC) {
    Owning(pc) || pc.Awaiting? || pc.WritingFailure?
  }

  lemma {:induction false} PcFrame(w: World, w': World, b: nat, pc: PC)
    requires PcOk(w, b, pc)
    requires w'.chain == w.chain && w'.calls == w.calls
    requires NeedsPending(pc) ==> RowPending(w', pc.job.key)
    ensures PcOk(w', b, pc)
  {
  }

  lemma {:induction false} RowFrame(w: World, w': World, key: string)
    requires w'.calls == w.calls && key in w.store.data && key in w'.store.data
    requires RowOk(w, key)
    requires w'.store.data[key].status == w.store.data[key].status
    requires w'.store.data[key].externalReference == w.store.data[key].externalReference
    ensures RowOk(w', key)
  {
  }

  lemma {:induction false} AbsentIsUncalled(env: Env, w: World, key: string)
    requires Inv(env, w) && key !in w.store.data
    ensures Uncalled(w, key)
  {
    forall i | 0 <= i < |w.calls| ensures w.calls[i].key != key { assert CallOk(w, i); }
  }

  // The step from w to w' moves worker `id` to `pc`, and changes nothing else but the row of its key.
  ghost predicate OwnRowOnly(w: World, w': World, id: nat, pc: PC) {
    && id in w.workers && pc.job == w.workers[id].job
    && w'.chain == w.chain && w'.calls == w.calls && w'.workers == w.workers[id := pc]
    && forall k :: k != pc.job.key ==>
         (k in w'.store.data <==> k in w.store.data) && (k in w.store.data ==> w'.store.data[k] == w.store.data[k])
  }

  lemma {:induction false} OwnRowCalls(w: World, w': World, id: nat, pc: PC)
    requires CallsOk(w) && OwnRowOnly(w, w', id, pc)
    requires pc.job.key in w'.store.data || Uncalled(w, pc.job.key)
    ensures CallsOk(w')
  {
    forall i | 0 <= i < |w'.calls|
      ensures CallOk(w', i)
    {
      assert CallOk(w, i);
    }
  }

  lemma {:induction false} OwnRowPcs(w: World, w': World, id: nat, pc: PC)
    requires PcsOk(w) && OwnRowOnly(w, w', id, pc) && PcOk(w', id, pc)
    requires forall b :: b in w.workers && b != id && w.workers[b].job.key == pc.job.key && NeedsPending(w.workers[b]) ==>
      RowPending(w', pc.job.key)
    ensures PcsOk(w')
  {
    forall b | b in w'.workers
      ensures PcOk(w', b, w'.workers[b])
    {
      if b != id {
        assert PcOk(w, b, w.workers[b]);
        PcFrame(w, w', b, w.workers[b]);
      }
    }
  }

  lemma {:induction false} OwnRowRows(w: World, w': World, id: nat, pc: PC)
    requires RowsOk(w) && OwnRowOnly(w, w', id, pc)
    requires pc.job.key in w'.store.data ==> RowOk(w', pc.job.key)
    ensures RowsOk(w')
  {
    forall key | key in w'.store.data
      ensures RowOk(w', key)
    {
      if key != pc.job.key {
        RowFrame(w, w', key);
      }
    }
  }

  lemma {:induction false} OwnRowOwners(w: World, w': World, id: nat, pc: PC)
    requires OwnersDistinct(w) && OwnRowOnly(w, w', id, pc) && !pc.Invoking?
    requires Owning(pc) && !Owning(w.workers[id]) ==>
      forall b :: b in w.workers && b != id && Owning(w.workers[b]) ==> w.workers[b].job.key != pc.job.key
    ensures OwnersDistinct(w')
  {
  }

  lemma {:induction false} RowStep(env: Env, w: World, w': World, id: nat, pc: PC)
    requires Inv(env, w) && OwnRowOnly(w, w', id, pc)
    requires if pc.job.key in w'.store.data then RowOk(w', pc.job.key) else Uncalled(w, pc.job.key)
    requires forall b :: b in w.workers && b != id && w.workers[b].job.key == pc.job.key && NeedsPending(w.workers[b]) ==>
      RowPending(w', pc.job.key)
    requires PcOk(w', id, pc) && !pc.Invoking?
    requires Owning(pc) && !Owning(w.workers[id]) ==>
      forall b :: b in w.workers && b != id && Owning(w.workers[b]) ==> w.workers[b].job.key != pc.job.key
    ensures Inv(env, w')
  {
    OwnRowCalls(w, w', id, pc);
    OwnRowPcs(w, w', id, pc);
    OwnRowRows(w, w', id, pc);
    OwnRowOwners(w, w', id, pc);
  }

  // A worker that no longer relies on its row writes it, and nobody else relies on it.
  lemma {:induction false} WriteStep(env: Env, w: World, s: S.Store, id: nat, pc: PC, row: Outcome)
    requires Inv(env, w) && id in w.workers && pc.job == w.workers[id].job
    requires s.data == w.store.data[pc.job.key := row] && RowFits(w, pc.job.key, row)
    requires PcOk(w, id, pc) && !NeedsPending(pc)
    requires forall b :: b in w.workers && b != id && w.workers[b].job.key == pc.job.key ==> !NeedsPending(w.workers[b])
    ensures Inv(env, Place(w.(store := s), id, pc))
  {
    var w' := Place(w.(store := s), id, pc);
    PcFrame(w, w', id, pc);
    assert RowOk(w', pc.job.key) by { FitsFrame(w, w', pc.job.key, row); }
    RowStep(env, w, w', id, pc);
  }

  lemma {:induction false} FitsFrame(w: World, w': World, key: string, row: Outcome)
    requires w'.calls == w.calls && RowFits(w, key, row)
    ensures RowFits(w', key, row)
  {
  }

  // Steps that leave all rows alone.
  lemma {:induction false} QuietStep(env: Env, w: World, w': World, id: nat, pc: PC)
    requires Inv(env, w) && id in w.workers && pc.job == w.workers[id].job
    requires w'.chain == w.chain && w'.calls == w.calls && w'.workers == w.workers[id := pc]
    requires w'.store.data == w.store.data
    requires PcOk(w', id, pc) && !pc.Invoking?
    requires Owning(pc) ==> Owning(w.workers[id])
    ensures Inv(env, w')
  {
    if pc.job.key in w.store.data {
      RowFrame(w, w', pc.job.key);
    } else {
      AbsentIsUncalled(env, w, pc.job.key);
    }
    forall b | b in w.workers && b != id && NeedsPending(w.workers[b])
      ensures RowPending(w', w.workers[b].job.key)
    {
      assert PcOk(w, b, w.workers[b]);
    }
    RowStep(env, w, w', id, pc);
  }

  // Claiming a known key changes at most its `created` mark, and the answer never carries that mark.
  lemma {:induction false} ReclaimEffect(s: S.Store, key: string, payloadHash: string)
    requires key in s.data
    ensures var (s', answer) := S.ClaimStep(s, key, payloadHash);
      && s'.data.Keys == s.data.Keys
      && (forall k :: k != key && k in s.data ==> s'.data[k] == s.data[k])
      && s'.data[key].status == s.data[key].status
      && s'.data[key].externalReference == s.data[key].externalReference
      && (answer.Done? ==> !answer.outcome.created)
  {
  }

  lemma {:induction false} ReclaimKeeps(env: Env, w: World, id: nat, job: Job)
    requires Inv(env, w) && id in w.workers && w.workers[id] == Claiming(job) && job.key in w.store.data
    ensures Inv(env, DoClaim(w, id, job))
  {
    var w' := DoClaim(w, id, job);
    ReclaimEffect(w.store, job.key, job.payloadHash);
    var pc := w'.workers[id];
    assert pc.Finished? && w' == Place(w.(store := w'.store), id, pc);
    MarkStep(env, w, w'.store, id, pc);
  }

  // The row of the worker's key keeps status and reference, and the worker relies on nothing any more.
  lemma {:induction false} MarkStep(env: Env, w: World, s: S.Store, id: nat, pc: PC)
    requires Inv(env, w) && id in w.workers && pc.job == w.workers[id].job && pc.Finished?
    requires s.data.Keys == w.store.data.Keys && pc.job.key in s.data
    requires forall k :: k != pc.job.key && k in s.data ==> s.data[k] == w.store.data[k]
    requires s.data[pc.job.key].status == w.store.data[pc.job.key].status
    requires s.data[pc.job.key].externalReference == w.store.data[pc.job.key].externalReference
    ensures Inv(env, Place(w.(store := s), id, pc))
  {
    var w' := Place(w.(store := s), id, pc);
    RowFrame(w, w', pc.job.key);
    forall b | b in w.workers && b != id && w.workers[b].job.key == pc.job.key && NeedsPending(w.workers[b])
      ensures RowPending(w', pc.job.key)
    {
      assert PcOk(w, b, w.workers[b]);
    }
    RowStep(env, w, w', id, pc);
  }

  lemma {:induction false} NewClaimEffect(w: World, id: nat, job: Job)
    requires job.key !in w.store.data
    ensures var w' := DoClaim(w, id, job);
      || (w'.store.data == w.store.data && w' == Place(w.(store := w'.store), id, Finished(job, Raised(Store(S.StorageFull)))))
      || (w' == Place(w.(store := w'.store), id, Building(job, PreMutation))
          && w'.store.data == w.store.data[job.key := w'.store.data[job.key]] && w'.store.data[job.key].status.Pending?)
  {
  }

  lemma {:induction false} NewClaimKeeps(env: Env, w: World, id: nat, job: Job)
    requires Inv(env, w) && id in w.workers && w.workers[id] == Claiming(job) && job.key !in w.store.data
    ensures Inv(env, DoClaim(w, id, job))
  {
    var w' := DoClaim(w, id, job);
    NewClaimEffect(w, id, job);
    assert PcOk(w, id, w.workers[id]);
    AbsentIsUncalled(env, w, job.key);
    if w'.store.data == w.store.data {
      QuietStep(env, w, w', id, w'.workers[id]);
    } else {
      forall b | b in w.workers && b != id && w.workers[b].job.key == job.key
        ensures !NeedsPending(w.workers[b])
      {
        assert PcOk(w, b, w.workers[b]);
      }
      RowStep(env, w, w', id, Building(job, PreMutation));
    }
  }

  // The worker that called the provider for a key is the only one that relies on the row.
  lemma {:induction false} CallerAlone(env: Env, w: World, id: nat, b: nat, key: string, returned: Option<string>)
    requires Inv(env, w) && HasCall(w, id, key, returned)
    requires b in w.workers && b != id && w.workers[b].job.key == key
    ensures !NeedsPending(w.workers[b])
  {
    assert PcOk(w, b, w.workers[b]);
    var i :| 0 <= i < |w.calls| && w.calls[i].worker == id && w.calls[i].key == key && w.calls[i].returned == returned;
  }

  lemma {:induction false} HasCallIsKeyReturned(w: World, id: nat, key: string, returned: Option<string>)
    requires HasCall(w, id, key, returned)
    ensures KeyReturned(w, key, returned)
  {
  }

  lemma {:induction false} CallerHasRow(env: Env, w: World, id: nat, key: string, returned: Option<string>)
    requires Inv(env, w) && HasCall(w, id, key, returned)
    ensures key in w.store.data
  {
    var i :| 0 <= i < |w.calls| && w.calls[i].worker == id && w.calls[i].key == key && w.calls[i].returned == returned;
    assert CallOk(w, i);
  }

  lemma {:induction false} NobodyElseNeeds(env: Env, w: World, id: nat, key: string, returned: Option<string>)
    requires Inv(env, w) && HasCall(w, id, key, returned)
    ensures forall b :: b in w.workers && b != id && w.workers[b].job.key == key ==> !NeedsPending(w.workers[b])
  {
    forall b | b in w.workers && b != id && w.workers[b].job.key == key
      ensures !NeedsPending(w.workers[b])
    {
      CallerAlone(env, w, id, b, key, returned);
    }
  }

  // The caller's write of its outcome: either it is refused and the rows stay, or it is the row given.
  lemma {:induction false} CallerWrites(env: Env, w: World, s: S.Store, id: nat, pc: PC, returned: Option<string>, row: Outcome)
    requires Inv(env, w) && id in w.workers && pc.job == w.workers[id].job && HasCall(w, id, pc.job.key, returned)
    requires s.data == w.store.data[pc.job.key := row] || (s.data == w.store.data)
    requires RowFits(w, pc.job.key, row)
    requires PcOk(w, id, pc) && !NeedsPending(pc)
    ensures Inv(env, Place(w.(store := s), id, pc))
  {
    if s.data == w.store.data {
      PcFrame(w, Place(w.(store := s), id, pc), id, pc);
      QuietStep(env, w, Place(w.(store := s), id, pc), id, pc);
    } else {
      NobodyElseNeeds(env, w, id, pc.job.key, returned);
      WriteStep(env, w, s, id, pc, row);
    }
  }

  lemma {:induction false} WriteFailureKeeps(env: Env, w: World, id: nat, job: Job)
    requires Inv(env, w) && id in w.workers && w.workers[id] == WritingFailure(job)
    ensures Inv(env, DoWriteFailure(w, id, job))
  {
    var w' := DoWriteFailure(w, id, job);
    assert PcOk(w, id, w.workers[id]);
    CallerHasRow(env, w, id, job.key, None);
    HasCallIsKeyReturned(w, id, job.key, None);
    var row := S.Plain(job.key, FailedNoMutation, w.store.data[job.key].payloadHash, None);
    CallerWrites(env, w, w'.store, id, w'.workers[id], None, row);
  }

  lemma {:induction false} WriteSuccessKeeps(env: Env, w: World, id: nat, job: Job, reference: string)
    requires Inv(env, w) && id in w.workers && w.workers[id] == WritingSuccess(job, reference)
    ensures Inv(env, DoWriteSuccess(w, id, job, reference))
  {
    var w' := DoWriteSuccess(w, id, job, reference);
    assert PcOk(w, id, w.workers[id]);
    CallerHasRow(env, w, id, job.key, Some(reference));
    HasCallIsKeyReturned(w, id, job.key, Some(reference));
    var row := w'.store.data[job.key];
    assert w'.store.data == w.store.data || RowFits(w, job.key, row);
    if w'.store.data == w.store.data {
      QuietStep(env, w, w', id, w'.workers[id]);
    } else {
      CallerWrites(env, w, w'.store, id, w'.workers[id], Some(reference), row);
    }
  }

  lemma {:induction false} DowngradeKeeps(env: Env, w: World, id: nat, job: Job, reference: string)
    requires Inv(env, w) && id in w.workers && w.workers[id] == Downgrading(job, reference)
    ensures Inv(env, DoDowngrade(w, id, job, reference))
  {
    var w' := DoDowngrade(w, id, job, reference);
    assert PcOk(w, id, w.workers[id]);
    CallerHasRow(env, w, id, job.key, Some(reference));
    HasCallIsKeyReturned(w, id, job.key, Some(reference));
    var row := S.Plain(job.key, Uncertain, w.store.data[job.key].payloadHash, Some(reference));
    CallerWrites(env, w, w'.store, id, w'.workers[id], Some(reference), row);
  }

  // Nobody relies on a PENDING row of a key whose call has come back.
  lemma {:induction false} NobodyNeeds(env: Env, w: World, b: nat, key: string, reference: string)
    requires Inv(env, w) && KeyReturned(w, key, Some(reference))
    requires b in w.workers && w.workers[b].job.key == key
    ensures !NeedsPending(w.workers[b])
  {
    assert PcOk(w, b, w.workers[b]);
    var i :| 0 <= i < |w.calls| && w.calls[i].key == key && w.calls[i].returned == Some(reference);
  }

  lemma {:induction false} ResolveKeeps(env: Env, w: World, id: nat, job: Job, found: Option<string>)
    requires Inv(env, w) && id in w.workers && w.workers[id] == Resolving(job, found)
    ensures Inv(env, DoResolve(w, id, job, found))
  {
    var w' := DoResolve(w, id, job, found);
    assert PcOk(w, id, w.workers[id]);
    ReturnedHasRow(env, w, job.key, found);
    if w'.store.data == w.store.data {
      QuietStep(env, w, w', id, w'.workers[id]);
    } else {
      forall b | b in w.workers && b != id && w.workers[b].job.key == job.key
        ensures !NeedsPending(w.workers[b])
      {
        NobodyNeeds(env, w, b, job.key, found.value);
      }
      WriteStep(env, w, w'.store, id, w'.workers[id], w'.store.data[job.key]);
    }
  }

  lemma {:induction false} ReturnedHasRow(env: Env, w: World, key: string, returned: Option<string>)
    requires Inv(env, w) && KeyReturned(w, key, returned)
    ensures key in w.store.data
  {
    var i :| 0 <= i < |w.calls| && w.calls[i].key == key && w.calls[i].returned == returned;
    assert CallOk(w, i);
  }

  lemma {:induction false} RollbackKeeps(env: Env, w: World, id: nat, job: Job)
    requires Inv(env, w) && id in w.workers && w.workers[id] == RollingBack(job)
    ensures Inv(env, Raise(w.(store := S.RollbackStep(w.store, job.key)), id, job, AuditBlocked))
  {
    var w' := Raise(w.(store := S.RollbackStep(w.store, job.key)), id, job, AuditBlocked);
    assert PcOk(w, id, w.workers[id]);
    forall b | b in w.workers && b != id && w.workers[b].job.key == job.key
      ensures !NeedsPending(w.workers[b])
    {
      assert PcOk(w, b, w.workers[b]);
    }
    RowStep(env, w, w', id, w'.workers[id]);
  }

  lemma {:induction false} ReadKeeps(env: Env, w: World, id: nat, job: Job)
    requires Inv(env, w) && id in w.workers && w.workers[id] == Reading(job)
    ensures Inv(env, DoRead(w, id, job))
  {
    if job.key in w.store.data {
      assert RowOk(w, job.key);
    }
    QuietStep(env, w, DoRead(w, id, job), id, DoRead(w, id, job).workers[id]);
  }

  // The provider call

  lemma {:induction false} InvokeKeeps(env: Env, w: World, id: nat, job: Job, pre: nat)
    requires Inv(env, w) && id in w.workers && w.workers[id] == Invoking(job, pre)
    ensures Inv(env, DoInvoke(w, id, job, pre))
  {
    var w' := DoInvoke(w, id, job, pre);
    var n := |w.calls|;
    assert PcOk(w, id, w.workers[id]);
    assert w'.calls[n] == Call(job.key, id, pre, None) && w'.calls[..n] == w.calls;
    forall i | 0 <= i < |w'.calls|
      ensures CallOk(w', i)
    {
      if i < n { assert CallOk(w, i); }
    }
    forall b | b in w'.workers
      ensures PcOk(w', b, w'.workers[b])
    {
      if b != id {
        assert PcOk(w, b, w.workers[b]);
        OtherPcAfterInvoke(w, w', id, b, w.workers[b]);
      }
    }
    forall key | key in w'.store.data
      ensures RowOk(w', key)
    {
      assert RowOk(w, key);
      LongerCalls(w, w', key);
    }
  }

  lemma {:induction false} LongerCalls(w: World, w': World, key: string)
    requires w.calls <= w'.calls && w'.store == w.store && key in w.store.data && RowOk(w, key)
    ensures RowOk(w', key)
  {
    forall returned | KeyReturned(w, key, returned)
      ensures KeyReturned(w', key, returned)
    {
      var i :| 0 <= i < |w.calls| && w.calls[i].key == key && w.calls[i].returned == returned;
      assert w'.calls[i] == w.calls[i];
    }
  }

  lemma {:induction false} OtherPcAfterInvoke(w: World, w': World, id: nat, b: nat, pc: PC)
    requires PcOk(w, b, pc) && b != id && id in w.workers && w.workers[id].Invoking?
    requires w' == DoInvoke(w, id, w.workers[id].job, w.workers[id].pre)
    requires Owning(pc) ==> pc.job.key != w.workers[id].job.key
    requires pc.Invoking? ==> pc.pre != w.workers[id].pre
    ensures PcOk(w', b, pc)
  {
    forall key, returned | HasCall(w, b, key, returned)
      ensures HasCall(w', b, key, returned)
    {
      var i :| 0 <= i < |w.calls| && w.calls[i].worker == b && w.calls[i].key == key && w.calls[i].returned == returned;
      assert w'.calls[i] == w.calls[i];
    }
    forall key, returned | KeyReturned(w, key, returned)
      ensures KeyReturned(w', key, returned)
    {
      var i :| 0 <= i < |w.calls| && w.calls[i].key == key && w.calls[i].returned == returned;
      assert w'.calls[i] == w.calls[i];
    }
  }

  lemma {:induction false} ReferenceChange(w: World, id: nat, job: Job, reference: string, own: nat)
    requires CallsDistinct(w) && PcOk(w, id, Awaiting(job))
    requires own < |w.calls| && w.calls[own].worker == id && w.calls[own].key == job.key && w.calls[own].returned == None
    ensures var w' := DoReturn(w, id, job, Reference(reference));
      && OnlyCallChanged(w, w', own) && w'.calls[own].returned == Some(reference)
      && w'.workers == w.workers[id := WritingSuccess(job, reference)]
  {
  }

  lemma {:induction false} ReferencePcs(env: Env, w: World, w': World, id: nat, job: Job, reference: string, own: nat)
    requires Inv(env, w) && id in w.workers && OnlyCallChanged(w, w', own)
    requires w'.calls[own].worker == id && w'.calls[own].key == job.key && w'.calls[own].returned == Some(reference)
    requires w'.workers == w.workers[id := WritingSuccess(job, reference)]
    ensures PcsOk(w')
  {
    forall b | b in w'.workers
      ensures PcOk(w', b, w'.workers[b])
    {
      if b != id {
        assert PcOk(w, b, w.workers[b]);
        OtherPcAfterReturn(env, w, w', id, own, b, w.workers[b]);
      }
    }
  }

  lemma {:induction false} ReferenceKeeps(env: Env, w: World, id: nat, job: Job, reference: string, own: nat)
    requires Inv(env, w) && id in w.workers && w.workers[id] == Awaiting(job)
    requires own < |w.calls| && w.calls[own].worker == id && w.calls[own].key == job.key && w.calls[own].returned == None
    ensures Inv(env, DoReturn(w, id, job, Reference(reference)))
  {
    var w' := DoReturn(w, id, job, Reference(reference));
    assert PcOk(w, id, w.workers[id]);
    ReferenceChange(w, id, job, reference, own);
    ReferencePcs(env, w, w', id, job, reference, own);
    forall i | 0 <= i < |w.calls|
      ensures CallOk(w', i)
    {
      assert CallOk(w, i);
    }
    forall key | key in w'.store.data
      ensures RowOk(w', key)
    {
      assert RowOk(w, key);
      RowAfterReturn(w, w', own, key);
    }
  }

  lemma {:induction false} ReturnKeeps(env: Env, w: World, id: nat, job: Job, answer: ProviderAnswer)
    requires Inv(env, w) && id in w.workers && w.workers[id] == Awaiting(job)
    ensures Inv(env, DoReturn(w, id, job, answer))
  {
    var w' := DoReturn(w, id, job, answer);
    assert PcOk(w, id, w.workers[id]);
    if answer.Reference? {
      var own :| 0 <= own < |w.calls| && w.calls[own].worker == id && w.calls[own].key == job.key && w.calls[own].returned == None;
      ReferenceKeeps(env, w, id, job, answer.reference, own);
    } else {
      QuietStep(env, w, w', id, w'.workers[id]);
    }
  }

  // All calls but one are as before, and the row of that one is PENDING.
  predicate OnlyCallChanged(w: World, w': World, own: nat) {
    && own < |w.calls| == |w'.calls|
    && w'.store == w.store && w'.chain == w.chain
    && (forall i :: 0 <= i < |w.calls| && i != own ==> w'.calls[i] == w.calls[i])
    && w'.calls[own].key == w.calls[own].key && w'.calls[own].worker == w.calls[own].worker && w'.calls[own].pre == w.calls[own].pre
    && RowPending(w, w.calls[own].key) && w.calls[own].returned == None
  }

  lemma {:induction false} RowAfterReturn(w: World, w': World, own: nat, key: string)
    requires OnlyCallChanged(w, w', own) && key in w.store.data && RowOk(w, key)
    ensures RowOk(w', key)
  {
    if key != w.calls[own].key {
      forall returned | KeyReturned(w, key, returned)
        ensures KeyReturned(w', key, returned)
      {
        var i :| 0 <= i < |w.calls| && w.calls[i].key == key && w.calls[i].returned == returned;
        assert w'.calls[i] == w.calls[i];
      }
    }
  }

  lemma {:induction false} OtherPcAfterReturn(env: Env, w: World, w': World, id: nat, own: nat, b: nat, pc: PC)
    requires Inv(env, w) && OnlyCallChanged(w, w', own) && w.calls[own].worker == id && b != id
    requires PcOk(w, b, pc)
    ensures PcOk(w', b, pc)
  {
    forall key, returned | HasCall(w, b, key, returned)
      ensures HasCall(w', b, key, returned)
    {
      var i :| 0 <= i < |w.calls| && w.calls[i].worker == b && w.calls[i].key == key && w.calls[i].returned == returned;
      assert w'.calls[i] == w.calls[i];
    }
    forall key, reference | KeyReturned(w, key, Some(reference))
      ensures KeyReturned(w', key, Some(reference))
    {
      var i :| 0 <= i < |w.calls| && w.calls[i].key == key && w.calls[i].returned == Some(reference);
      assert w'.calls[i] == w.calls[i];
    }
  }

  // The audit chain

  // A longer chain still holds every record relied upon.
  lemma {:induction false} LongerChain(env: Env, w: World, w': World)
    requires Inv(env, w)
    requires w'.calls == w.calls && w'.workers == w.workers && w'.store == w.store
    requires w.chain.records <= w'.chain.records && Verified(env.crypto, w'.chain)
    ensures Inv(env, w')
  {
    forall i | 0 <= i < |w'.calls|
      ensures CallOk(w', i)
    {
      assert CallOk(w, i);
    }
    forall b | b in w'.workers
      ensures PcOk(w', b, w'.workers[b])
    {
      assert PcOk(w, b, w.workers[b]);
    }
    forall key | key in w'.store.data
      ensures RowOk(w', key)
    {
      assert RowOk(w, key);
    }
  }

  lemma {:induction false} AppendKeeps(env: Env, w: World, id: nat, job: Job, point: Point, record: Option<Record>)
    requires Inv(env, w) && id in w.workers && w.workers[id] == Appending(job, point, record)
    ensures Inv(env, DoAppend(env, w, id, job, point, record))
  {
    var w' := DoAppend(env, w, id, job, point, record);
    assert PcOk(w, id, w.workers[id]);
    if record.None? || w.failNextAppend || !Continues(w.chain, record.value) {
      QuietStep(env, w, w', id, w'.workers[id]);
    } else {
      var w1 := w.(chain := Extend(env.crypto, w.chain, record.value));
      ExtendVerifies(env.crypto, w.chain, record.value);
      LongerChain(env, w, w1);
      if point.PreMutation? {
        NewInvoker(env, w, w1, id, job);
      } else {
        QuietStep(env, w1, w', id, w'.workers[id]);
      }
    }
  }

  // The pre-mutation record just appended is nobody else's.
  lemma {:induction false} NewInvoker(env: Env, w: World, w1: World, id: nat, job: Job)
    requires Inv(env, w) && Inv(env, w1) && id in w1.workers && w1.workers == w.workers && w1.calls == w.calls
    requires w1.workers[id].Appending? && w1.workers[id].job == job && w1.workers[id].point.PreMutation?
    requires |w1.chain.records| == |w.chain.records| + 1
    requires EventOf(w1.chain.records[|w.chain.records|], job, PreMutation)
    requires job == w1.workers[id].job
    ensures Inv(env, Place(w1, id, Invoking(job, |w.chain.records|)))
  {
    var pre := |w.chain.records|;
    var pc := Invoking(job, pre);
    var w' := Place(w1, id, pc);
    assert PcOk(w1, id, w1.workers[id]);
    forall i | 0 <= i < |w'.calls|
      ensures w'.calls[i].pre != pre
    {
      assert CallOk(w, i);
    }
    assert PcOk(w', id, pc);
    forall b | b in w.workers && b != id && w.workers[b].Invoking?
      ensures w.workers[b].pre != pre
    {
      assert PcOk(w, b, w.workers[b]);
    }
    forall b | b in w.workers && b != id && NeedsPending(w.workers[b])
      ensures RowPending(w', w.workers[b].job.key)
    {
      assert PcOk(w1, b, w1.workers[b]);
    }
    OwnRowCalls(w1, w', id, pc);
    OwnRowPcs(w1, w', id, pc);
    RowFrame(w1, w', job.key);
    OwnRowRows(w1, w', id, pc);
  }

  // Every step

  // Program counters before, or outside, the worker's own claim.
  predicate Early(pc: PC) {
    pc.Begin? || pc.Registering? || pc.Claiming? || pc.Authorizing? || pc.Reading? || pc.Finished?
  }

  lemma {:induction false} BeginKeeps(env: Env, w: World, id: nat, job: Job)
    requires Inv(env, w) && id in w.workers && w.workers[id] == Begin(job)
    ensures Inv(env, DoBegin(w, id, job))
  {
    assert PcOk(w, id, w.workers[id]);
    QuietStep(env, w, DoBegin(w, id, job), id, DoBegin(w, id, job).workers[id]);
  }

  lemma {:induction false} AuthorizeKeeps(env: Env, w: World, id: nat, job: Job)
    requires Inv(env, w) && id in w.workers && w.workers[id] == Authorizing(job)
    ensures Inv(env, DoAuthorize(w, id, job))
  {
    QuietStep(env, w, DoAuthorize(w, id, job), id, DoAuthorize(w, id, job).workers[id]);
  }

  lemma {:induction false} RegisterKeeps(env: Env, w: World, id: nat, job: Job)
    requires Inv(env, w) && id in w.workers && w.workers[id] == Registering(job)
    ensures Inv(env, Place(w.(store := S.FencingStep(w.store, job.key, job.lease.fencingToken)), id, Claiming(job)))
  {
    assert PcOk(w, id, w.workers[id]);
    QuietStep(env, w, Place(w.(store := S.FencingStep(w.store, job.key, job.lease.fencingToken)), id, Claiming(job)), id, Claiming(job));
  }

  lemma {:induction false} BuildKeeps(env: Env, w: World, id: nat, job: Job, point: Point)
    requires Inv(env, w) && id in w.workers && w.workers[id] == Building(job, point)
    ensures Inv(env, Place(w, id, Appending(job, point, BuildRecord(env, w.chain, job, point))))
  {
    var pc := Appending(job, point, BuildRecord(env, w.chain, job, point));
    assert PcOk(w, id, w.workers[id]);
    QuietStep(env, w, Place(w, id, pc), id, pc);
  }

  lemma {:induction false} AdvanceEarly(env: Env, w: World, id: nat, answer: ProviderAnswer)
    requires Inv(env, w) && id in w.workers && Early(w.workers[id])
    ensures Inv(env, DoAdvance(env, w, id, answer))
  {
    match w.workers[id]
    case Begin(job) => BeginKeeps(env, w, id, job);
    case Registering(job) => RegisterKeeps(env, w, id, job);
    case Claiming(job) => if job.key in w.store.data { ReclaimKeeps(env, w, id, job); } else { NewClaimKeeps(env, w, id, job); }
    case Authorizing(job) => AuthorizeKeeps(env, w, id, job);
    case Reading(job) => ReadKeeps(env, w, id, job);
    case Finished(_, _) =>
  }

  lemma {:induction false} AdvanceLate(env: Env, w: World, id: nat, answer: ProviderAnswer)
    requires Inv(env, w) && id in w.workers && !Early(w.workers[id])
    ensures Inv(env, DoAdvance(env, w, id, answer))
  {
    match w.workers[id]
    case Building(job, point) => BuildKeeps(env, w, id, job, point);
    case Appending(job, point, record) => AppendKeeps(env, w, id, job, point, record);
    case RollingBack(job) => RollbackKeeps(env, w, id, job);
    case Invoking(job, pre) => InvokeKeeps(env, w, id, job, pre);
    case Awaiting(job) => ReturnKeeps(env, w, id, job, answer);
    case WritingFailure(job) => WriteFailureKeeps(env, w, id, job);
    case WritingSuccess(job, reference) => WriteSuccessKeeps(env, w, id, job, reference);
    case Downgrading(job, reference) => DowngradeKeeps(env, w, id, job, reference);
    case Resolving(job, found) => ResolveKeeps(env, w, id, job, found);
  }

  lemma {:induction false} AdvanceKeeps(env: Env, w: World, id: nat, answer: ProviderAnswer)
    requires Inv(env, w) && id in w.workers
    ensures Inv(env, DoAdvance(env, w, id, answer))
  {
    if Early(w.workers[id]) {
      AdvanceEarly(env, w, id, answer);
    } else {
      AdvanceLate(env, w, id, answer);
    }
  }

  lemma {:induction false} StartKeeps(env: Env, w: World, id: nat, job: Job)
    requires Inv(env, w) && id !in w.workers
    ensures Inv(env, Place(w, id, Begin(job)))
  {
    var w' := Place(w, id, Begin(job));
    forall i | 0 <= i < |w'.calls|
      ensures CallOk(w', i) && w'.calls[i].worker != id
    {
      assert CallOk(w, i);
    }
    forall b | b in w'.workers
      ensures PcOk(w', b, w'.workers[b])
    {
      if b != id {
        assert PcOk(w, b, w.workers[b]);
        PcFrame(w, w', b, w.workers[b]);
      }
    }
    forall key | key in w'.store.data
      ensures RowOk(w', key)
    {
      RowFrame(w, w', key);
    }
  }

  lemma {:induction false} StepKeeps(env: Env, w: World, l: Label)
    requires Inv(env, w)
    ensures Inv(env, Do(env, w, l))
  {
    match l
    case Start(id, job) => if id !in w.workers { StartKeeps(env, w, id, job); }
    case Advance(id, answer) => if id in w.workers { AdvanceKeeps(env, w, id, answer); }
    case Kill(id) =>
      if id in w.workers && !w.workers[id].Finished? {
        QuietStep(env, w, Do(env, w, l), id, Finished(w.workers[id].job, Raised(Killed)));
      }
    case ArmAppendFailure => FlagsKeep(env, w, Do(env, w, l));
    case ArmWriteFailure => FlagsKeep(env, w, Do(env, w, l));
    case ForeignAppend(record) =>
      if Continues(w.chain, record) {
        ExtendVerifies(env.crypto, w.chain, record);
        LongerChain(env, w, Do(env, w, l));
      }
  }

  lemma {:induction false} FlagsKeep(env: Env, w: World, w': World)
    requires Inv(env, w)
    requires w'.chain == w.chain && w'.calls == w.calls && w'.workers == w.workers && w'.store.data == w.store.data
    ensures Inv(env, w')
  {
    forall i | 0 <= i < |w'.calls|
      ensures CallOk(w', i)
    {
      assert CallOk(w, i);
    }
    forall b | b in w'.workers
      ensures PcOk(w', b, w'.workers[b])
    {
      assert PcOk(w, b, w.workers[b]);
      PcFrame(w, w', b, w.workers[b]);
    }
    forall key | key in w'.store.data
      ensures RowOk(w', key)
    {
      RowFrame(w, w', key);
    }
  }

  lemma {:induction false} RunKeeps(env: Env, w: World, labels: seq<Label>)
    requires Inv(env, w)
    ensures Inv(env, Run(env, w, labels))
  {
    if labels != [] {
      RunKeeps(env, w, labels[..|labels| - 1]);
      StepKeeps(env, Run(env, w, labels[..|labels| - 1]), labels[|labels| - 1]);
    }
  }

  lemma {:induction false} Reachable(env: Env, capacity: int, labels: seq<Label>)
    ensures Inv(env, Run(env, Init(capacity), labels))
  {
    RunKeeps(env, Init(capacity), labels);
  }

  // The main results

  // In every interleaving, with any crashes and failures, the provider is invoked at most once per key.
  lemma {:induction false} ProviderCalledAtMostOnce(env: Env, capacity: int, labels: seq<Label>, i: nat, j: nat)
    requires i < j < |Run(env, Init(capacity), labels).calls|
    ensures Run(env, Init(capacity), labels).calls[i].key != Run(env, Init(capacity), labels).calls[j].key
  {
    Reachable(env, capacity, labels);
  }

  // What later steps leave of a call, its worker and the chain.
  predicate CallStays(w: World, w': World, i: nat) {
    && i < |w.calls| && i < |w'.calls| && w'.calls[i].worker == w.calls[i].worker && w'.calls[i].pre == w.calls[i].pre
    && w.calls[i].worker in w.workers && w.calls[i].worker in w'.workers
    && w'.workers[w.calls[i].worker].job == w.workers[w.calls[i].worker].job
    && w.chain.records <= w'.chain.records
  }

  lemma {:induction false} ChainGrows(env: Env, w: World, id: nat, answer: ProviderAnswer)
    requires id in w.workers
    ensures w.chain.records <= DoAdvance(env, w, id, answer).chain.records
  {
  }

  // Only the two halves of the provider call change the call log.
  lemma {:induction false} CallsStay(env: Env, w: World, id: nat, answer: ProviderAnswer)
    requires id in w.workers && !w.workers[id].Invoking? && !w.workers[id].Awaiting?
    ensures DoAdvance(env, w, id, answer).calls == w.calls
  {
  }

  lemma {:induction false} AdvanceCalls(env: Env, w: World, id: nat, answer: ProviderAnswer)
    requires id in w.workers
    ensures var w' := DoAdvance(env, w, id, answer);
      && |w.calls| <= |w'.calls| && w.chain.records <= w'.chain.records
      && forall i :: 0 <= i < |w.calls| ==> w'.calls[i].worker == w.calls[i].worker && w'.calls[i].pre == w.calls[i].pre
  {
    ChainGrows(env, w, id, answer);
    match w.workers[id]
    case Invoking(_, _) =>
    case Awaiting(_) =>
    case _ => CallsStay(env, w, id, answer);
  }

  lemma {:induction false} StepKeepsCall(env: Env, w: World, l: Label, i: nat)
    requires i < |w.calls| && w.calls[i].worker in w.workers
    ensures CallStays(w, Do(env, w, l), i)
  {
    if l.Advance? && l.worker in w.workers {
      OtherKeyStep(env, w, l.worker, l.answer);
      AdvanceCalls(env, w, l.worker, l.answer);
    }
  }

  // Step k logs call i; by then its pre-mutation record is in the chain, where it stays.
  predicate LoggedAt(env: Env, capacity: int, labels: seq<Label>, i: nat, k: nat) {
    k < |labels| &&
    var before, logged, w := Run(env, Init(capacity), labels[..k]), Run(env, Init(capacity), labels[..k + 1]), Run(env, Init(capacity), labels);
    && |before.calls| == i && CallStays(logged, w, i)
    && PreRecordAt(before, w.workers[w.calls[i].worker].job, w.calls[i].pre) && before.chain.records <= w.chain.records
  }

  ghost predicate LoggedBehindRecord(env: Env, capacity: int, labels: seq<Label>, i: nat) {
    exists k: nat :: LoggedAt(env, capacity, labels, i, k)
  }

  lemma {:induction false} JustLogged(env: Env, w: World, l: Label, i: nat)
    requires Inv(env, w) && i == |w.calls| && i < |Do(env, w, l).calls|
    ensures var w' := Do(env, w, l);
      && CallStays(w', w', i) && PreRecordAt(w, w'.workers[w'.calls[i].worker].job, w'.calls[i].pre)
      && w.chain.records <= w'.chain.records
  {
    assert l.Advance? && l.worker in w.workers && PcOk(w, l.worker, w.workers[l.worker]);
  }

  lemma {:induction false} LoggedEarlier(env: Env, capacity: int, labels: seq<Label>, i: nat, k: nat)
    requires labels != [] && LoggedAt(env, capacity, labels[..|labels| - 1], i, k)
    ensures LoggedAt(env, capacity, labels, i, k)
  {
    var front := labels[..|labels| - 1];
    var m := Run(env, Init(capacity), front);
    assert front[..k] == labels[..k] && front[..k + 1] == labels[..k + 1];
    StepKeepsCall(env, m, labels[|labels| - 1], i);
  }

  lemma {:induction false} LoggedNow(env: Env, capacity: int, labels: seq<Label>, i: nat)
    requires labels != [] && i == |Run(env, Init(capacity), labels[..|labels| - 1]).calls| < |Run(env, Init(capacity), labels).calls|
    ensures LoggedAt(env, capacity, labels, i, |labels| - 1)
  {
    var front := labels[..|labels| - 1];
    Reachable(env, capacity, front);
    JustLogged(env, Run(env, Init(capacity), front), labels[|labels| - 1], i);
    assert labels[..|labels|] == labels;
  }

  lemma {:induction false} OneMoreCall(env: Env, w: World, l: Label)
    ensures |Do(env, w, l).calls| <= |w.calls| + 1
  {
  }

  lemma {:induction false} CallIsLogged(env: Env, capacity: int, labels: seq<Label>, i: nat) returns (k: nat)
    requires i < |Run(env, Init(capacity), labels).calls|
    ensures LoggedAt(env, capacity, labels, i, k)
  {
    var front, l := labels[..|labels| - 1], labels[|labels| - 1];
    var m := Run(env, Init(capacity), front);
    OneMoreCall(env, m, l);
    if i < |m.calls| {
      k := CallIsLogged(env, capacity, front, i);
      LoggedEarlier(env, capacity, labels, i, k);
    } else {
      k := |labels| - 1;
      LoggedNow(env, capacity, labels, i);
    }
  }

  // Every call stands behind a pre-mutation record of its own job, shared with no other call and in the chain before
  // the call was made, in a chain that verifies.
  lemma {:induction false} EveryCallWasAudited(env: Env, capacity: int, labels: seq<Label>)
    ensures var w := Run(env, Init(capacity), labels);
      && Verified(env.crypto, w.chain)
      && (forall i :: 0 <= i < |w.calls| ==>
            w.calls[i].worker in w.workers && PreRecordAt(w, w.workers[w.calls[i].worker].job, w.calls[i].pre))
      && (forall i, j :: 0 <= i < j < |w.calls| ==> w.calls[i].pre != w.calls[j].pre)
      && (forall i: nat :: i < |w.calls| ==> LoggedBehindRecord(env, capacity, labels, i))
  {
    Reachable(env, capacity, labels);
    var w := Run(env, Init(capacity), labels);
    forall i | 0 <= i < |w.calls|
      ensures w.calls[i].worker in w.workers && PreRecordAt(w, w.workers[w.calls[i].worker].job, w.calls[i].pre)
    {
      assert CallOk(w, i);
    }
    forall i: nat | i < |w.calls|
      ensures LoggedBehindRecord(env, capacity, labels, i)
    {
      var k := CallIsLogged(env, capacity, labels, i);
    }
  }

  // What the store says about a key whose provider call returned a reference: never that nothing happened,
  // and once it says more than PENDING it names that reference.
  lemma {:induction false} ReturnedReferenceIsKept(env: Env, capacity: int, labels: seq<Label>, i: nat)
    requires i < |Run(env, Init(capacity), labels).calls|
    requires Run(env, Init(capacity), labels).calls[i].returned.Some?
    requires Run(env, Init(capacity), labels).calls[i].returned != Some("")
    ensures var w := Run(env, Init(capacity), labels); var call := w.calls[i];
      && call.key in w.store.data
      && var row := w.store.data[call.key];
         row.status.Pending? || ((row.status.Uncertain? || row.status.ResolvedPresent?) && row.externalReference == call.returned)
  {
    Reachable(env, capacity, labels);
    var w := Run(env, Init(capacity), labels);
    assert CallOk(w, i);
    OneAnswerPerKey(env, w, i);
  }

  lemma {:induction false} OneAnswerPerKey(env: Env, w: World, i: nat)
    requires Inv(env, w) && i < |w.calls|
    ensures w.calls[i].key in w.store.data && RowOk(w, w.calls[i].key)
    ensures forall returned :: KeyReturned(w, w.calls[i].key, returned) ==> returned == w.calls[i].returned
  {
    assert CallOk(w, i);
  }

  // RESOLVED_ABSENT is only ever recorded for a key whose provider call came back with an empty reference:
  // it never means that the provider was not called.
  lemma {:induction false} AbsentMeansEmptyReference(env: Env, capacity: int, labels: seq<Label>, key: string)
    requires var w := Run(env, Init(capacity), labels); key in w.store.data && w.store.data[key].status.ResolvedAbsent?
    ensures KeyReturned(Run(env, Init(capacity), labels), key, Some(""))
  {
    Reachable(env, capacity, labels);
    assert RowOk(Run(env, Init(capacity), labels), key);
  }

  // A key recorded as FAILED_NO_MUTATION had exactly one provider call, and it returned no reference.
  lemma {:induction false} FailureMeansNoReference(env: Env, capacity: int, labels: seq<Label>, key: string)
    requires var w := Run(env, Init(capacity), labels); key in w.store.data && w.store.data[key].status.FailedNoMutation?
    ensures var w := Run(env, Init(capacity), labels);
      KeyReturned(w, key, None) && forall reference :: !KeyReturned(w, key, Some(reference))
  {
    Reachable(env, capacity, labels);
    var w := Run(env, Init(capacity), labels);
    assert RowOk(w, key);
    var i :| 0 <= i < |w.calls| && w.calls[i].key == key && w.calls[i].returned == None;
    OneAnswerPerKey(env, w, i);
  }

  // Orphaned claims

  // The claim is PENDING and no live worker of its key is past claiming: whoever claimed it is gone.
  ghost predicate Orphaned(w: World, key: string) {
    && RowPending(w, key)
    && forall id :: id in w.workers && w.workers[id].job.key == key ==> Early(w.workers[id])
  }

  function CallsOf(calls: seq<Call>, key: string): nat {
    if calls == [] then 0
    else CallsOf(calls[..|calls| - 1], key) + (if calls[|calls| - 1].key == key then 1 else 0)
  }

  lemma {:induction false} SameKeysSameCount(a: seq<Call>, b: seq<Call>, key: string)
    requires |a| == |b| && forall i :: 0 <= i < |a| ==> a[i].key == b[i].key
    ensures CallsOf(a, key) == CallsOf(b, key)
  {
    if a != [] {
      SameKeysSameCount(a[..|a| - 1], b[..|b| - 1], key);
    }
  }

  // A step of a worker of the orphaned key itself.
  lemma {:induction false} OrphanReclaim(w: World, id: nat, job: Job)
    requires Orphaned(w, job.key) && id in w.workers && w.workers[id] == Claiming(job)
    ensures Orphaned(DoClaim(w, id, job), job.key)
  {
    ReclaimEffect(w.store, job.key, job.payloadHash);
  }

  // The early steps but for the claim itself touch no row, and lead to an early step unless the row is UNCERTAIN.
  lemma {:induction false} EarlyMove(env: Env, w: World, id: nat, answer: ProviderAnswer)
    requires id in w.workers && Early(w.workers[id]) && !w.workers[id].Claiming? && RowPending(w, w.workers[id].job.key)
    ensures var w' := DoAdvance(env, w, id, answer);
      && w'.store.data == w.store.data && id in w'.workers && w'.workers == w.workers[id := w'.workers[id]]
      && w'.workers[id].job == w.workers[id].job && Early(w'.workers[id])
  {
  }

  lemma {:induction false} OrphanOwnStep(env: Env, w: World, id: nat, answer: ProviderAnswer, key: string)
    requires Orphaned(w, key) && id in w.workers && w.workers[id].job.key == key
    ensures Orphaned(DoAdvance(env, w, id, answer), key)
    ensures DoAdvance(env, w, id, answer).calls == w.calls
  {
    CallsStay(env, w, id, answer);
    if w.workers[id].Claiming? {
      OrphanReclaim(w, id, w.workers[id].job);
    } else {
      EarlyMove(env, w, id, answer);
    }
  }

  // Steps of other workers do not reach the row of the orphaned key, nor the counters of its workers.
  ghost predicate OnlyPlaced(w: World, w': World, id: nat, job: Job) {
    && id in w'.workers && w'.workers == w.workers[id := w'.workers[id]] && w'.workers[id].job == job
    && forall key :: key != job.key ==>
         (key in w'.store.data <==> key in w.store.data) && (key in w.store.data ==> w'.store.data[key] == w.store.data[key])
  }

  lemma {:induction false} ClaimSteps(w: World, id: nat, job: Job)
    requires id in w.workers && w.workers[id] == Claiming(job)
    ensures OnlyPlaced(w, DoClaim(w, id, job), id, job)
  {
  }

  lemma {:induction false} EarlySteps(env: Env, w: World, id: nat, answer: ProviderAnswer)
    requires id in w.workers && Early(w.workers[id]) && !w.workers[id].Claiming?
    ensures OnlyPlaced(w, DoAdvance(env, w, id, answer), id, w.workers[id].job)
  {
  }

  lemma {:induction false} FailureSteps(w: World, id: nat, job: Job)
    requires id in w.workers && w.workers[id].job == job
    ensures OnlyPlaced(w, DoWriteFailure(w, id, job), id, job)
  {
  }

  lemma {:induction false} SuccessSteps(w: World, id: nat, job: Job, reference: string)
    requires id in w.workers && w.workers[id].job == job
    ensures OnlyPlaced(w, DoWriteSuccess(w, id, job, reference), id, job)
  {
  }

  lemma {:induction false} ResultSteps(env: Env, w: World, id: nat, answer: ProviderAnswer)
    requires id in w.workers && (w.workers[id].WritingFailure? || w.workers[id].WritingSuccess?)
    ensures OnlyPlaced(w, DoAdvance(env, w, id, answer), id, w.workers[id].job)
  {
    match w.workers[id]
    case WritingFailure(job) => FailureSteps(w, id, job);
    case WritingSuccess(job, reference) => SuccessSteps(w, id, job, reference);
  }

  lemma {:induction false} ResolveSteps(env: Env, w: World, id: nat, answer: ProviderAnswer)
    requires id in w.workers && (w.workers[id].Downgrading? || w.workers[id].Resolving? || w.workers[id].RollingBack?)
    ensures OnlyPlaced(w, DoAdvance(env, w, id, answer), id, w.workers[id].job)
  {
  }

  lemma {:induction false} OtherKeyStep(env: Env, w: World, id: nat, answer: ProviderAnswer)
    requires id in w.workers
    ensures OnlyPlaced(w, DoAdvance(env, w, id, answer), id, w.workers[id].job)
  {
    var pc := w.workers[id];
    if pc.Claiming? {
      ClaimSteps(w, id, pc.job);
    } else if Early(pc) {
      EarlySteps(env, w, id, answer);
    } else if pc.WritingFailure? || pc.WritingSuccess? {
      ResultSteps(env, w, id, answer);
    } else if pc.Downgrading? || pc.Resolving? || pc.RollingBack? {
      ResolveSteps(env, w, id, answer);
    } else {
      assert DoAdvance(env, w, id, answer).store == w.store;
    }
  }

  lemma {:induction false} OtherKeyCalls(env: Env, w: World, id: nat, answer: ProviderAnswer, key: string)
    requires id in w.workers && w.workers[id].job.key != key
    ensures CallsOf(DoAdvance(env, w, id, answer).calls, key) == CallsOf(w.calls, key)
  {
    var w' := DoAdvance(env, w, id, answer);
    if w.workers[id].Invoking? {
      assert w'.calls[..|w.calls|] == w.calls;
    } else {
      SameKeysSameCount(w.calls, w'.calls, key);
    }
  }

  lemma {:induction false} OrphanAdvance(env: Env, w: World, id: nat, answer: ProviderAnswer, key: string)
    requires Orphaned(w, key) && id in w.workers
    ensures Orphaned(DoAdvance(env, w, id, answer), key)
    ensures CallsOf(DoAdvance(env, w, id, answer).calls, key) == CallsOf(w.calls, key)
  {
    if w.workers[id].job.key == key {
      OrphanOwnStep(env, w, id, answer, key);
    } else {
      OtherKeyStep(env, w, id, answer);
      OtherKeyCalls(env, w, id, answer, key);
    }
  }

  // A claim orphaned by a crash stays PENDING for good, and the provider is never called for it (again):
  // neither a retry nor a recovery can move it.
  lemma {:induction false} OrphanedForever(env: Env, w: World, labels: seq<Label>, key: string)
    requires Orphaned(w, key)
    ensures Orphaned(Run(env, w, labels), key)
    ensures CallsOf(Run(env, w, labels).calls, key) == CallsOf(w.calls, key)
  {
    if labels != [] {
      var before := Run(env, w, labels[..|labels| - 1]);
      OrphanedForever(env, w, labels[..|labels| - 1], key);
      var l := labels[|labels| - 1];
      if l.Advance? && l.worker in before.workers {
        OrphanAdvance(env, before, l.worker, l.answer, key);
      }
    }
  }
}
