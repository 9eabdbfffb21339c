/**
  Store and audit of the mutation protocol (src/mutations/executor.py:131-163, :199-211): when a row that says
  how a mutation ended has the audit record of the worker that wrote it, over every interleaving.
 */
module MutationAudit {
  import opened Wrappers
  import opened Leases
  import opened Audit
  import opened MutationProtocol
  import opened MutationSafety
  import S = MutationStore

  // History: which worker appended which audit event at which place, and who wrote the present RESOLVED status of a row.
  datatype Entry = Entry(worker: nat, point: Point, index: nat)

  datatype History = History(entries: seq<Entry>, writers: map<string, set<nat>>)

  // The events that report how the mutation ended: post_mutation, and RECOVERY.
  predicate Closes(point: Point) {
    point.PostMutation? || point.Recovered?
  }

  predicate Decided(w: World, key: string) {
    key in w.store.data && (w.store.data[key].status.ResolvedPresent? || w.store.data[key].status.ResolvedAbsent?)
  }

  function Writers(h: History, key: string): set<nat> {
    if key in h.writers then h.writers[key] else {}
  }

  predicate Appends(w: World, id: nat) {
    id in w.workers && w.workers[id].Appending? && w.workers[id].record.Some? && !w.failNextAppend
    && Continues(w.chain, w.workers[id].record.value)
  }

  // A worker about to write the row: the write is done exactly if it goes on to an audit event.
  predicate Writing(pc: PC) {
    pc.WritingSuccess? || pc.Downgrading? || pc.Resolving?
  }

  function WritersAfter(w': World, id: nat, key: string, before: set<nat>): set<nat>
    requires id in w'.workers
  {
    if !Decided(w', key) then {} else if w'.workers[id].Building? then before + {id} else before
  }

  function NoteAdvance(env: Env, w: World, h: History, id: nat, answer: ProviderAnswer): History
    requires id in w.workers
  {
    var pc, w' := w.workers[id], DoAdvance(env, w, id, answer);
    if Appends(w, id) then h.(entries := h.entries + [Entry(id, pc.point, |w.chain.records|)])
    else if Writing(pc) && id in w'.workers then
      h.(writers := h.writers[pc.job.key := WritersAfter(w', id, pc.job.key, Writers(h, pc.job.key))])
    else h
  }

  function Note(env: Env, w: World, h: History, l: Label): History {
    match l
    case Advance(id, answer) => if id in w.workers then NoteAdvance(env, w, h, id, answer) else h
    case _ => h
  }

  function Follow(env: Env, w: World, labels: seq<Label>): History {
    if labels == [] then History([], map[])
    else
      var front := labels[..|labels| - 1];
      Note(env, Run(env, w, front), Follow(env, w, front), labels[|labels| - 1])
  }

  // Invariant

  // The worker has written the row and not yet reported it.
  predicate UnderWay(pc: PC) {
    pc.Downgrading? || ((pc.Building? || pc.Appending?) && Closes(pc.point))
  }

  predicate Told(pc: PC) {
    pc.Finished? && pc.result.Returned?
  }

  // The ways to end after the write without a report.
  predicate GaveUp(pc: PC) {
    && pc.Finished? && pc.result.Raised?
    && match pc.result.error
       case Killed => true
       case AuditOutOfOrder => true
       case AuditFailed => pc.job.kind.Recover?
       case Store(answer) => answer.StorageFull? && pc.job.kind.Execute?
       case _ => false
  }

  ghost predicate Recorded(h: History, id: nat) {
    exists i :: 0 <= i < |h.entries| && h.entries[i].worker == id && Closes(h.entries[i].point)
  }

  ghost predicate WriterOk(w: World, h: History, id: nat, key: string) {
    && id in w.workers && w.workers[id].job.key == key
    && (UnderWay(w.workers[id]) || (Told(w.workers[id]) && Recorded(h, id)) || GaveUp(w.workers[id]))
  }

  predicate PointKind(job: Job, point: Point) {
    if point.Recovered? then job.kind.Recover? else job.kind.Execute?
  }

  // Program counters belong to execute or to recover.
  predicate KindOk(pc: PC) {
    match pc
    case Begin(_) => true
    case Finished(_, _) => true
    case Building(job, point) => PointKind(job, point)
    case Appending(job, point, _) => PointKind(job, point)
    case Authorizing(job) => job.kind.Recover?
    case Reading(job) => job.kind.Recover?
    case Resolving(job, _) => job.kind.Recover?
    case _ => pc.job.kind.Execute?
  }

  predicate Written(w: World, key: string) {
    key in w.store.data && !w.store.data[key].status.Pending?
  }

  predicate PointSync(w: World, h: History, id: nat, key: string, point: Point) {
    match point
    case PreMutation => true
    case PostMutation(_, _) => Decided(w, key) && Writers(h, key) == {id}
    case Recovered(_) => Decided(w, key) && id in Writers(h, key)
    case _ => Written(w, key)
  }

  ghost predicate AllRecover(w: World, h: History, key: string) {
    forall a :: a in Writers(h, key) ==> a in w.workers && w.workers[a].job.kind.Recover?
  }

  // What a worker of the key may rely on.
  ghost predicate PcSync(w: World, h: History, id: nat, key: string, pc: PC) {
    && KindOk(pc)
    && match pc
       case Building(_, point) => PointSync(w, h, id, key, point)
       case Appending(_, point, _) => PointSync(w, h, id, key, point)
       case WritingSuccess(_, _) => RowPending(w, key)
       case Downgrading(_, _) => Decided(w, key) && Writers(h, key) == {id}
       case Resolving(_, _) => Written(w, key) && AllRecover(w, h, key)
       case _ => true
  }

  ghost predicate KeyOk(w: World, h: History, key: string) {
    && (Decided(w, key) <==> Writers(h, key) != {})
    && (forall id :: id in Writers(h, key) ==> WriterOk(w, h, id, key))
    && (AllRecover(w, h, key) || forall a, b :: a in Writers(h, key) && b in Writers(h, key) ==> a == b)
    && (forall id :: id in w.workers && w.workers[id].job.key == key ==> PcSync(w, h, id, key, w.workers[id]))
  }

  // Every entry is in the chain; a report is that of a writer that has returned.
  predicate EntryOk(w: World, h: History, e: Entry) {
    && e.worker in w.workers && e.index < |w.chain.records|
    && EventOf(w.chain.records[e.index], w.workers[e.worker].job, e.point)
    && (Closes(e.point) ==> Told(w.workers[e.worker]) && e.worker in Writers(h, w.workers[e.worker].job.key))
  }

  ghost predicate EntriesOk(w: World, h: History) {
    && (forall i :: 0 <= i < |h.entries| ==> EntryOk(w, h, h.entries[i]))
    && (forall i, j :: 0 <= i < j < |h.entries| ==> h.entries[i].index < h.entries[j].index)
  }

  ghost predicate Sync(w: World, h: History) {
    (forall key :: KeyOk(w, h, key)) && EntriesOk(w, h)
  }

  // Frames

  // A step of worker `id` for `key`: the other workers, the other rows and their writers stay.
  ghost predicate LocalStep(w: World, w': World, h: History, h': History, id: nat, key: string) {
    && id in w.workers && w.workers[id].job.key == key
    && id in w'.workers && w'.workers == w.workers[id := w'.workers[id]] && w'.workers[id].job == w.workers[id].job
    && (forall k :: k != key ==>
          && Writers(h', k) == Writers(h, k)
          && (k in w'.store.data <==> k in w.store.data) && (k in w.store.data ==> w'.store.data[k] == w.store.data[k]))
    && h.entries <= h'.entries && w.chain.records <= w'.chain.records
  }

  lemma {:induction false} StaysRecorded(h: History, h': History, id: nat)
    requires Recorded(h, id) && h.entries <= h'.entries
    ensures Recorded(h', id)
  {
    var i :| 0 <= i < |h.entries| && h.entries[i].worker == id && Closes(h.entries[i].point);
    assert h'.entries[i] == h.entries[i];
  }

  lemma {:induction false} WriterStays(w: World, w': World, h: History, h': History, id: nat, key: string, a: nat, k: string)
    requires LocalStep(w, w', h, h', id, key) && WriterOk(w, h, a, k) && a != id
    ensures WriterOk(w', h', a, k)
  {
    if Recorded(h, a) { StaysRecorded(h, h', a); }
  }

  lemma {:induction false} PcElsewhere(w: World, w': World, h: History, h': History, id: nat, key: string, k: string, b: nat)
    requires LocalStep(w, w', h, h', id, key) && k != key && KeyOk(w, h, k) && b in w'.workers && w'.workers[b].job.key == k
    ensures PcSync(w', h', b, k, w'.workers[b])
  {
    assert PcSync(w, h, b, k, w.workers[b]);
  }

  lemma {:induction false} RecoverElsewhere(w: World, w': World, h: History, h': History, id: nat, key: string, k: string)
    requires LocalStep(w, w', h, h', id, key) && k != key && AllRecover(w, h, k) && forall a :: a in Writers(h, k) ==> WriterOk(w, h, a, k)
    ensures AllRecover(w', h', k)
  {
  }

  lemma {:induction false} KeyElsewhere(w: World, w': World, h: History, h': History, id: nat, key: string, k: string)
    requires LocalStep(w, w', h, h', id, key) && k != key && KeyOk(w, h, k)
    ensures KeyOk(w', h', k)
  {
    forall a | a in Writers(h', k) ensures WriterOk(w', h', a, k) {
      assert WriterOk(w, h, a, k);
      WriterStays(w, w', h, h', id, key, a, k);
    }
    if AllRecover(w, h, k) { RecoverElsewhere(w, w', h, h', id, key, k); }
    forall b | b in w'.workers && w'.workers[b].job.key == k ensures PcSync(w', h', b, k, w'.workers[b]) {
      PcElsewhere(w, w', h, h', id, key, k, b);
    }
  }

  // The row of the key keeps its kind of status, and the same workers wrote it.
  ghost predicate SameRow(w: World, w': World, h: History, h': History, key: string) {
    && (key in w'.store.data <==> key in w.store.data)
    && (key in w.store.data ==> w'.store.data[key].status == w.store.data[key].status)
    && Writers(h', key) == Writers(h, key)
  }

  lemma {:induction false} KeyQuiet(w: World, w': World, h: History, h': History, id: nat, key: string)
    requires LocalStep(w, w', h, h', id, key) && SameRow(w, w', h, h', key) && KeyOk(w, h, key)
    requires PcSync(w', h', id, key, w'.workers[id])
    requires id in Writers(h, key) ==> WriterOk(w', h', id, key)
    ensures KeyOk(w', h', key)
  {
    forall a | a in Writers(h', key) ensures WriterOk(w', h', a, key) {
      assert WriterOk(w, h, a, key);
      if a != id { WriterStays(w, w', h, h', id, key, a, key); }
    }
    assert AllRecover(w, h, key) ==> AllRecover(w', h', key);
    forall b | b in w'.workers && w'.workers[b].job.key == key ensures PcSync(w', h', b, key, w'.workers[b]) {
      if b != id { assert PcSync(w, h, b, key, w.workers[b]); }
    }
  }

  // Steps of one worker

  lemma {:induction false} LocalAdvance(env: Env, w: World, h: History, id: nat, answer: ProviderAnswer)
    requires id in w.workers
    ensures LocalStep(w, DoAdvance(env, w, id, answer), h, NoteAdvance(env, w, h, id, answer), id, w.workers[id].job.key)
  {
    OtherKeyStep(env, w, id, answer);
    ChainGrows(env, w, id, answer);
  }

  // Steps that move the worker from one counter to another that relies on nothing, and keep the kind of the row.
  lemma {:induction false} PlainMove(w: World, w': World, h: History, id: nat, pc: PC)
    requires id in w.workers && !UnderWay(w.workers[id]) && !w.workers[id].Finished? && KeyOk(w, h, w.workers[id].job.key)
    requires LocalStep(w, w', h, h, id, w.workers[id].job.key) && SameRow(w, w', h, h, w.workers[id].job.key)
    requires w'.workers[id] == pc && PcSync(w', h, id, pc.job.key, pc)
    ensures KeyOk(w', h, pc.job.key)
  {
    assert id in Writers(h, pc.job.key) ==> WriterOk(w, h, id, pc.job.key);
    KeyQuiet(w, w', h, h, id, pc.job.key);
  }

  lemma {:induction false} BeginEffect(w: World, id: nat, job: Job)
    ensures var w' := DoBegin(w, id, job);
      && w' == Place(w, id, w'.workers[id])
      && w'.workers[id].job == job && KindOk(w'.workers[id])
      && (w'.workers[id].Finished? || w'.workers[id].Registering? || w'.workers[id].Authorizing?)
  {
  }

  lemma {:induction false} BeginSync(env: Env, w: World, h: History, id: nat, answer: ProviderAnswer, job: Job)
    requires id in w.workers && w.workers[id] == Begin(job) && KeyOk(w, h, job.key)
    ensures KeyOk(DoAdvance(env, w, id, answer), h, job.key) && NoteAdvance(env, w, h, id, answer) == h
  {
    LocalAdvance(env, w, h, id, answer);
    BeginEffect(w, id, job);
    PlainMove(w, DoBegin(w, id, job), h, id, DoBegin(w, id, job).workers[id]);
  }

  lemma {:induction false} RegisterSync(env: Env, w: World, h: History, id: nat, answer: ProviderAnswer, job: Job)
    requires id in w.workers && w.workers[id] == Registering(job) && KeyOk(w, h, job.key)
    ensures KeyOk(DoAdvance(env, w, id, answer), h, job.key) && NoteAdvance(env, w, h, id, answer) == h
  {
    LocalAdvance(env, w, h, id, answer);
    assert PcSync(w, h, id, job.key, w.workers[id]);
    PlainMove(w, DoAdvance(env, w, id, answer), h, id, Claiming(job));
  }

  lemma {:induction false} AuthorizeSync(env: Env, w: World, h: History, id: nat, answer: ProviderAnswer, job: Job)
    requires id in w.workers && w.workers[id] == Authorizing(job) && KeyOk(w, h, job.key)
    ensures KeyOk(DoAdvance(env, w, id, answer), h, job.key) && NoteAdvance(env, w, h, id, answer) == h
  {
    LocalAdvance(env, w, h, id, answer);
    assert PcSync(w, h, id, job.key, w.workers[id]);
    PlainMove(w, DoAdvance(env, w, id, answer), h, id, DoAuthorize(w, id, job).workers[id]);
  }

  lemma {:induction false} ReadSync(env: Env, w: World, h: History, id: nat, answer: ProviderAnswer, job: Job)
    requires id in w.workers && w.workers[id] == Reading(job) && KeyOk(w, h, job.key)
    ensures KeyOk(DoAdvance(env, w, id, answer), h, job.key) && NoteAdvance(env, w, h, id, answer) == h
  {
    LocalAdvance(env, w, h, id, answer);
    assert PcSync(w, h, id, job.key, w.workers[id]);
    PlainMove(w, DoAdvance(env, w, id, answer), h, id, DoRead(w, id, job).workers[id]);
  }

  lemma {:induction false} ReclaimSync(env: Env, w: World, h: History, id: nat, answer: ProviderAnswer, job: Job)
    requires id in w.workers && w.workers[id] == Claiming(job) && job.key in w.store.data && KeyOk(w, h, job.key)
    ensures KeyOk(DoAdvance(env, w, id, answer), h, job.key) && NoteAdvance(env, w, h, id, answer) == h
  {
    var w' := DoAdvance(env, w, id, answer);
    LocalAdvance(env, w, h, id, answer);
    ReclaimEffect(w.store, job.key, job.payloadHash);
    assert w'.workers[id].Finished?;
    PlainMove(w, w', h, id, w'.workers[id]);
  }

  // What a worker may rely on while the key has no row, it may still rely on with a PENDING one.
  lemma {:induction false} UnknownKeySync(w: World, w': World, h: History, b: nat, key: string, pc: PC)
    requires PcSync(w, h, b, key, pc) && key !in w.store.data
    ensures PcSync(w', h, b, key, pc)
  {
  }

  lemma {:induction false} NewClaimSync(env: Env, w: World, h: History, id: nat, answer: ProviderAnswer, job: Job)
    requires id in w.workers && w.workers[id] == Claiming(job) && job.key !in w.store.data && KeyOk(w, h, job.key)
    ensures KeyOk(DoAdvance(env, w, id, answer), h, job.key) && NoteAdvance(env, w, h, id, answer) == h
  {
    var w' := DoClaim(w, id, job);
    LocalAdvance(env, w, h, id, answer);
    NewClaimEffect(w, id, job);
    assert PcSync(w, h, id, job.key, w.workers[id]);
    assert !Decided(w', job.key) && Writers(h, job.key) == {};
    forall b | b in w'.workers && w'.workers[b].job.key == job.key ensures PcSync(w', h, b, job.key, w'.workers[b]) {
      if b != id {
        assert PcSync(w, h, b, job.key, w.workers[b]);
        UnknownKeySync(w, w', h, b, job.key, w.workers[b]);
      }
    }
  }

  lemma {:induction false} BuildSync(env: Env, w: World, h: History, id: nat, answer: ProviderAnswer)
    requires id in w.workers && w.workers[id].Building? && KeyOk(w, h, w.workers[id].job.key)
    ensures KeyOk(DoAdvance(env, w, id, answer), NoteAdvance(env, w, h, id, answer), w.workers[id].job.key)
  {
    var key := w.workers[id].job.key;
    LocalAdvance(env, w, h, id, answer);
    assert PcSync(w, h, id, key, w.workers[id]);
    KeyQuiet(w, DoAdvance(env, w, id, answer), h, NoteAdvance(env, w, h, id, answer), id, key);
  }

  lemma {:induction false} AppendedSync(env: Env, w: World, h: History, id: nat, answer: ProviderAnswer)
    requires Appends(w, id) && KeyOk(w, h, w.workers[id].job.key)
    ensures KeyOk(DoAdvance(env, w, id, answer), NoteAdvance(env, w, h, id, answer), w.workers[id].job.key)
  {
    var key, w', h' := w.workers[id].job.key, DoAdvance(env, w, id, answer), NoteAdvance(env, w, h, id, answer);
    LocalAdvance(env, w, h, id, answer);
    assert PcSync(w, h, id, key, w.workers[id]);
    assert h'.entries[|h.entries|] == Entry(id, w.workers[id].point, |w.chain.records|);
    KeyQuiet(w, w', h, h', id, key);
  }

  // An event that is not appended: the worker goes on to undo, or gives up.
  lemma {:induction false} RefusedSync(w: World, w': World, h: History, id: nat, job: Job, point: Point, pc: PC)
    requires id in w.workers && w.workers[id].Appending? && w.workers[id].job == job && w.workers[id].point == point && KeyOk(w, h, job.key)
    requires LocalStep(w, w', h, h, id, job.key) && w'.store == w.store && w'.workers[id] == pc
    requires pc == AfterAppendFailure(job, point) || pc == Finished(job, Raised(AuditOutOfOrder))
    ensures KeyOk(w', h, job.key)
  {
    assert PcSync(w, h, id, job.key, w.workers[id]);
    KeyQuiet(w, w', h, h, id, job.key);
  }

  lemma {:induction false} AppendSync(env: Env, w: World, h: History, id: nat, answer: ProviderAnswer)
    requires id in w.workers && w.workers[id].Appending? && KeyOk(w, h, w.workers[id].job.key)
    ensures KeyOk(DoAdvance(env, w, id, answer), NoteAdvance(env, w, h, id, answer), w.workers[id].job.key)
  {
    if Appends(w, id) {
      AppendedSync(env, w, h, id, answer);
    } else {
      var pc, w' := w.workers[id], DoAdvance(env, w, id, answer);
      LocalAdvance(env, w, h, id, answer);
      RefusedSync(w, w', h, id, pc.job, pc.point, w'.workers[id]);
    }
  }

  // Only the caller of a key can be about to write its success.
  lemma {:induction false} OneCaller(env: Env, w: World, id: nat, b: nat, key: string, returned: Option<string>)
    requires Inv(env, w) && HasCall(w, id, key, returned) && b in w.workers && b != id && w.workers[b].job.key == key
    ensures !w.workers[b].WritingSuccess?
  {
    assert PcOk(w, b, w.workers[b]);
  }

  lemma {:induction false} RollbackSync(env: Env, w: World, h: History, id: nat, answer: ProviderAnswer)
    requires Inv(env, w) && id in w.workers && w.workers[id].RollingBack? && KeyOk(w, h, w.workers[id].job.key)
    ensures KeyOk(DoAdvance(env, w, id, answer), NoteAdvance(env, w, h, id, answer), w.workers[id].job.key)
  {
    var key, w', h' := w.workers[id].job.key, DoAdvance(env, w, id, answer), NoteAdvance(env, w, h, id, answer);
    LocalAdvance(env, w, h, id, answer);
    assert PcOk(w, id, w.workers[id]);
    forall b | b in w'.workers && w'.workers[b].job.key == key ensures PcSync(w', h', b, key, w'.workers[b]) {
      if b != id {
        assert PcSync(w, h, b, key, w.workers[b]) && PcOk(w, b, w.workers[b]);
      }
    }
  }

  lemma {:induction false} CallSync(env: Env, w: World, h: History, id: nat, answer: ProviderAnswer)
    requires Inv(env, w) && id in w.workers && (w.workers[id].Invoking? || w.workers[id].Awaiting?) && KeyOk(w, h, w.workers[id].job.key)
    ensures KeyOk(DoAdvance(env, w, id, answer), NoteAdvance(env, w, h, id, answer), w.workers[id].job.key)
  {
    var key := w.workers[id].job.key;
    LocalAdvance(env, w, h, id, answer);
    assert PcSync(w, h, id, key, w.workers[id]) && PcOk(w, id, w.workers[id]);
    KeyQuiet(w, DoAdvance(env, w, id, answer), h, NoteAdvance(env, w, h, id, answer), id, key);
  }

  // The row is written: what the other workers of the key rely on.
  ghost predicate OthersSync(w: World, h: History, id: nat, key: string) {
    forall b :: b in w.workers && b != id && w.workers[b].job.key == key ==> PcSync(w, h, b, key, w.workers[b])
  }

  lemma {:induction false} AllSync(w: World, h: History, id: nat, key: string)
    requires OthersSync(w, h, id, key) && id in w.workers && w.workers[id].job.key == key && PcSync(w, h, id, key, w.workers[id])
    ensures forall b :: b in w.workers && w.workers[b].job.key == key ==> PcSync(w, h, b, key, w.workers[b])
  {
  }

  // The caller's write of a PENDING row: no other worker relies on it.
  lemma {:induction false} CallerOthers(env: Env, w: World, w': World, h: History, h': History, id: nat, key: string, returned: Option<string>)
    requires Inv(env, w) && LocalStep(w, w', h, h', id, key) && HasCall(w, id, key, returned) && RowPending(w, key) && KeyOk(w, h, key)
    ensures OthersSync(w', h', id, key)
  {
    forall b | b in w'.workers && b != id && w'.workers[b].job.key == key ensures PcSync(w', h', b, key, w'.workers[b]) {
      OneCaller(env, w, id, b, key, returned);
      assert PcSync(w, h, b, key, w.workers[b]);
    }
  }

  // The write of a failure: done, with no writer of a RESOLVED row, or refused with the rows as they were.
  lemma {:induction false} FailureEffect(w: World, id: nat, job: Job)
    requires RowPending(w, job.key)
    ensures var w' := DoWriteFailure(w, id, job); var pc := w'.workers[id];
      || (pc == Finished(job, Raised(Store(S.StorageFull))) && w'.store.data == w.store.data)
      || (pc == Building(job, AfterProviderFailure) && job.key in w'.store.data && w'.store.data[job.key].status.FailedNoMutation?)
  {
  }

  lemma {:induction false} FailureSync(env: Env, w: World, h: History, id: nat, answer: ProviderAnswer, job: Job)
    requires Inv(env, w) && id in w.workers && w.workers[id] == WritingFailure(job) && KeyOk(w, h, job.key)
    ensures KeyOk(DoAdvance(env, w, id, answer), h, job.key) && NoteAdvance(env, w, h, id, answer) == h
  {
    var w' := DoWriteFailure(w, id, job);
    LocalAdvance(env, w, h, id, answer);
    assert PcOk(w, id, w.workers[id]) && PcSync(w, h, id, job.key, w.workers[id]);
    FailureEffect(w, id, job);
    if w'.workers[id].Finished? {
      PlainMove(w, w', h, id, w'.workers[id]);
    } else {
      CallerOthers(env, w, w', h, h, id, job.key, None);
      AllSync(w', h, id, job.key);
    }
  }

  // The three ends of the success write.
  lemma {:induction false} SuccessEffect(env: Env, w: World, h: History, id: nat, answer: ProviderAnswer, job: Job, reference: string)
    requires id in w.workers && w.workers[id] == WritingSuccess(job, reference) && RowPending(w, job.key) && Writers(h, job.key) == {}
    ensures var w', h' := DoAdvance(env, w, id, answer), NoteAdvance(env, w, h, id, answer); var pc := w'.workers[id];
      || (pc.Finished? && w'.store.data == w.store.data && Writers(h', job.key) == {})
      || (pc.Building? && pc.point.PostMutation? && Decided(w', job.key) && Writers(h', job.key) == {id})
      || (pc.Building? && pc.point.AfterLocalWriteFailure? && Written(w', job.key) && !Decided(w', job.key) && Writers(h', job.key) == {})
  {
  }

  lemma {:induction false} SuccessSync(env: Env, w: World, h: History, id: nat, answer: ProviderAnswer, job: Job, reference: string)
    requires Inv(env, w) && id in w.workers && w.workers[id] == WritingSuccess(job, reference) && KeyOk(w, h, job.key)
    ensures KeyOk(DoAdvance(env, w, id, answer), NoteAdvance(env, w, h, id, answer), job.key)
  {
    var w', h' := DoAdvance(env, w, id, answer), NoteAdvance(env, w, h, id, answer);
    LocalAdvance(env, w, h, id, answer);
    assert PcOk(w, id, w.workers[id]) && PcSync(w, h, id, job.key, w.workers[id]);
    SuccessEffect(env, w, h, id, answer, job, reference);
    CallerOthers(env, w, w', h, h', id, job.key, Some(reference));
    SuccessEnds(w', h', id, job);
  }

  lemma {:induction false} SuccessEnds(w: World, h: History, id: nat, job: Job)
    requires id in w.workers && w.workers[id].job == job && job.kind.Execute? && OthersSync(w, h, id, job.key)
    requires var pc := w.workers[id];
      || (pc.Finished? && !Decided(w, job.key) && Writers(h, job.key) == {})
      || (pc.Building? && pc.point.PostMutation? && Decided(w, job.key) && Writers(h, job.key) == {id})
      || (pc.Building? && pc.point.AfterLocalWriteFailure? && Written(w, job.key) && !Decided(w, job.key) && Writers(h, job.key) == {})
    ensures KeyOk(w, h, job.key)
  {
    AllSync(w, h, id, job.key);
  }

  lemma {:induction false} DowngradeSync(env: Env, w: World, h: History, id: nat, answer: ProviderAnswer, job: Job, reference: string)
    requires id in w.workers && w.workers[id] == Downgrading(job, reference) && KeyOk(w, h, job.key)
    ensures KeyOk(DoAdvance(env, w, id, answer), NoteAdvance(env, w, h, id, answer), job.key)
  {
    var key, w', h' := job.key, DoAdvance(env, w, id, answer), NoteAdvance(env, w, h, id, answer);
    LocalAdvance(env, w, h, id, answer);
    assert PcSync(w, h, id, key, w.workers[id]);
    if w'.workers[id].Finished? {
      KeyQuiet(w, w', h, h', id, key);
    } else {
      forall b | b in w'.workers && w'.workers[b].job.key == key ensures PcSync(w', h', b, key, w'.workers[b]) {
        if b != id { assert PcSync(w, h, b, key, w.workers[b]); }
      }
    }
  }

  // The two ends of a resolution.
  lemma {:induction false} ResolveEffect(env: Env, w: World, h: History, id: nat, answer: ProviderAnswer, job: Job, found: Option<string>)
    requires id in w.workers && w.workers[id] == Resolving(job, found) && Written(w, job.key) && (Decided(w, job.key) <==> Writers(h, job.key) != {})
    ensures var w', h' := DoAdvance(env, w, id, answer), NoteAdvance(env, w, h, id, answer); var pc := w'.workers[id];
      || (pc == Finished(job, Raised(Store(S.StorageFull))) && w'.store.data == w.store.data && Writers(h', job.key) == Writers(h, job.key))
      || (pc.Building? && pc.point.Recovered? && Decided(w', job.key) && Writers(h', job.key) == Writers(h, job.key) + {id})
  {
  }

  lemma {:induction false} ResolveOthers(w: World, w': World, h: History, h': History, id: nat, key: string)
    requires LocalStep(w, w', h, h', id, key) && KeyOk(w, h, key) && w.workers[id].Resolving?
    requires Decided(w', key) && Writers(h', key) == Writers(h, key) + {id}
    ensures OthersSync(w', h', id, key) && AllRecover(w', h', key)
  {
    assert PcSync(w, h, id, key, w.workers[id]);
    forall a | a in Writers(h', key) ensures a in w'.workers && w'.workers[a].job.kind.Recover? {
      assert a == id || a in Writers(h, key);
    }
    forall b | b in w'.workers && b != id && w'.workers[b].job.key == key ensures PcSync(w', h', b, key, w'.workers[b]) {
      assert PcSync(w, h, b, key, w.workers[b]);
      assert b in Writers(h, key) ==> w.workers[b].job.kind.Recover?;
    }
  }

  lemma {:induction false} ResolveWriters(w: World, w': World, h: History, h': History, id: nat, key: string)
    requires LocalStep(w, w', h, h', id, key) && KeyOk(w, h, key) && Writers(h', key) == Writers(h, key) + {id} && UnderWay(w'.workers[id])
    ensures forall a :: a in Writers(h', key) ==> WriterOk(w', h', a, key)
  {
    forall a | a in Writers(h', key) ensures WriterOk(w', h', a, key) {
      if a != id {
        assert WriterOk(w, h, a, key);
        WriterStays(w, w', h, h', id, key, a, key);
      }
    }
  }

  lemma {:induction false} ResolveSync(env: Env, w: World, h: History, id: nat, answer: ProviderAnswer, job: Job, found: Option<string>)
    requires id in w.workers && w.workers[id] == Resolving(job, found) && KeyOk(w, h, job.key)
    ensures KeyOk(DoAdvance(env, w, id, answer), NoteAdvance(env, w, h, id, answer), job.key)
  {
    var key, w', h' := job.key, DoAdvance(env, w, id, answer), NoteAdvance(env, w, h, id, answer);
    LocalAdvance(env, w, h, id, answer);
    assert PcSync(w, h, id, key, w.workers[id]);
    ResolveEffect(env, w, h, id, answer, job, found);
    if w'.workers[id].Finished? {
      assert id in Writers(h, key) ==> WriterOk(w, h, id, key);
      KeyQuiet(w, w', h, h', id, key);
    } else {
      ResolveOthers(w, w', h, h', id, key);
      ResolveWriters(w, w', h, h', id, key);
      AllSync(w', h', id, key);
    }
  }

  lemma {:induction false} EarlySync(env: Env, w: World, h: History, id: nat, answer: ProviderAnswer)
    requires id in w.workers && Early(w.workers[id]) && KeyOk(w, h, w.workers[id].job.key)
    ensures KeyOk(DoAdvance(env, w, id, answer), NoteAdvance(env, w, h, id, answer), w.workers[id].job.key)
  {
    match w.workers[id]
    case Begin(job) => BeginSync(env, w, h, id, answer, job);
    case Registering(job) => RegisterSync(env, w, h, id, answer, job);
    case Claiming(job) =>
      if job.key in w.store.data { ReclaimSync(env, w, h, id, answer, job); } else { NewClaimSync(env, w, h, id, answer, job); }
    case Authorizing(job) => AuthorizeSync(env, w, h, id, answer, job);
    case Reading(job) => ReadSync(env, w, h, id, answer, job);
    case Finished(_, _) =>
  }

  lemma {:induction false} OwnKeySync(env: Env, w: World, h: History, id: nat, answer: ProviderAnswer)
    requires Inv(env, w) && id in w.workers && KeyOk(w, h, w.workers[id].job.key)
    ensures KeyOk(DoAdvance(env, w, id, answer), NoteAdvance(env, w, h, id, answer), w.workers[id].job.key)
  {
    match w.workers[id]
    case Building(_, _) => BuildSync(env, w, h, id, answer);
    case Appending(_, _, _) => AppendSync(env, w, h, id, answer);
    case RollingBack(_) => RollbackSync(env, w, h, id, answer);
    case Invoking(_, _) => CallSync(env, w, h, id, answer);
    case Awaiting(_) => CallSync(env, w, h, id, answer);
    case WritingFailure(job) => FailureSync(env, w, h, id, answer, job);
    case WritingSuccess(job, reference) => SuccessSync(env, w, h, id, answer, job, reference);
    case Downgrading(job, reference) => DowngradeSync(env, w, h, id, answer, job, reference);
    case Resolving(job, found) => ResolveSync(env, w, h, id, answer, job, found);
    case _ => EarlySync(env, w, h, id, answer);
  }

  // A writer that has reported stays among the writers of its row.
  lemma {:induction false} NotesNoWriter(env: Env, w: World, h: History, id: nat, answer: ProviderAnswer)
    requires id in w.workers && !Writing(w.workers[id])
    ensures NoteAdvance(env, w, h, id, answer).writers == h.writers
  {
  }

  lemma {:induction false} ReporterStays(env: Env, w: World, h: History, id: nat, answer: ProviderAnswer, a: nat, key: string)
    requires id in w.workers && KeyOk(w, h, key) && a in Writers(h, key) && Told(w.workers[a]) && w.workers[id].job.key == key
    ensures a in Writers(NoteAdvance(env, w, h, id, answer), key)
  {
    assert PcSync(w, h, id, key, w.workers[id]) && WriterOk(w, h, a, key);
    match w.workers[id]
    case WritingSuccess(_, _) => assert false;
    case Downgrading(_, _) => assert false;
    case Resolving(job, found) => ResolveEffect(env, w, h, id, answer, job, found);
    case _ => NotesNoWriter(env, w, h, id, answer);
  }

  lemma {:induction false} OldEntry(env: Env, w: World, h: History, id: nat, answer: ProviderAnswer, e: Entry)
    requires Sync(w, h) && id in w.workers && EntryOk(w, h, e)
    ensures EntryOk(DoAdvance(env, w, id, answer), NoteAdvance(env, w, h, id, answer), e)
  {
    var key := w.workers[e.worker].job.key;
    LocalAdvance(env, w, h, id, answer);
    if Closes(e.point) && w.workers[id].job.key == key {
      assert KeyOk(w, h, key);
      ReporterStays(env, w, h, id, answer, e.worker, key);
    }
  }

  lemma {:induction false} NewEntry(env: Env, w: World, h: History, id: nat, answer: ProviderAnswer)
    requires Inv(env, w) && Appends(w, id) && KeyOk(w, h, w.workers[id].job.key)
    ensures EntryOk(DoAdvance(env, w, id, answer), NoteAdvance(env, w, h, id, answer), Entry(id, w.workers[id].point, |w.chain.records|))
  {
    assert PcOk(w, id, w.workers[id]) && PcSync(w, h, id, w.workers[id].job.key, w.workers[id]);
  }

  lemma {:induction false} EntriesSync(env: Env, w: World, h: History, id: nat, answer: ProviderAnswer)
    requires Inv(env, w) && Sync(w, h) && id in w.workers
    ensures EntriesOk(DoAdvance(env, w, id, answer), NoteAdvance(env, w, h, id, answer))
  {
    var w', h' := DoAdvance(env, w, id, answer), NoteAdvance(env, w, h, id, answer);
    forall i | 0 <= i < |h'.entries| ensures EntryOk(w', h', h'.entries[i]) {
      if i < |h.entries| {
        OldEntry(env, w, h, id, answer, h.entries[i]);
      } else {
        assert KeyOk(w, h, w.workers[id].job.key);
        NewEntry(env, w, h, id, answer);
      }
    }
  }

  lemma {:induction false} AdvanceSync(env: Env, w: World, h: History, id: nat, answer: ProviderAnswer)
    requires Inv(env, w) && Sync(w, h) && id in w.workers
    ensures Sync(DoAdvance(env, w, id, answer), NoteAdvance(env, w, h, id, answer))
  {
    var w', h', own := DoAdvance(env, w, id, answer), NoteAdvance(env, w, h, id, answer), w.workers[id].job.key;
    LocalAdvance(env, w, h, id, answer);
    forall key ensures KeyOk(w', h', key) {
      assert KeyOk(w, h, key);
      if key == own { OwnKeySync(env, w, h, id, answer); } else { KeyElsewhere(w, w', h, h', id, own, key); }
    }
    EntriesSync(env, w, h, id, answer);
  }

  // Everything else that happens

  lemma {:induction false} KillSync(w: World, h: History, id: nat)
    requires Sync(w, h) && id in w.workers && !w.workers[id].Finished?
    ensures Sync(Raise(w, id, w.workers[id].job, Killed), h)
  {
    var w', own := Raise(w, id, w.workers[id].job, Killed), w.workers[id].job.key;
    forall key ensures KeyOk(w', h, key) {
      assert KeyOk(w, h, key);
      if key == own { KeyQuiet(w, w', h, h, id, own); } else { KeyElsewhere(w, w', h, h, id, own, key); }
    }
    forall i | 0 <= i < |h.entries| ensures EntryOk(w', h, h.entries[i]) { assert EntryOk(w, h, h.entries[i]); }
  }

  lemma {:induction false} StartSync(w: World, h: History, id: nat, job: Job)
    requires Sync(w, h) && id !in w.workers
    ensures Sync(Place(w, id, Begin(job)), h)
  {
    var w' := Place(w, id, Begin(job));
    forall key ensures KeyOk(w', h, key) {
      assert KeyOk(w, h, key);
      forall a | a in Writers(h, key) ensures WriterOk(w', h, a, key) { assert WriterOk(w, h, a, key); }
      assert AllRecover(w, h, key) ==> AllRecover(w', h, key);
      forall b | b in w'.workers && w'.workers[b].job.key == key ensures PcSync(w', h, b, key, w'.workers[b]) {
        if b != id { assert PcSync(w, h, b, key, w.workers[b]); }
      }
    }
    forall i | 0 <= i < |h.entries| ensures EntryOk(w', h, h.entries[i]) { assert EntryOk(w, h, h.entries[i]); }
  }

  lemma {:induction false} ElsewhereSync(w: World, w': World, h: History)
    requires Sync(w, h) && w'.workers == w.workers && w'.store.data == w.store.data && w.chain.records <= w'.chain.records
    ensures Sync(w', h)
  {
    forall key ensures KeyOk(w', h, key) {
      assert KeyOk(w, h, key);
      forall a | a in Writers(h, key) ensures WriterOk(w', h, a, key) { assert WriterOk(w, h, a, key); }
      assert AllRecover(w, h, key) ==> AllRecover(w', h, key);
      forall b | b in w'.workers && w'.workers[b].job.key == key ensures PcSync(w', h, b, key, w'.workers[b]) {
        assert PcSync(w, h, b, key, w.workers[b]);
      }
    }
    forall i | 0 <= i < |h.entries| ensures EntryOk(w', h, h.entries[i]) { assert EntryOk(w, h, h.entries[i]); }
  }

  lemma {:induction false} NoteSync(env: Env, w: World, h: History, l: Label)
    requires Inv(env, w) && Sync(w, h)
    ensures Sync(Do(env, w, l), Note(env, w, h, l))
  {
    match l
    case Start(id, job) => if id !in w.workers { StartSync(w, h, id, job); }
    case Advance(id, answer) => if id in w.workers { AdvanceSync(env, w, h, id, answer); }
    case Kill(id) => if id in w.workers && !w.workers[id].Finished? { KillSync(w, h, id); }
    case _ => ElsewhereSync(w, Do(env, w, l), h);
  }

  lemma {:induction false} FollowSync(env: Env, capacity: int, labels: seq<Label>)
    ensures Sync(Run(env, Init(capacity), labels), Follow(env, Init(capacity), labels))
  {
    if labels != [] {
      var front := labels[..|labels| - 1];
      FollowSync(env, capacity, front);
      Reachable(env, capacity, front);
      NoteSync(env, Run(env, Init(capacity), front), Follow(env, Init(capacity), front), labels[|labels| - 1]);
    }
  }

  // Main results

  // The worker's own report is in the chain, at a place of its own.
  ghost predicate ReportedAt(w: World, h: History, id: nat, i: nat) {
    && i < |h.entries| && h.entries[i].worker == id && Closes(h.entries[i].point)
    && id in w.workers && h.entries[i].index < |w.chain.records|
    && EventOf(w.chain.records[h.entries[i].index], w.workers[id].job, h.entries[i].point)
    && forall j :: 0 <= j < |h.entries| && j != i ==> h.entries[j].index != h.entries[i].index
  }

  ghost predicate Reported(w: World, h: History, id: nat) {
    exists i: nat :: ReportedAt(w, h, id, i)
  }

  lemma {:induction false} RecordedIsReported(w: World, h: History, id: nat)
    requires EntriesOk(w, h)
    ensures Reported(w, h, id) <==> Recorded(h, id)
  {
    if Recorded(h, id) {
      var i :| 0 <= i < |h.entries| && h.entries[i].worker == id && Closes(h.entries[i].point);
      assert EntryOk(w, h, h.entries[i]);
      assert ReportedAt(w, h, id, i);
    }
  }

  lemma {:induction false} WriterReports(w: World, h: History, id: nat, key: string)
    requires Sync(w, h) && id in Writers(h, key)
    ensures WriterOk(w, h, id, key) && (Reported(w, h, id) <==> Told(w.workers[id]))
  {
    assert KeyOk(w, h, key) && WriterOk(w, h, id, key);
    RecordedIsReported(w, h, id);
    if Recorded(h, id) {
      var i :| 0 <= i < |h.entries| && h.entries[i].worker == id && Closes(h.entries[i].point);
      assert EntryOk(w, h, h.entries[i]);
    }
  }

  // Over every interleaving, crash and failure: a row that is RESOLVED was written so by some workers of its key, and
  // such a worker has its own post_mutation or RECOVERY record in the chain exactly if it has returned; otherwise it
  // is still on the way there, or was killed, lost its place in the chain, failed to append its RECOVERY record, or
  // was refused the downgrade of an unreported success by a full store. A row that is not RESOLVED has no writer.
  lemma {:induction false} StoreMeetsAudit(env: Env, capacity: int, labels: seq<Label>, key: string)
    ensures var w, h := Run(env, Init(capacity), labels), Follow(env, Init(capacity), labels);
      && (Decided(w, key) <==> Writers(h, key) != {})
      && forall id :: id in Writers(h, key) ==>
           && id in w.workers && w.workers[id].job.key == key
           && (Reported(w, h, id) <==> Told(w.workers[id]))
           && (Told(w.workers[id]) || UnderWay(w.workers[id]) || GaveUp(w.workers[id]))
  {
    var w, h := Run(env, Init(capacity), labels), Follow(env, Init(capacity), labels);
    FollowSync(env, capacity, labels);
    assert KeyOk(w, h, key);
    forall id | id in Writers(h, key)
      ensures WriterOk(w, h, id, key) && (Reported(w, h, id) <==> Told(w.workers[id]))
    {
      WriterReports(w, h, id, key);
    }
  }

  // The other way round there is no exception: a report in the chain is that of a writer of a RESOLVED row.
  lemma {:induction false} ReportMeetsStore(env: Env, capacity: int, labels: seq<Label>, id: nat)
    requires Reported(Run(env, Init(capacity), labels), Follow(env, Init(capacity), labels), id)
    ensures var w, h := Run(env, Init(capacity), labels), Follow(env, Init(capacity), labels);
      id in w.workers && Decided(w, w.workers[id].job.key) && id in Writers(h, w.workers[id].job.key) && Told(w.workers[id])
  {
    var w, h := Run(env, Init(capacity), labels), Follow(env, Init(capacity), labels);
    FollowSync(env, capacity, labels);
    var i: nat :| ReportedAt(w, h, id, i);
    assert EntryOk(w, h, h.entries[i]) && KeyOk(w, h, w.workers[id].job.key);
  }

  // Runs in pieces

  lemma {:induction false} RunSplit(env: Env, w: World, a: seq<Label>, b: seq<Label>)
    ensures Run(env, w, a + b) == Run(env, Run(env, w, a), b)
  {
    if b == [] {
      assert a + b == a;
    } else {
      RunSplit(env, w, a, b[..|b| - 1]);
      assert (a + b)[..|a + b| - 1] == a + b[..|b| - 1];
    }
  }

  lemma {:induction false} RunOne(env: Env, w: World, labels: seq<Label>, l: Label)
    ensures Run(env, w, labels + [l]) == Do(env, Run(env, w, labels), l)
  {
    assert (labels + [l])[..|labels|] == labels;
  }

  // The row of a failed provider call

  // Apart from the caller, no worker of a PENDING key is past claiming.
  lemma {:induction false} OnlyCallerLate(env: Env, w: World, h: History, id: nat, key: string, returned: Option<string>)
    requires Inv(env, w) && KeyOk(w, h, key) && RowPending(w, key) && HasCall(w, id, key, returned)
    ensures forall b :: b in w.workers && b != id && w.workers[b].job.key == key ==> Early(w.workers[b])
  {
    forall b | b in w.workers && b != id && w.workers[b].job.key == key ensures Early(w.workers[b]) {
      CallerAlone(env, w, id, b, key, returned);
      OneCaller(env, w, id, b, key, returned);
      assert PcSync(w, h, b, key, w.workers[b]);
    }
  }

  lemma {:induction false} NobodyWrites(env: Env, w: World, id: nat)
    requires Inv(env, w) && id in w.workers
    requires var key := w.workers[id].job.key; key in w.store.data && w.store.data[key].status.FailedNoMutation?
    ensures var pc := w.workers[id]; !pc.RollingBack? && !pc.WritingFailure? && !Writing(pc)
  {
    var key := w.workers[id].job.key;
    assert PcOk(w, id, w.workers[id]) && RowOk(w, key);
    var i :| 0 <= i < |w.calls| && w.calls[i].key == key && w.calls[i].returned == None;
    OneAnswerPerKey(env, w, i);
  }

  lemma {:induction false} FailedClaim(w: World, id: nat, job: Job)
    requires job.key in w.store.data && w.store.data[job.key].status.FailedNoMutation?
    ensures var data := DoClaim(w, id, job).store.data; job.key in data && data[job.key].status.FailedNoMutation?
  {
    ReclaimEffect(w.store, job.key, job.payloadHash);
  }

  // Whoever neither claims, rolls back nor writes leaves the rows alone.
  lemma {:induction false} RowsUntouched(env: Env, w: World, id: nat, answer: ProviderAnswer)
    requires id in w.workers
    requires var pc := w.workers[id]; !pc.Claiming? && !pc.RollingBack? && !pc.WritingFailure? && !Writing(pc)
    ensures DoAdvance(env, w, id, answer).store.data == w.store.data
  {
  }

  lemma {:induction false} FailedAdvance(env: Env, w: World, id: nat, answer: ProviderAnswer, key: string)
    requires Inv(env, w) && id in w.workers && key in w.store.data && w.store.data[key].status.FailedNoMutation?
    ensures var w' := DoAdvance(env, w, id, answer); key in w'.store.data && w'.store.data[key].status.FailedNoMutation?
  {
    if w.workers[id].job.key != key {
      OtherKeyStep(env, w, id, answer);
    } else if w.workers[id].Claiming? {
      FailedClaim(w, id, w.workers[id].job);
    } else {
      NobodyWrites(env, w, id);
      RowsUntouched(env, w, id, answer);
    }
  }

  lemma {:induction false} FailedForever(env: Env, w: World, labels: seq<Label>, key: string)
    requires Inv(env, w) && key in w.store.data && w.store.data[key].status.FailedNoMutation?
    ensures var w' := Run(env, w, labels); key in w'.store.data && w'.store.data[key].status.FailedNoMutation?
  {
    if labels != [] {
      var front, l := labels[..|labels| - 1], labels[|labels| - 1];
      FailedForever(env, w, front, key);
      RunKeeps(env, w, front);
      if l.Advance? && l.worker in Run(env, w, front).workers {
        FailedAdvance(env, Run(env, w, front), l.worker, l.answer, key);
      }
    }
  }

  // Finished workers stay as they are.
  lemma {:induction false} FinishedForever(env: Env, w: World, labels: seq<Label>, id: nat)
    requires id in w.workers && w.workers[id].Finished?
    ensures var w' := Run(env, w, labels); id in w'.workers && w'.workers[id] == w.workers[id]
  {
    if labels != [] {
      var front, l := labels[..|labels| - 1], labels[|labels| - 1];
      FinishedForever(env, w, front, id);
      if l.Advance? && l.worker in Run(env, w, front).workers {
        OtherKeyStep(env, Run(env, w, front), l.worker, l.answer);
      }
    }
  }

  // What the failing worker's write leaves at once.
  lemma {:induction false} FailureWrite(env: Env, w: World, h: History, id: nat, answer: ProviderAnswer, job: Job)
    requires Inv(env, w) && KeyOk(w, h, job.key) && id in w.workers && w.workers[id] == WritingFailure(job)
    ensures var w' := DoAdvance(env, w, id, answer);
      if |w.store.data| < w.store.capacity then job.key in w'.store.data && w'.store.data[job.key].status.FailedNoMutation?
      else Orphaned(w', job.key) && w'.workers[id] == Finished(job, Raised(Store(S.StorageFull)))
  {
    assert PcOk(w, id, w.workers[id]);
    CallerHasRow(env, w, id, job.key, None);
    OnlyCallerLate(env, w, h, id, job.key, None);
  }

  lemma {:induction false} RunAround(env: Env, w: World, labels: seq<Label>, n: nat)
    requires n < |labels|
    ensures Run(env, w, labels) == Run(env, Do(env, Run(env, w, labels[..n]), labels[n]), labels[n + 1..])
  {
    RunOne(env, w, labels[..n], labels[n]);
    RunSplit(env, w, labels[..n] + [labels[n]], labels[n + 1..]);
    assert labels[..n] + [labels[n]] + labels[n + 1..] == labels;
  }

  // What a failed call leaves behind, whatever follows.
  lemma {:induction false} FailureStays(env: Env, w: World, h: History, id: nat, answer: ProviderAnswer, job: Job, rest: seq<Label>)
    requires Inv(env, w) && KeyOk(w, h, job.key) && id in w.workers && w.workers[id] == WritingFailure(job)
    ensures var w' := Run(env, Do(env, w, Advance(id, answer)), rest);
      id in w'.workers &&
      if |w.store.data| < w.store.capacity then job.key in w'.store.data && w'.store.data[job.key].status.FailedNoMutation?
      else Orphaned(w', job.key) && w'.workers[id] == Finished(job, Raised(Store(S.StorageFull)))
  {
    var after := Do(env, w, Advance(id, answer));
    FailureWrite(env, w, h, id, answer, job);
    StepKeeps(env, w, Advance(id, answer));
    OtherKeyStep(env, w, id, answer);
    WorkersStay(env, after, rest, id);
    if |w.store.data| < w.store.capacity {
      FailedForever(env, after, rest, job.key);
    } else {
      OrphanedForever(env, after, rest, job.key);
      FinishedForever(env, after, rest, id);
    }
  }

  // A worker whose provider call failed and that goes on to write this leaves FAILED_NO_MUTATION, for good, exactly if
  // the store has room at that moment; otherwise it raises, and its claim is orphaned: PENDING for good.
  lemma {:induction false} FailureLeaves(env: Env, capacity: int, labels: seq<Label>, n: nat, job: Job)
    requires n < |labels| && labels[n].Advance?
    requires var w := Run(env, Init(capacity), labels[..n]); labels[n].worker in w.workers && w.workers[labels[n].worker] == WritingFailure(job)
    ensures var before, w := Run(env, Init(capacity), labels[..n]), Run(env, Init(capacity), labels); var id := labels[n].worker;
      && job.key in w.store.data && id in w.workers
      && (w.store.data[job.key].status.FailedNoMutation? <==> |before.store.data| < before.store.capacity)
      && (|before.store.data| >= before.store.capacity ==>
            Orphaned(w, job.key) && w.workers[id] == Finished(job, Raised(Store(S.StorageFull))))
  {
    Reachable(env, capacity, labels[..n]);
    FollowSync(env, capacity, labels[..n]);
    var before, h := Run(env, Init(capacity), labels[..n]), Follow(env, Init(capacity), labels[..n]);
    assert KeyOk(before, h, job.key);
    FailureStays(env, before, h, labels[n].worker, labels[n].answer, job, labels[n + 1..]);
    RunAround(env, Init(capacity), labels, n);
  }

  lemma {:induction false} WorkersStay(env: Env, w: World, labels: seq<Label>, id: nat)
    requires id in w.workers
    ensures id in Run(env, w, labels).workers
  {
    if labels != [] {
      var front, l := labels[..|labels| - 1], labels[|labels| - 1];
      WorkersStay(env, w, front, id);
      if l.Advance? && l.worker in Run(env, w, front).workers {
        OtherKeyStep(env, Run(env, w, front), l.worker, l.answer);
      }
    }
  }

  // The disagreement is reachable

  // A job that passes every check.
  predicate GoodJob(job: Job) {
    job.kind.Execute? && job.keyMatches && job.lease.AssertFresh(job.presented, job.at).Fresh?
  }

  const GO: Label := Advance(0, Reference("r"))

  function ClaimRun(job: Job): seq<Label> {
    [Start(0, job), GO, GO, GO]
  }

  lemma {:induction false} RunTwo(env: Env, w: World, a: Label, b: Label)
    ensures Run(env, w, [a, b]) == Do(env, Do(env, w, a), b)
  {
    RunOne(env, w, [], a);
    RunOne(env, w, [a], b);
    assert [] + [a] == [a] && [a] + [b] == [a, b];
  }

  lemma {:induction false} RunFour(env: Env, w: World, a: Label, b: Label, c: Label, d: Label)
    ensures Run(env, w, [a, b, c, d]) == Do(env, Do(env, Do(env, Do(env, w, a), b), c), d)
  {
    RunTwo(env, w, a, b);
    RunSplit(env, w, [a, b], [c, d]);
    RunTwo(env, Run(env, w, [a, b]), c, d);
    assert [a, b] + [c, d] == [a, b, c, d];
  }

  // The one worker is at this counter, and its key has the one row, of this status.
  predicate Alone(w: World, job: Job, pc: PC, row: Outcome) {
    && w.workers == map[0 := pc] && pc.job == job && w.store.data == map[job.key := row] && row.key == job.key
    && w.store.externalRefs == map[] && !w.store.failNextWrite && !w.failNextAppend
  }

  lemma {:induction false} Claims(env: Env, capacity: int, job: Job)
    requires GoodJob(job) && capacity >= 1
    ensures var w := Run(env, Init(capacity), ClaimRun(job));
      && Alone(w, job, Building(job, PreMutation), S.Plain(job.key, Pending, job.payloadHash, None).(created := true))
      && w.store.capacity == capacity && w.chain == EMPTY_CHAIN && w.calls == []
  {
    RunFour(env, Init(capacity), Start(0, job), GO, GO, GO);
  }

  function CallRun(): seq<Label> {
    [GO, GO, GO, GO]
  }

  lemma {:induction false} AppendsFirst(env: Env, w: World, job: Job, row: Outcome)
    requires HexDigests(env.crypto) && job.kind.Execute?
    requires Alone(w, job, Building(job, PreMutation), row) && w.chain == EMPTY_CHAIN && w.calls == []
    ensures var w' := Run(env, w, [GO, GO]);
      && Alone(w', job, Invoking(job, 0), row) && w'.store.capacity == w.store.capacity && w'.calls == []
      && Verified(env.crypto, w'.chain) && |w'.chain.records| == 1
  {
    RunTwo(env, w, GO, GO);
    HeadIsHashText(env.crypto, w.chain);
    var record := BuildRecord(env, w.chain, job, PreMutation);
    assert record.Some? && Continues(w.chain, record.value);
    ExtendVerifies(env.crypto, w.chain, record.value);
  }

  lemma {:induction false} CallReturns(env: Env, w: World, job: Job, row: Outcome)
    requires Alone(w, job, Invoking(job, 0), row) && w.calls == []
    ensures var w' := Run(env, w, [GO, GO]);
      Alone(w', job, WritingSuccess(job, "r"), row) && w'.store.capacity == w.store.capacity && w'.chain == w.chain
  {
    RunTwo(env, w, GO, GO);
  }

  lemma {:induction false} Calls(env: Env, w: World, job: Job, row: Outcome)
    requires HexDigests(env.crypto) && job.kind.Execute?
    requires Alone(w, job, Building(job, PreMutation), row) && w.chain == EMPTY_CHAIN && w.calls == []
    ensures var w' := Run(env, w, CallRun());
      && Alone(w', job, WritingSuccess(job, "r"), row) && w'.store.capacity == w.store.capacity
      && Verified(env.crypto, w'.chain) && |w'.chain.records| == 1
  {
    AppendsFirst(env, w, job, row);
    CallReturns(env, Run(env, w, [GO, GO]), job, row);
    RunSplit(env, w, [GO, GO], [GO, GO]);
    assert [GO, GO] + [GO, GO] == CallRun();
  }

  function LoseRun(): seq<Label> {
    [GO, GO, ArmAppendFailure, GO]
  }

  lemma {:induction false} Loses(env: Env, w: World, job: Job, row: Outcome)
    requires HexDigests(env.crypto) && job.kind.Execute? && Verified(env.crypto, w.chain) && Alone(w, job, WritingSuccess(job, "r"), row)
    ensures var w' := Run(env, w, LoseRun());
      && w'.workers == map[0 := Downgrading(job, "r")] && w'.chain == w.chain && w'.store.capacity == w.store.capacity
      && w'.store.data.Keys == {job.key} && w'.store.data[job.key].status.ResolvedPresent?
  {
    RunFour(env, w, GO, GO, ArmAppendFailure, GO);
    HeadIsHashText(env.crypto, w.chain);
  }

  function DisagreeRun(job: Job): seq<Label> {
    ClaimRun(job) + CallRun() + LoseRun() + [GO]
  }

  // A full store refuses the downgrade.
  lemma {:induction false} DowngradeRefused(env: Env, w: World, job: Job)
    requires w.workers == map[0 := Downgrading(job, "r")] && w.store.data.Keys == {job.key} && w.store.capacity == 1
    ensures var w' := Do(env, w, GO);
      && w'.workers == map[0 := Finished(job, Raised(Store(S.StorageFull)))]
      && w'.store.data == w.store.data && w'.chain == w.chain
  {
    assert |{job.key}| == 1;
    var data := w.store.data;
    assert |data| == |data.Keys|;
  }

  lemma {:induction false} DisagreeEnds(env: Env, job: Job)
    requires HexDigests(env.crypto) && GoodJob(job)
    ensures var w := Run(env, Init(1), DisagreeRun(job));
      && w.workers == map[0 := Finished(job, Raised(Store(S.StorageFull)))]
      && Decided(w, job.key) && w.store.data[job.key].status.ResolvedPresent? && |w.chain.records| == 1
  {
    var w1 := Run(env, Init(1), ClaimRun(job));
    Claims(env, 1, job);
    var row := S.Plain(job.key, Pending, job.payloadHash, None).(created := true);
    RunSplit(env, Init(1), ClaimRun(job), CallRun());
    Calls(env, w1, job, row);
    var w2 := Run(env, w1, CallRun());
    RunSplit(env, Init(1), ClaimRun(job) + CallRun(), LoseRun());
    Loses(env, w2, job, row);
    DowngradeRefused(env, Run(env, w2, LoseRun()), job);
    RunOne(env, Init(1), ClaimRun(job) + CallRun() + LoseRun(), GO);
  }

  // The claim fills the store, the success is written, its post_mutation record cannot be appended, and the store is
  // too full for the downgrade: the row stays RESOLVED_PRESENT, and the only record is the one before the call.
  lemma {:induction false} StoreAndAuditDisagree(env: Env, job: Job)
    requires HexDigests(env.crypto) && GoodJob(job)
    ensures var w, h := Run(env, Init(1), DisagreeRun(job)), Follow(env, Init(1), DisagreeRun(job));
      && Decided(w, job.key) && Writers(h, job.key) == {0} && !Reported(w, h, 0) && 0 in w.workers && GaveUp(w.workers[0])
      && |w.chain.records| == 1
  {
    var w, h := Run(env, Init(1), DisagreeRun(job)), Follow(env, Init(1), DisagreeRun(job));
    DisagreeEnds(env, job);
    StoreMeetsAudit(env, 1, DisagreeRun(job), job.key);
    var id :| id in Writers(h, job.key);
    assert forall a :: a in Writers(h, job.key) ==> a == 0;
  }

  // So are the other ways to give up, from every reachable state: whoever has written a row and not yet reported it may be
  // killed at that moment.
  lemma {:induction false} KilledBeforeReport(env: Env, capacity: int, labels: seq<Label>, key: string, id: nat)
    requires id in Writers(Follow(env, Init(capacity), labels), key)
    requires var w := Run(env, Init(capacity), labels); id in w.workers && UnderWay(w.workers[id])
    ensures var w, h := Run(env, Init(capacity), labels + [Kill(id)]), Follow(env, Init(capacity), labels + [Kill(id)]);
      Decided(w, key) && id in Writers(h, key) && !Reported(w, h, id) && id in w.workers && GaveUp(w.workers[id])
  {
    var more := labels + [Kill(id)];
    RunOne(env, Init(capacity), labels, Kill(id));
    assert more[..|labels|] == labels;
    StoreMeetsAudit(env, capacity, labels, key);
    StoreMeetsAudit(env, capacity, more, key);
  }

  lemma {:induction false} TwoMore(env: Env, w0: World, labels: seq<Label>, a: Label, b: Label)
    ensures var w, h := Run(env, w0, labels), Follow(env, w0, labels); var w1 := Do(env, w, a); var more := labels + [a] + [b];
      Run(env, w0, more) == Do(env, w1, b) && Follow(env, w0, more) == Note(env, w1, Note(env, w, h, a), b)
  {
    RunOne(env, w0, labels, a);
    RunOne(env, w0, labels + [a], b);
    FollowOne(env, w0, labels, a);
    FollowOne(env, w0, labels + [a], b);
  }

  // A writer that ended in an exception has reported nothing, and the row says how the mutation ended all the same.
  lemma {:induction false} RaisedUnreported(env: Env, capacity: int, labels: seq<Label>, key: string, id: nat)
    requires var w, h := Run(env, Init(capacity), labels), Follow(env, Init(capacity), labels);
      id in Writers(h, key) && id in w.workers && w.workers[id].Finished? && w.workers[id].result.Raised?
    ensures var w, h := Run(env, Init(capacity), labels), Follow(env, Init(capacity), labels);
      Decided(w, key) && !Reported(w, h, id)
  {
    StoreMeetsAudit(env, capacity, labels, key);
  }

  lemma {:induction false} AppendOvertaken(env: Env, w: World, h: History, id: nat)
    requires id in w.workers && w.workers[id].Appending? && w.workers[id].record.Some? && !w.failNextAppend
    ensures var foreign := ForeignAppend(w.workers[id].record.value); var w1 := Do(env, w, foreign);
      && id in Do(env, w1, Advance(id, RuntimeFailure)).workers
      && Do(env, w1, Advance(id, RuntimeFailure)).workers[id] == Finished(w.workers[id].job, Raised(AuditOutOfOrder))
      && Note(env, w1, Note(env, w, h, foreign), Advance(id, RuntimeFailure)) == h
  {
  }

  lemma {:induction false} AppendRefused(env: Env, w: World, h: History, id: nat)
    requires id in w.workers && w.workers[id].Appending? && w.workers[id].record.Some? && w.workers[id].point.Recovered?
    ensures var w1 := Do(env, w, ArmAppendFailure);
      && id in Do(env, w1, Advance(id, RuntimeFailure)).workers
      && Do(env, w1, Advance(id, RuntimeFailure)).workers[id] == Finished(w.workers[id].job, Raised(AuditFailed))
      && Note(env, w1, Note(env, w, h, ArmAppendFailure), Advance(id, RuntimeFailure)) == h
  {
  }

  // Somebody else may append between its reading of the chain's head and its own append.
  lemma {:induction false} OvertakenBeforeReport(env: Env, capacity: int, labels: seq<Label>, key: string, id: nat)
    requires id in Writers(Follow(env, Init(capacity), labels), key)
    requires var w := Run(env, Init(capacity), labels); id in w.workers && w.workers[id].Appending? && w.workers[id].record.Some? && !w.failNextAppend
    ensures var record := Run(env, Init(capacity), labels).workers[id].record.value;
      var more := labels + [ForeignAppend(record)] + [Advance(id, RuntimeFailure)];
      var w, h := Run(env, Init(capacity), more), Follow(env, Init(capacity), more);
      && id in w.workers && w.workers[id].Finished? && w.workers[id].result == Raised(AuditOutOfOrder)
      && Decided(w, key) && id in Writers(h, key) && !Reported(w, h, id)
  {
    var record := Run(env, Init(capacity), labels).workers[id].record.value;
    TwoMore(env, Init(capacity), labels, ForeignAppend(record), Advance(id, RuntimeFailure));
    AppendOvertaken(env, Run(env, Init(capacity), labels), Follow(env, Init(capacity), labels), id);
    RaisedUnreported(env, capacity, labels + [ForeignAppend(record)] + [Advance(id, RuntimeFailure)], key, id);
  }

  // And the append of a RECOVERY record may fail: the row was resolved before.
  lemma {:induction false} RefusedReport(env: Env, capacity: int, labels: seq<Label>, key: string, id: nat)
    requires id in Writers(Follow(env, Init(capacity), labels), key)
    requires var w := Run(env, Init(capacity), labels);
      id in w.workers && w.workers[id].Appending? && w.workers[id].record.Some? && w.workers[id].point.Recovered?
    ensures var more := labels + [ArmAppendFailure] + [Advance(id, RuntimeFailure)];
      var w, h := Run(env, Init(capacity), more), Follow(env, Init(capacity), more);
      && id in w.workers && w.workers[id].Finished? && w.workers[id].result == Raised(AuditFailed)
      && Decided(w, key) && id in Writers(h, key) && !Reported(w, h, id)
  {
    TwoMore(env, Init(capacity), labels, ArmAppendFailure, Advance(id, RuntimeFailure));
    AppendRefused(env, Run(env, Init(capacity), labels), Follow(env, Init(capacity), labels), id);
    RaisedUnreported(env, capacity, labels + [ArmAppendFailure] + [Advance(id, RuntimeFailure)], key, id);
  }

  lemma {:induction false} FollowOne(env: Env, w: World, labels: seq<Label>, l: Label)
    ensures Follow(env, w, labels + [l]) == Note(env, Run(env, w, labels), Follow(env, w, labels), l)
  {
    assert (labels + [l])[..|labels|] == labels;
  }
}
