/**
  Claims that stay PENDING (src/mutations/executor.py:104-129): exactly which ones nothing can move any more.
 */
module MutationOrphans {
  import opened Wrappers
  import opened Leases
  import opened Audit
  import opened MutationProtocol
  import opened MutationSafety
  import opened MutationAudit
  import S = MutationStore

  // The worker's claim can still be rolled back: its pre-mutation record is not in the chain yet.
  predicate CanRollBack(pc: PC) {
    pc.RollingBack? || ((pc.Building? || pc.Appending?) && pc.point.PreMutation?)
  }

  // The failed call of worker `id` is about to be written to a full store, and no claim can be rolled back to make room.
  ghost predicate DoomedBy(w: World, key: string, id: nat) {
    && RowPending(w, key) && |w.store.data| >= w.store.capacity
    && id in w.workers && w.workers[id].job.key == key && w.workers[id].WritingFailure?
    && forall b :: b in w.workers ==> !CanRollBack(w.workers[b])
  }

  ghost predicate Doomed(w: World, key: string) {
    exists id :: DoomedBy(w, key, id)
  }

  // What holds of reachable worlds, with digests in hexadecimal: every record could be built, and the store never
  // holds more than its capacity.
  ghost predicate Sound(env: Env, w: World, h: History) {
    && Inv(env, w) && Sync(w, h)
    && (forall id :: id in w.workers && w.workers[id].Appending? ==> w.workers[id].record.Some?)
    && (w.store.data != map[] ==> |w.store.data| <= w.store.capacity)
  }

  lemma {:induction false} PutSize<K, V>(m: map<K, V>, k: K, v: V)
    ensures |m[k := v]| == if k in m then |m| else |m| + 1
  {
    if k in m {
      assert m[k := v].Keys == m.Keys;
      assert |m[k := v]| == |m[k := v].Keys| && |m| == |m.Keys|;
    } else {
      assert m[k := v].Keys == m.Keys + {k};
      assert |m[k := v]| == |m[k := v].Keys| && |m| == |m.Keys|;
    }
  }

  lemma {:induction false} DropSize<K, V>(m: map<K, V>, k: K)
    requires k in m
    ensures |m - {k}| == |m| - 1
  {
    assert (m - {k}).Keys == m.Keys - {k};
    assert |m - {k}| == |(m - {k}).Keys| && |m| == |m.Keys|;
  }

  // The capacity is never changed; a step adds a row only below it, and drops one only by rolling back.
  lemma {:induction false} RowsAfter(env: Env, w: World, id: nat, answer: ProviderAnswer)
    requires id in w.workers
    ensures var s, s' := w.store, DoAdvance(env, w, id, answer).store; var pc := w.workers[id];
      && s'.capacity == s.capacity
      && (pc.Claiming? && |s.data| < s.capacity && pc.job.key !in s.data ==> s'.data.Keys == s.data.Keys + {pc.job.key})
      && (pc.RollingBack? && RowPending(w, pc.job.key) ==> s'.data.Keys == s.data.Keys - {pc.job.key})
      && (!(pc.Claiming? && |s.data| < s.capacity && pc.job.key !in s.data) && !(pc.RollingBack? && RowPending(w, pc.job.key)) ==>
            s'.data.Keys == s.data.Keys)
  {
    OtherKeyStep(env, w, id, answer);
    RowOfOwnKey(env, w, id, answer);
  }

  // The row of the worker's own key, and the capacity.
  predicate OwnRow(w: World, w': World, pc: PC) {
    var s, s', key := w.store, w'.store, pc.job.key;
    && s'.capacity == s.capacity
    && (key in s'.data <==>
          (key in s.data && !(pc.RollingBack? && RowPending(w, key)))
          || (pc.Claiming? && |s.data| < s.capacity))
  }

  lemma {:induction false} OwnRowEarly(env: Env, w: World, id: nat, answer: ProviderAnswer)
    requires id in w.workers && Early(w.workers[id])
    ensures OwnRow(w, DoAdvance(env, w, id, answer), w.workers[id])
  {
  }

  lemma {:induction false} OwnRowResult(env: Env, w: World, id: nat, answer: ProviderAnswer)
    requires id in w.workers && (w.workers[id].WritingFailure? || w.workers[id].WritingSuccess?)
    ensures OwnRow(w, DoAdvance(env, w, id, answer), w.workers[id])
  {
  }

  lemma {:induction false} OwnRowResolve(env: Env, w: World, id: nat, answer: ProviderAnswer)
    requires id in w.workers && (w.workers[id].Downgrading? || w.workers[id].Resolving? || w.workers[id].RollingBack?)
    ensures OwnRow(w, DoAdvance(env, w, id, answer), w.workers[id])
  {
  }

  lemma {:induction false} RowOfOwnKey(env: Env, w: World, id: nat, answer: ProviderAnswer)
    requires id in w.workers
    ensures OwnRow(w, DoAdvance(env, w, id, answer), w.workers[id])
  {
    var pc := w.workers[id];
    if Early(pc) {
      OwnRowEarly(env, w, id, answer);
    } else if pc.WritingFailure? || pc.WritingSuccess? {
      OwnRowResult(env, w, id, answer);
    } else if pc.Downgrading? || pc.Resolving? || pc.RollingBack? {
      OwnRowResolve(env, w, id, answer);
    } else {
      assert DoAdvance(env, w, id, answer).store == w.store;
    }
  }

  lemma {:induction false} SizeKept(env: Env, w: World, id: nat, answer: ProviderAnswer)
    requires id in w.workers && (w.store.data != map[] ==> |w.store.data| <= w.store.capacity)
    ensures var s' := DoAdvance(env, w, id, answer).store; s'.data != map[] ==> |s'.data| <= s'.capacity
  {
    var s, s', key := w.store, DoAdvance(env, w, id, answer).store, w.workers[id].job.key;
    RowsAfter(env, w, id, answer);
    assert |s'.data| == |s'.data.Keys| && |s.data| == |s.data.Keys|;
    if s'.data.Keys == s.data.Keys + {key} && key !in s.data {
      assert |s.data.Keys + {key}| == |s.data.Keys| + 1;
    } else if s'.data.Keys == s.data.Keys {
      assert s'.data != map[] ==> s.data != map[];
    } else {
      assert s'.data.Keys == s.data.Keys - {key};
    }
  }

  lemma {:induction false} BuildsRecord(env: Env, w: World, job: Job, point: Point)
    requires HexDigests(env.crypto) && Verified(env.crypto, w.chain)
    ensures BuildRecord(env, w.chain, job, point).Some?
    ensures Continues(w.chain, BuildRecord(env, w.chain, job, point).value)
  {
    HeadIsHashText(env.crypto, w.chain);
  }

  // No record is being appended, and no claim can be rolled back.
  predicate Apart(pc: PC) {
    !pc.Appending? && !CanRollBack(pc)
  }

  lemma {:induction false} WriteApart(env: Env, w: World, b: nat, answer: ProviderAnswer)
    requires b in w.workers
    requires var pc := w.workers[b]; pc.WritingFailure? || pc.WritingSuccess? || pc.Downgrading? || pc.Resolving?
    ensures var w' := DoAdvance(env, w, b, answer); b in w'.workers && Apart(w'.workers[b])
  {
  }

  lemma {:induction false} CallApart(env: Env, w: World, b: nat, answer: ProviderAnswer)
    requires b in w.workers
    requires var pc := w.workers[b];
      pc.Begin? || pc.Registering? || pc.Invoking? || pc.Awaiting? || pc.Authorizing? || pc.Reading? || pc.Finished?
    ensures var w' := DoAdvance(env, w, b, answer); b in w'.workers && Apart(w'.workers[b])
  {
  }

  lemma {:induction false} ClaimAppendsNothing(w: World, id: nat, job: Job)
    ensures var w' := DoClaim(w, id, job); id in w'.workers && !w'.workers[id].Appending?
  {
  }

  lemma {:induction false} AppendEnds(env: Env, w: World, id: nat, job: Job, point: Point, record: Option<Record>)
    ensures var w' := DoAppend(env, w, id, job, point, record); id in w'.workers && !w'.workers[id].Appending?
  {
  }

  // Only the building of a record is followed by its append.
  lemma {:induction false} OnlyBuildingAppends(env: Env, w: World, id: nat, answer: ProviderAnswer)
    requires id in w.workers && !w.workers[id].Building?
    ensures var w' := DoAdvance(env, w, id, answer); id in w'.workers && !w'.workers[id].Appending?
  {
    match w.workers[id]
    case Claiming(job) => ClaimAppendsNothing(w, id, job);
    case Appending(job, point, record) => AppendEnds(env, w, id, job, point, record);
    case RollingBack(_) =>
    case WritingFailure(_) => WriteApart(env, w, id, answer);
    case WritingSuccess(_, _) => WriteApart(env, w, id, answer);
    case Downgrading(_, _) => WriteApart(env, w, id, answer);
    case Resolving(_, _) => WriteApart(env, w, id, answer);
    case _ => CallApart(env, w, id, answer);
  }

  lemma {:induction false} BuiltIsKept(env: Env, w: World, id: nat, answer: ProviderAnswer)
    requires HexDigests(env.crypto) && Inv(env, w) && id in w.workers && w.workers[id].Building?
    ensures var w' := DoAdvance(env, w, id, answer); id in w'.workers && w'.workers[id].Appending? && w'.workers[id].record.Some?
  {
    BuildsRecord(env, w, w.workers[id].job, w.workers[id].point);
  }

  lemma {:induction false} RecordsKept(env: Env, w: World, id: nat, answer: ProviderAnswer)
    requires HexDigests(env.crypto) && Inv(env, w) && id in w.workers
    requires forall b :: b in w.workers && w.workers[b].Appending? ==> w.workers[b].record.Some?
    ensures var w' := DoAdvance(env, w, id, answer); forall b :: b in w'.workers && w'.workers[b].Appending? ==> w'.workers[b].record.Some?
  {
    var w' := DoAdvance(env, w, id, answer);
    assert forall b :: b in w'.workers && b != id ==> b in w.workers && w'.workers[b] == w.workers[b] by {
      OtherKeyStep(env, w, id, answer);
    }
    if w.workers[id].Building? {
      BuiltIsKept(env, w, id, answer);
    } else {
      OnlyBuildingAppends(env, w, id, answer);
    }
  }

  lemma {:induction false} SoundStep(env: Env, w: World, h: History, l: Label)
    requires HexDigests(env.crypto) && Sound(env, w, h)
    ensures Sound(env, Do(env, w, l), Note(env, w, h, l))
  {
    StepKeeps(env, w, l);
    NoteSync(env, w, h, l);
    if l.Advance? && l.worker in w.workers {
      SizeKept(env, w, l.worker, l.answer);
      RecordsKept(env, w, l.worker, l.answer);
    }
  }

  lemma {:induction false} SoundRun(env: Env, capacity: int, labels: seq<Label>)
    requires HexDigests(env.crypto)
    ensures Sound(env, Run(env, Init(capacity), labels), Follow(env, Init(capacity), labels))
  {
    if labels != [] {
      SoundRun(env, capacity, labels[..|labels| - 1]);
      SoundStep(env, Run(env, Init(capacity), labels[..|labels| - 1]), Follow(env, Init(capacity), labels[..|labels| - 1]), labels[|labels| - 1]);
    } else {
      FollowSync(env, capacity, []);
      Reachable(env, capacity, []);
    }
  }

  // Nothing moves a doomed or orphaned claim

  lemma {:induction false} DoomedCaller(env: Env, w: World, h: History, key: string, id: nat)
    requires Inv(env, w) && Sync(w, h) && DoomedBy(w, key, id)
    ensures HasCall(w, id, key, None)
    ensures forall b :: b in w.workers && b != id && w.workers[b].job.key == key ==> Early(w.workers[b])
  {
    assert PcOk(w, id, w.workers[id]) && KeyOk(w, h, key);
    OnlyCallerLate(env, w, h, id, key, None);
  }

  lemma {:induction false} DoomedFrame(w: World, w': World, key: string, id: nat)
    requires DoomedBy(w, key, id) && RowPending(w', key) && |w'.store.data| == |w.store.data| && w'.store.capacity == w.store.capacity
    requires id in w'.workers && w'.workers[id] == w.workers[id]
    requires forall b :: b in w'.workers ==> (b in w.workers && w'.workers[b] == w.workers[b]) || !CanRollBack(w'.workers[b])
    ensures DoomedBy(w', key, id)
  {
  }

  // On a full store a step of another worker neither adds nor drops a row.
  lemma {:induction false} SameSize(env: Env, w: World, b: nat, answer: ProviderAnswer)
    requires b in w.workers && |w.store.data| >= w.store.capacity && !CanRollBack(w.workers[b])
    ensures var w' := DoAdvance(env, w, b, answer); |w'.store.data| == |w.store.data| && w'.store.capacity == w.store.capacity
  {
    RowsAfter(env, w, b, answer);
    var data, data' := w.store.data, DoAdvance(env, w, b, answer).store.data;
    assert |data'| == |data'.Keys| && |data| == |data.Keys|;
  }

  // And no worker gets a claim that can be rolled back.
  lemma {:induction false} FullClaim(w: World, b: nat, job: Job)
    requires b in w.workers && |w.store.data| >= w.store.capacity && w.workers[b] == Claiming(job)
    ensures b in DoClaim(w, b, job).workers && !CanRollBack(DoClaim(w, b, job).workers[b])
  {
  }

  lemma {:induction false} AppendNoRollBack(env: Env, w: World, b: nat, job: Job, point: Point, record: Option<Record>)
    requires !point.PreMutation?
    ensures var w' := DoAppend(env, w, b, job, point, record); b in w'.workers && !CanRollBack(w'.workers[b])
  {
  }

  lemma {:induction false} NoNewRollBack(env: Env, w: World, b: nat, answer: ProviderAnswer)
    requires b in w.workers && |w.store.data| >= w.store.capacity && !CanRollBack(w.workers[b])
    ensures var w' := DoAdvance(env, w, b, answer); b in w'.workers && !CanRollBack(w'.workers[b])
  {
    match w.workers[b]
    case Claiming(job) => FullClaim(w, b, job);
    case Building(_, _) =>
    case Appending(job, point, record) => AppendNoRollBack(env, w, b, job, point, record);
    case WritingFailure(_) => WriteApart(env, w, b, answer);
    case WritingSuccess(_, _) => WriteApart(env, w, b, answer);
    case Downgrading(_, _) => WriteApart(env, w, b, answer);
    case Resolving(_, _) => WriteApart(env, w, b, answer);
    case _ => CallApart(env, w, b, answer);
  }

  lemma {:induction false} EarlyKeepsPending(env: Env, w: World, b: nat, answer: ProviderAnswer, key: string)
    requires b in w.workers && RowPending(w, key) && (w.workers[b].job.key == key ==> Early(w.workers[b]))
    ensures RowPending(DoAdvance(env, w, b, answer), key)
  {
    OtherKeyStep(env, w, b, answer);
    if w.workers[b].Claiming? && w.workers[b].job.key == key {
      ReclaimEffect(w.store, key, w.workers[b].job.payloadHash);
    }
  }

  lemma {:induction false} DoomedElsewhere(env: Env, w: World, h: History, key: string, id: nat, b: nat, answer: ProviderAnswer)
    requires Inv(env, w) && Sync(w, h) && DoomedBy(w, key, id) && b in w.workers && b != id
    ensures DoomedBy(DoAdvance(env, w, b, answer), key, id)
  {
    DoomedCaller(env, w, h, key, id);
    SameSize(env, w, b, answer);
    NoNewRollBack(env, w, b, answer);
    EarlyKeepsPending(env, w, b, answer, key);
    OtherKeyStep(env, w, b, answer);
    DoomedFrame(w, DoAdvance(env, w, b, answer), key, id);
  }

  lemma {:induction false} DoomedRefused(env: Env, w: World, h: History, key: string, id: nat, answer: ProviderAnswer)
    requires Inv(env, w) && Sync(w, h) && DoomedBy(w, key, id)
    ensures Orphaned(DoAdvance(env, w, id, answer), key)
  {
    assert KeyOk(w, h, key);
    FailureWrite(env, w, h, id, answer, w.workers[id].job);
  }

  lemma {:induction false} DoomedKill(env: Env, w: World, h: History, key: string, id: nat, b: nat)
    requires Inv(env, w) && Sync(w, h) && DoomedBy(w, key, id) && b in w.workers
    ensures var w' := Raise(w, b, w.workers[b].job, Killed); if b == id then Orphaned(w', key) else DoomedBy(w', key, id)
  {
    DoomedCaller(env, w, h, key, id);
    if b != id {
      DoomedFrame(w, Raise(w, b, w.workers[b].job, Killed), key, id);
    }
  }

  lemma {:induction false} DoomedStep(env: Env, w: World, h: History, key: string, id: nat, l: Label)
    requires Inv(env, w) && Sync(w, h) && DoomedBy(w, key, id)
    ensures var w' := Do(env, w, l); Orphaned(w', key) || DoomedBy(w', key, id)
  {
    match l
    case Advance(b, answer) =>
      if b == id { DoomedRefused(env, w, h, key, id, answer); }
      else if b in w.workers { DoomedElsewhere(env, w, h, key, id, b, answer); }
    case Kill(b) => if b in w.workers && !w.workers[b].Finished? { DoomedKill(env, w, h, key, id, b); }
    case _ => DoomedFrame(w, Do(env, w, l), key, id);
  }

  lemma {:induction false} StuckForever(env: Env, w: World, h: History, key: string, labels: seq<Label>)
    requires HexDigests(env.crypto) && Sound(env, w, h) && (Orphaned(w, key) || Doomed(w, key))
    ensures var w' := Run(env, w, labels); RowPending(w', key) && (Orphaned(w', key) || Doomed(w', key)) && exists h' :: Sound(env, w', h')
  {
    if labels != [] {
      var front, l := labels[..|labels| - 1], labels[|labels| - 1];
      StuckForever(env, w, h, key, front);
      var m := Run(env, w, front);
      var k :| Sound(env, m, k);
      SoundStep(env, m, k, l);
      if Orphaned(m, key) {
        assert Run(env, m, [l]) == Do(env, m, l) by { assert [l][..0] == []; }
        OrphanedForever(env, m, [l], key);
      } else {
        var id :| DoomedBy(m, key, id);
        DoomedStep(env, m, k, key, id, l);
      }
    }
  }

  // Every other claim can still move

  ghost predicate CanLeave(env: Env, w: World, key: string) {
    exists more :: !RowPending(Run(env, w, more), key)
  }

  lemma {:induction false} LeavesNow(env: Env, w: World, key: string)
    requires !RowPending(w, key)
    ensures CanLeave(env, w, key)
  {
    assert !RowPending(Run(env, w, []), key);
  }

  lemma {:induction false} LeavesLater(env: Env, w: World, l: Label, key: string)
    requires CanLeave(env, Do(env, w, l), key)
    ensures CanLeave(env, w, key)
  {
    var more :| !RowPending(Run(env, Do(env, w, l), more), key);
    RunSplit(env, w, [l], more);
    assert Run(env, w, [l]) == Do(env, w, l) by { assert [l][..0] == []; }
    assert !RowPending(Run(env, w, [l] + more), key);
  }

  // Rolling back

  // The same rows, and the same workers but for one.
  predicate Like(w: World, w': World, id: nat) {
    && w'.store.data == w.store.data && w'.store.capacity == w.store.capacity && id in w.workers
    && id in w'.workers && w'.workers[id].job == w.workers[id].job && w'.workers == w.workers[id := w'.workers[id]]
  }

  // Some steps drop the worker's row, and leave all other rows and workers.
  ghost predicate Frees(env: Env, w: World, id: nat, more: seq<Label>)
    requires id in w.workers
  {
    var w' := Run(env, w, more);
    && w'.store.data == w.store.data - {w.workers[id].job.key} && w'.store.capacity == w.store.capacity
    && forall b :: b in w.workers && b != id ==> b in w'.workers && w'.workers[b] == w.workers[b]
  }

  ghost predicate CanFree(env: Env, w: World, id: nat)
    requires id in w.workers
  {
    exists more :: Frees(env, w, id, more)
  }

  lemma {:induction false} FreesLater(env: Env, w: World, l: Label, id: nat)
    requires id in w.workers && Like(w, Do(env, w, l), id) && CanFree(env, Do(env, w, l), id)
    ensures CanFree(env, w, id)
  {
    var more :| Frees(env, Do(env, w, l), id, more);
    RunSplit(env, w, [l], more);
    assert Run(env, w, [l]) == Do(env, w, l) by { assert [l][..0] == []; }
    assert Frees(env, w, id, [l] + more);
  }

  lemma {:induction false} RollingBackFrees(env: Env, w: World, id: nat)
    requires Inv(env, w) && id in w.workers && w.workers[id].RollingBack?
    ensures CanFree(env, w, id)
  {
    var l := Advance(id, RuntimeFailure);
    assert PcOk(w, id, w.workers[id]);
    assert Run(env, w, [l]) == Do(env, w, l) by { assert [l][..0] == []; }
    assert Frees(env, w, id, [l]);
  }

  // With a failure armed, the pre-mutation record cannot be appended.
  lemma {:induction false} AppendingFrees(env: Env, w: World, id: nat)
    requires Inv(env, w) && id in w.workers && w.workers[id].Appending? && w.workers[id].point.PreMutation? && w.workers[id].record.Some?
    ensures CanFree(env, w, id)
  {
    var w1 := Do(env, w, ArmAppendFailure);
    var w2 := Do(env, w1, Advance(id, RuntimeFailure));
    StepKeeps(env, w, ArmAppendFailure);
    StepKeeps(env, w1, Advance(id, RuntimeFailure));
    RollingBackFrees(env, w2, id);
    FreesLater(env, w1, Advance(id, RuntimeFailure), id);
    FreesLater(env, w, ArmAppendFailure, id);
  }

  lemma {:induction false} BuildingFrees(env: Env, w: World, id: nat)
    requires HexDigests(env.crypto) && Inv(env, w) && id in w.workers && w.workers[id].Building? && w.workers[id].point.PreMutation?
    ensures CanFree(env, w, id)
  {
    var l := Advance(id, RuntimeFailure);
    BuildsRecord(env, w, w.workers[id].job, PreMutation);
    StepKeeps(env, w, l);
    AppendingFrees(env, Do(env, w, l), id);
    FreesLater(env, w, l, id);
  }

  lemma {:induction false} RollBackFrees(env: Env, w: World, h: History, id: nat)
    requires HexDigests(env.crypto) && Sound(env, w, h) && id in w.workers && CanRollBack(w.workers[id])
    ensures CanFree(env, w, id)
  {
    match w.workers[id]
    case RollingBack(_) => RollingBackFrees(env, w, id);
    case Appending(_, _, _) => AppendingFrees(env, w, id);
    case Building(_, _) => BuildingFrees(env, w, id);
  }

  lemma {:induction false} FreedLeaves(env: Env, w: World, id: nat)
    requires id in w.workers && CanFree(env, w, id)
    ensures CanLeave(env, w, w.workers[id].job.key)
  {
    var more :| Frees(env, w, id, more);
    assert !RowPending(Run(env, w, more), w.workers[id].job.key);
  }

  // Writing the result

  lemma {:induction false} WriteLeaves(env: Env, w: World, id: nat)
    requires id in w.workers && w.workers[id].WritingSuccess? && w.workers[id].job.key in w.store.data
    ensures CanLeave(env, w, w.workers[id].job.key)
  {
    var key, w1 := w.workers[id].job.key, Do(env, w, ArmWriteFailure);
    LeavesNow(env, Do(env, w1, Advance(id, RuntimeFailure)), key);
    LeavesLater(env, w1, Advance(id, RuntimeFailure), key);
    LeavesLater(env, w, ArmWriteFailure, key);
  }

  lemma {:induction false} AwaitingLeaves(env: Env, w: World, id: nat)
    requires id in w.workers && w.workers[id].Awaiting? && w.workers[id].job.key in w.store.data
    ensures CanLeave(env, w, w.workers[id].job.key)
  {
    WriteLeaves(env, Do(env, w, Advance(id, Reference("r"))), id);
    LeavesLater(env, w, Advance(id, Reference("r")), w.workers[id].job.key);
  }

  lemma {:induction false} InvokingLeaves(env: Env, w: World, id: nat)
    requires id in w.workers && w.workers[id].Invoking? && w.workers[id].job.key in w.store.data
    ensures CanLeave(env, w, w.workers[id].job.key)
  {
    AwaitingLeaves(env, Do(env, w, Advance(id, RuntimeFailure)), id);
    LeavesLater(env, w, Advance(id, RuntimeFailure), w.workers[id].job.key);
  }

  lemma {:induction false} RoomLeaves(env: Env, w: World, id: nat)
    requires id in w.workers && w.workers[id].WritingFailure? && w.workers[id].job.key in w.store.data && |w.store.data| < w.store.capacity
    ensures CanLeave(env, w, w.workers[id].job.key)
  {
    LeavesNow(env, Do(env, w, Advance(id, RuntimeFailure)), w.workers[id].job.key);
    LeavesLater(env, w, Advance(id, RuntimeFailure), w.workers[id].job.key);
  }

  lemma {:induction false} LeavesAfter(env: Env, w: World, more: seq<Label>, key: string)
    requires CanLeave(env, Run(env, w, more), key)
    ensures CanLeave(env, w, key)
  {
    var rest :| !RowPending(Run(env, Run(env, w, more), rest), key);
    RunSplit(env, w, more, rest);
    assert !RowPending(Run(env, w, more + rest), key);
  }

  // Another worker's row is dropped: there is room for the failure.
  lemma {:induction false} FreedRoom(env: Env, w: World, id: nat, b: nat, more: seq<Label>)
    requires id in w.workers && w.workers[id].WritingFailure? && b in w.workers && b != id && Frees(env, w, b, more)
    requires w.workers[id].job.key in w.store.data && w.workers[b].job.key in w.store.data
    requires w.workers[b].job.key != w.workers[id].job.key && |w.store.data| <= w.store.capacity
    ensures CanLeave(env, Run(env, w, more), w.workers[id].job.key)
  {
    DropSize(w.store.data, w.workers[b].job.key);
    RoomLeaves(env, Run(env, w, more), id);
  }

  // A failed call meets a full store, but another claim can be rolled back first.
  lemma {:induction false} FailureLeavesAfterRoom(env: Env, w: World, h: History, id: nat, b: nat)
    requires HexDigests(env.crypto) && Sound(env, w, h) && id in w.workers && w.workers[id].WritingFailure?
    requires RowPending(w, w.workers[id].job.key) && b in w.workers && CanRollBack(w.workers[b])
    ensures CanLeave(env, w, w.workers[id].job.key)
  {
    assert PcOk(w, id, w.workers[id]) && PcOk(w, b, w.workers[b]);
    RollBackFrees(env, w, h, b);
    var more :| Frees(env, w, b, more);
    FreedRoom(env, w, id, b, more);
    LeavesAfter(env, w, more, w.workers[id].job.key);
  }

  lemma {:induction false} LateLeaves(env: Env, w: World, h: History, key: string, id: nat)
    requires HexDigests(env.crypto) && Sound(env, w, h) && RowPending(w, key) && !Doomed(w, key)
    requires id in w.workers && w.workers[id].job.key == key && !Early(w.workers[id])
    ensures CanLeave(env, w, key)
  {
    var pc := w.workers[id];
    assert KeyOk(w, h, key) && PcSync(w, h, id, key, pc);
    if CanRollBack(pc) {
      RollBackFrees(env, w, h, id);
      FreedLeaves(env, w, id);
    } else if pc.Invoking? {
      InvokingLeaves(env, w, id);
    } else if pc.Awaiting? {
      AwaitingLeaves(env, w, id);
    } else if pc.WritingSuccess? {
      WriteLeaves(env, w, id);
    } else {
      assert pc.WritingFailure?;
      assert !DoomedBy(w, key, id);
      if |w.store.data| < w.store.capacity {
        RoomLeaves(env, w, id);
      } else {
        var b :| b in w.workers && CanRollBack(w.workers[b]);
        FailureLeavesAfterRoom(env, w, h, id, b);
      }
    }
  }

  // Main results

  // In every reachable state: a PENDING row can still become something else, by some continuation, exactly unless nobody
  // of its key is past claiming any more, or its failed call is about to meet a full store in which no claim can be
  // rolled back.
  lemma {:induction false} PendingForeverExactly(env: Env, capacity: int, labels: seq<Label>, key: string)
    requires HexDigests(env.crypto) && RowPending(Run(env, Init(capacity), labels), key)
    ensures var w := Run(env, Init(capacity), labels); CanLeave(env, w, key) <==> !Orphaned(w, key) && !Doomed(w, key)
  {
    var w, h := Run(env, Init(capacity), labels), Follow(env, Init(capacity), labels);
    SoundRun(env, capacity, labels);
    if Orphaned(w, key) || Doomed(w, key) {
      forall more ensures RowPending(Run(env, w, more), key) { StuckForever(env, w, h, key, more); }
    } else {
      var id :| id in w.workers && w.workers[id].job.key == key && !Early(w.workers[id]);
      LateLeaves(env, w, h, key, id);
    }
  }

  // Both kinds are reachable: a worker is killed after its claim, or its provider call fails at the last free slot.
  lemma {:induction false} KilledAfterClaim(env: Env, capacity: int, job: Job)
    requires GoodJob(job) && capacity >= 1
    ensures Orphaned(Run(env, Init(capacity), ClaimRun(job) + [Kill(0)]), job.key)
  {
    Claims(env, capacity, job);
    RunOne(env, Init(capacity), ClaimRun(job), Kill(0));
  }

  function FailRun(): seq<Label> {
    [GO, GO, GO, Advance(0, RuntimeFailure)]
  }

  lemma {:induction false} Invokes(env: Env, w: World, job: Job, row: Outcome)
    requires HexDigests(env.crypto) && Alone(w, job, Building(job, PreMutation), row) && w.chain == EMPTY_CHAIN
    ensures var w' := Run(env, w, [GO, GO]); w'.workers == map[0 := Invoking(job, 0)] && w'.store == w.store
  {
    RunTwo(env, w, GO, GO);
    BuildsRecord(env, w, job, PreMutation);
  }

  lemma {:induction false} CallFails(env: Env, w: World, job: Job)
    requires w.workers == map[0 := Invoking(job, 0)]
    ensures var w' := Run(env, w, [GO, Advance(0, RuntimeFailure)]); w'.workers == map[0 := WritingFailure(job)] && w'.store == w.store
  {
    RunTwo(env, w, GO, Advance(0, RuntimeFailure));
  }

  lemma {:induction false} Fails(env: Env, w: World, job: Job, row: Outcome)
    requires HexDigests(env.crypto) && Alone(w, job, Building(job, PreMutation), row) && w.chain == EMPTY_CHAIN
    ensures var w' := Run(env, w, FailRun()); w'.workers == map[0 := WritingFailure(job)] && w'.store == w.store
  {
    Invokes(env, w, job, row);
    CallFails(env, Run(env, w, [GO, GO]), job);
    RunSplit(env, w, [GO, GO], [GO, Advance(0, RuntimeFailure)]);
    assert [GO, GO] + [GO, Advance(0, RuntimeFailure)] == FailRun();
  }

  lemma {:induction false} FailsAtTheLastSlot(env: Env, job: Job)
    requires HexDigests(env.crypto) && GoodJob(job)
    ensures Doomed(Run(env, Init(1), ClaimRun(job) + FailRun()), job.key)
  {
    var row := S.Plain(job.key, Pending, job.payloadHash, None).(created := true);
    Claims(env, 1, job);
    RunSplit(env, Init(1), ClaimRun(job), FailRun());
    Fails(env, Run(env, Init(1), ClaimRun(job)), job, row);
    PutSize(map[], job.key, row);
    assert DoomedBy(Run(env, Init(1), ClaimRun(job) + FailRun()), job.key, 0);
  }
}
