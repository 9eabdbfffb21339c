/**
  The in-memory mutation store (src/mutations/store.py): the value transitions of its methods,
  and the class whose dictionaries they update in place.
 */
module MutationStore {
  import opened Wrappers
  import opened Leases

  datatype Store = Store(
    data: map<string, Outcome>,
    externalRefs: map<string, string>,
    fencing: map<string, int>,
    capacity: int,
    failNextWrite: bool,
    writeCount: nat)

  datatype Answer =
    | Done(outcome: Outcome)
    | StorageFull
    | PayloadConflict
    | LocalWriteFailed
    | ReferenceCollision
    | NoSuchKey

  function EmptyStore(capacity: int): Store {
    Store(map[], map[], map[], capacity, false, 0)
  }

  function Plain(key: string, status: Status, payloadHash: string, reference: Option<string>): Outcome {
    Outcome(key, status, payloadHash, reference, None, false)
  }

  // The capacity check comes first, so a full store refuses even the re-claim of a known key.
  function ClaimStep(s: Store, key: string, payloadHash: string): (Store, Answer) {
    if |s.data| >= s.capacity then (s, StorageFull)
    else if key in s.data then
      var existing := s.data[key];
      if existing.payloadHash != payloadHash then (s, PayloadConflict)
      else
        var seen := existing.(created := false);
        (s.(data := s.data[key := seen]), Done(seen))
    else
      var claimed := Plain(key, Pending, payloadHash, None).(created := true);
      (s.(data := s.data[key := claimed]), Done(claimed))
  }

  function WriteSuccessStep(s: Store, key: string, reference: string, result: string): (Store, Answer) {
    if s.failNextWrite then
      var s1 := s.(failNextWrite := false);
      if key !in s.data then (s1, NoSuchKey)
      else
        var outcome := Plain(key, Uncertain, s.data[key].payloadHash, Some(reference));
        (s1.(data := s.data[key := outcome], externalRefs := s.externalRefs[reference := key]), LocalWriteFailed)
    else if reference in s.externalRefs && s.externalRefs[reference] != key then (s, ReferenceCollision)
    else
      var s1 := s.(externalRefs := s.externalRefs[reference := key]);
      if key !in s.data then (s1, NoSuchKey)
      else
        var outcome := Plain(key, ResolvedPresent, s.data[key].payloadHash, Some(reference)).(result := Some(result));
        (s1.(data := s.data[key := outcome], writeCount := s.writeCount + 1), Done(outcome))
  }

  function RollbackStep(s: Store, key: string): Store {
    if key in s.data && s.data[key].status.Pending? then s.(data := s.data - {key}) else s
  }

  // Updates of a known key also meet the capacity check here.
  function WriteFailureStep(s: Store, key: string, status: Status): (Store, Answer) {
    if |s.data| >= s.capacity then (s, StorageFull)
    else if key !in s.data then (s, NoSuchKey)
    else
      var outcome := Plain(key, status, s.data[key].payloadHash, None);
      (s.(data := s.data[key := outcome]), Done(outcome))
  }

  function ResolveStep(s: Store, key: string, status: Status, reference: Option<string>): (Store, Answer) {
    if |s.data| >= s.capacity then (s, StorageFull)
    else if key !in s.data then (s, NoSuchKey)
    else
      var outcome := Plain(key, status, s.data[key].payloadHash, reference);
      var refs := if reference.Some? then s.externalRefs[reference.value := key] else s.externalRefs;
      (s.(data := s.data[key := outcome], externalRefs := refs), Done(outcome))
  }

  function CurrentFencingToken(s: Store, key: string): int {
    if key in s.fencing then s.fencing[key] else 0
  }

  function FencingStep(s: Store, key: string, token: int): Store {
    if token > CurrentFencingToken(s, key) then s.(fencing := s.fencing[key := token]) else s
  }

  class InMemoryMutationStore {
    const capacity: int
    var data: map<string, Outcome>
    var externalRefs: map<string, string>
    var fencing: map<string, int>
    var failNextWrite: bool
    var writeCount: nat

    constructor (capacity: int)
      ensures Model() == EmptyStore(capacity)
    {
      this.capacity := capacity;
      data, externalRefs, fencing := map[], map[], map[];
      failNextWrite, writeCount := false, 0;
    }

    function Model(): Store
      reads this
    {
      Store(data, externalRefs, fencing, capacity, failNextWrite, writeCount)
    }

    method Claim(key: string, payloadHash: string) returns (r: Answer)
      modifies this
      ensures (Model(), r) == ClaimStep(old(Model()), key, payloadHash)
    {
      if |data| >= capacity {
        return StorageFull;
      }
      if key in data {
        var existing := data[key];
        if existing.payloadHash != payloadHash {
          return PayloadConflict;
        }
        if existing.created {
          existing := existing.(created := false);
          data := data[key := existing];
        }
        assert data == data[key := existing];
        return Done(existing);
      }
      var outcome := Outcome(key, Pending, payloadHash, None, None, true);
      data := data[key := outcome];
      return Done(outcome);
    }

    method WriteSuccess(key: string, reference: string, result: string) returns (r: Answer)
      modifies this
      ensures (Model(), r) == WriteSuccessStep(old(Model()), key, reference, result)
    {
      if failNextWrite {
        failNextWrite := false;
        if key !in data {
          return NoSuchKey;
        }
        data := data[key := Outcome(key, Uncertain, data[key].payloadHash, Some(reference), None, false)];
        externalRefs := externalRefs[reference := key];
        return LocalWriteFailed;
      }
      if reference in externalRefs {
        if externalRefs[reference] != key {
          return ReferenceCollision;
        }
      }
      externalRefs := externalRefs[reference := key];
      if key !in data {
        return NoSuchKey;
      }
      var outcome := Outcome(key, ResolvedPresent, data[key].payloadHash, Some(reference), Some(result), false);
      data := data[key := outcome];
      writeCount := writeCount + 1;
      return Done(outcome);
    }

    method RollbackClaim(key: string)
      modifies this
      ensures Model() == RollbackStep(old(Model()), key)
    {
      if key in data && data[key].status == Pending {
        data := data - {key};
      }
    }

    method WriteFailure(key: string, status: Status) returns (r: Answer)
      modifies this
      ensures (Model(), r) == WriteFailureStep(old(Model()), key, status)
    {
      if |data| >= capacity {
        return StorageFull;
      }
      if key !in data {
        return NoSuchKey;
      }
      var outcome := Outcome(key, status, data[key].payloadHash, None, None, false);
      data := data[key := outcome];
      return Done(outcome);
    }

    method Resolve(key: string, status: Status, reference: Option<string>) returns (r: Answer)
      modifies this
      ensures (Model(), r) == ResolveStep(old(Model()), key, status, reference)
    {
      if |data| >= capacity {
        return StorageFull;
      }
      if key !in data {
        return NoSuchKey;
      }
      var outcome := Outcome(key, status, data[key].payloadHash, reference, None, false);
      data := data[key := outcome];
      if reference.Some? {
        externalRefs := externalRefs[reference.value := key];
      }
      return Done(outcome);
    }

    method RegisterFencing(key: string, token: int)
      modifies this
      ensures Model() == FencingStep(old(Model()), key, token)
    {
      var current := if key in fencing then fencing[key] else 0;
      if token > current {
        fencing := fencing[key := token];
      }
    }
  }
}
