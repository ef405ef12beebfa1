/** The life-insurance policy kind: the id counter cell, the ordered map from
    id to policy, the `*_life_insurance_policy` operations and `claim_policy`.
    The functions below are the specification; class `PolicyStore` performs
    the same steps in place. */
module Policies {
  import opened Types
  import opened Ids

  /** The persisted state of the policy kind: the counter cell (memory 0) and
      the map from id to record (memory 1), independent of the user kind. */
  datatype PolicyState = PolicyState(counter: u64, store: map<u64, LifeInsurancePolicy>)

  /** The state right after initialisation: the cell starts at 0, the map is empty. */
  const Initial: PolicyState := PolicyState(0, map[])

  /** Every stored key is below the counter and is the id of the record under it. */
  predicate IdsBelowCounter(s: PolicyState) {
    forall k :: k in s.store ==> k < s.counter && s.store[k].id == k
  }

  /** No operation deactivates a policy, so every stored policy is active. */
  predicate AllActive(s: PolicyState) {
    forall k :: k in s.store ==> s.store[k].isActive
  }

  /** `_get_life_insurance_policy`: point lookup in the map. */
  function Lookup(s: PolicyState, id: u64): (r: Option<LifeInsurancePolicy>)
    ensures r.Some? <==> id in s.store
    ensures r.Some? ==> r.value == s.store[id]
  {
    if id in s.store then Some(s.store[id]) else None
  }

  /** `do_insert_life_insurance_policy`: upsert under the record's own id. */
  function Insert(s: PolicyState, policy: LifeInsurancePolicy): (s': PolicyState)
    ensures s'.counter == s.counter
    ensures s'.store.Keys == s.store.Keys + {policy.id} && s'.store[policy.id] == policy
    ensures forall k :: k in s.store && k != policy.id ==> s'.store[k] == s.store[k]
  {
    s.(store := s.store[policy.id := policy])
  }

  /** The map's `remove`: drops the key and hands back what was there. */
  function Remove(s: PolicyState, id: u64): (res: (PolicyState, Option<LifeInsurancePolicy>))
    ensures res.1 == Lookup(s, id)
    ensures res.0.counter == s.counter && res.0.store.Keys == s.store.Keys - {id}
    ensures forall k :: k in res.0.store ==> res.0.store[k] == s.store[k]
  {
    (s.(store := s.store - {id}), Lookup(s, id))
  }

  /** `get_life_insurance_policy`. */
  function Get(s: PolicyState, id: u64): (r: Result<LifeInsurancePolicy>)
    ensures r.Ok? <==> id in s.store
    ensures r.Ok? ==> r.value == s.store[id]
    ensures r.Err? ==> r.error == NotFound
  {
    match Lookup(s, id)
    case Some(policy) => Ok(policy)
    case None => Err(NotFound)
  }

  function NewPolicy(id: u64, payload: PolicyPayload, now: u64): LifeInsurancePolicy {
    LifeInsurancePolicy(id, payload.policyholderId, payload.policyAmount,
                        true, false, payload.tenureYears, now, None)
  }

  /** `add_life_insurance_policy`: the id is the counter's value before the
      call, the counter moves on by one, and the new policy is active and
      unclaimed. */
  function Add(s: PolicyState, payload: PolicyPayload, now: u64): (res: (PolicyState, Option<LifeInsurancePolicy>))
    requires s.counter < U64_MAX
    ensures res.1.Some? && res.1.value.id == s.counter && res.0.counter == s.counter + 1
    ensures res.1.value.isActive && !res.1.value.isClaimed
    ensures res.1.value.createdAt == now && res.1.value.updatedAt == None
    ensures res.1.value.policyholderId == payload.policyholderId
    ensures res.1.value.policyAmount == payload.policyAmount
    ensures res.1.value.tenureYears == payload.tenureYears
    ensures res.0.store.Keys == s.store.Keys + {s.counter} && res.0.store[s.counter] == res.1.value
    ensures forall k :: k in s.store && k != s.counter ==> res.0.store[k] == s.store[k]
    ensures IdsBelowCounter(s) ==> s.counter !in s.store && IdsBelowCounter(res.0)
    ensures AllActive(s) ==> AllActive(res.0)
  {
    var id := s.counter;
    var policy := NewPolicy(id, payload, now);
    (Insert(s.(counter := s.counter + 1), policy), Some(policy))
  }

  /** `update_life_insurance_policy`: replaces amount and tenure, stamps
      `updatedAt`, ignores the payload's `policyholderId`, leaves the flags
      alone, and never creates an absent id. */
  function Update(s: PolicyState, id: u64, payload: PolicyPayload, now: u64)
    : (res: (PolicyState, Result<LifeInsurancePolicy>))
    ensures id !in s.store ==> res == (s, Err(NotFound))
    ensures id in s.store ==> res.1.Ok? && res.0 == Insert(s, res.1.value)
    ensures id in s.store ==>
      && res.1.value.id == s.store[id].id
      && res.1.value.policyholderId == s.store[id].policyholderId
      && res.1.value.isActive == s.store[id].isActive
      && res.1.value.isClaimed == s.store[id].isClaimed
      && res.1.value.createdAt == s.store[id].createdAt
      && res.1.value.policyAmount == payload.policyAmount
      && res.1.value.tenureYears == payload.tenureYears
      && res.1.value.updatedAt == Some(now)
    ensures IdsBelowCounter(s) ==> IdsBelowCounter(res.0)
    ensures IdsBelowCounter(s) && id in s.store ==> res.0 == s.(store := s.store[id := res.1.value])
    ensures IdsBelowCounter(s) && AllActive(s) ==> AllActive(res.0)
  {
    match Lookup(s, id)
    case Some(policy) =>
      var updated := policy.(policyAmount := payload.policyAmount,
                             tenureYears := payload.tenureYears, updatedAt := Some(now));
      (Insert(s, updated), Ok(updated))
    case None => (s, Err(NotFound))
  }

  /** `delete_life_insurance_policy`: removes the key and returns what was stored under it. */
  function Delete(s: PolicyState, id: u64): (res: (PolicyState, Result<LifeInsurancePolicy>))
    ensures id in s.store ==> res.1 == Ok(s.store[id])
    ensures id !in s.store ==> res.1 == Err(NotFound)
    ensures res.0.counter == s.counter && res.0.store == s.store - {id}
    ensures IdsBelowCounter(s) ==> IdsBelowCounter(res.0)
    ensures AllActive(s) ==> AllActive(res.0)
  {
    var (s', removed) := Remove(s, id);
    match removed
    case Some(policy) => (s', Ok(policy))
    case None => (s', Err(NotFound))
  }

  /** `_update_life_insurance_policy`: applies `f` to the stored record and
      reinserts the result under the same key; an absent id is left alone. */
  function UpdateWith(s: PolicyState, id: u64, f: LifeInsurancePolicy -> LifeInsurancePolicy): (s': PolicyState)
    ensures s'.counter == s.counter
    ensures id in s.store ==> s'.store.Keys == s.store.Keys && s'.store[id] == f(s.store[id])
    ensures forall k :: k in s.store && k != id ==> k in s'.store && s'.store[k] == s.store[k]
    ensures id !in s.store ==> s' == s
  {
    match Lookup(s, id)
    case Some(policy) => s.(store := s.store[id := f(policy)])
    case None => s
  }

  /** The closure that `claim_policy` hands to `_update_life_insurance_policy`. */
  function MarkClaimed(now: u64): LifeInsurancePolicy -> LifeInsurancePolicy {
    (policy: LifeInsurancePolicy) => policy.(isClaimed := true, updatedAt := Some(now))
  }

  /** A policy may be claimed only while active and not yet claimed. */
  predicate Claimable(policy: LifeInsurancePolicy) {
    policy.isActive && !policy.isClaimed
  }

  /** `claim_policy`. On success the stored record becomes claimed and gets
      `updatedAt`, while the caller receives the record as it was read
      before the write: still unclaimed, with the old `updatedAt`. */
  function Claim(s: PolicyState, id: u64, now: u64): (res: (PolicyState, Result<LifeInsurancePolicy>))
    ensures id !in s.store ==> res == (s, Err(NotFound))
    ensures id in s.store && !Claimable(s.store[id]) ==> res == (s, Err(InvalidOperation))
    ensures id in s.store && Claimable(s.store[id]) ==>
      && res.1 == Ok(s.store[id])
      && res.0.counter == s.counter
      && res.0.store == s.store[id := s.store[id].(isClaimed := true, updatedAt := Some(now))]
    ensures IdsBelowCounter(s) ==> IdsBelowCounter(res.0)
    ensures AllActive(s) ==> AllActive(res.0)
  {
    match Lookup(s, id)
    case Some(policy) =>
      if Claimable(policy) then
        (UpdateWith(s, id, MarkClaimed(now)), Ok(policy))
      else
        (s, Err(InvalidOperation))
    case None => (s, Err(NotFound))
  }

  // ---------------------------------------------------------------------------
  // Properties relating several calls

  /** Reading back a freshly added policy gives exactly the record returned. */
  lemma AddThenGet(s: PolicyState, payload: PolicyPayload, now: u64)
    requires s.counter < U64_MAX
    ensures Get(Add(s, payload, now).0, Add(s, payload, now).1.value.id) == Ok(Add(s, payload, now).1.value)
  {
  }

  /** A delete succeeds once; the second delete of the same id is `NotFound`
      and changes nothing. */
  lemma DeleteTwice(s: PolicyState, id: u64)
    requires id in s.store
    ensures Delete(s, id).1 == Ok(s.store[id])
    ensures Delete(Delete(s, id).0, id) == (Delete(s, id).0, Err(NotFound))
  {
    var s1 := Delete(s, id).0;
    assert s1.store - {id} == s1.store;
  }

  /** Create A, delete A, create B: B gets the successor of A's id, not A's id. */
  lemma AddDeleteAdd(s: PolicyState, a: PolicyPayload, t1: u64, b: PolicyPayload, t2: u64)
    requires IdsBelowCounter(s) && s.counter + 1 < U64_MAX
    ensures
      var (s1, ra) := Add(s, a, t1);
      var s2 := Delete(s1, ra.value.id).0;
      var rb := Add(s2, b, t2).1;
      rb.value.id == ra.value.id + 1 && rb.value.id !in s1.store
  {
  }

  /** What `claim_policy` returns is not what it stored: the returned record
      is unclaimed and a later read of the same id shows it claimed. */
  lemma ClaimReturnsStaleSnapshot(s: PolicyState, id: u64, now: u64)
    requires Claim(s, id, now).1.Ok?
    ensures var (s', r) := Claim(s, id, now);
      && !r.value.isClaimed
      && r.value.updatedAt == s.store[id].updatedAt
      && Get(s', id) == Ok(r.value.(isClaimed := true, updatedAt := Some(now)))
      && Get(s', id) != r
  {
  }

  /** Claiming succeeds at most once: after a successful claim, the next
      claim of the same id is `InvalidOperation` and changes nothing. */
  lemma ClaimTwice(s: PolicyState, id: u64, t1: u64, t2: u64)
    requires Claim(s, id, t1).1.Ok?
    ensures Claim(Claim(s, id, t1).0, id, t2) == (Claim(s, id, t1).0, Err(InvalidOperation))
  {
  }

  /** A freshly added policy can be claimed, the claim returns the record as
      created, and a second claim is refused. */
  lemma FreshPolicyClaimedOnce(s: PolicyState, payload: PolicyPayload, t0: u64, t1: u64, t2: u64)
    requires s.counter < U64_MAX
    ensures
      var (s1, created) := Add(s, payload, t0);
      var (s2, first) := Claim(s1, created.value.id, t1);
      && first == Ok(created.value)
      && Claim(s2, created.value.id, t2).1 == Err(InvalidOperation)
  {
    var (s1, created) := Add(s, payload, t0);
    ClaimTwice(s1, created.value.id, t1, t2);
  }

  /** Repeating an update with the same payload only moves `updatedAt`. */
  lemma UpdateRepeated(s: PolicyState, id: u64, payload: PolicyPayload, t1: u64, t2: u64)
    ensures Update(Update(s, id, payload, t1).0, id, payload, t2) == Update(s, id, payload, t2)
  {
    if id in s.store {
      var (s1, r1) := Update(s, id, payload, t1);
      var (s2, r2) := Update(s1, id, payload, t2);
      var (s3, r3) := Update(s, id, payload, t2);
      if s.store[id].id != id {
        assert s1.store[id] == s.store[id];
      }
      assert r2.value == r3.value;
      assert s2.store == s3.store;
    }
  }

  // ---------------------------------------------------------------------------
  // Traces of calls

  /** One call to a policy endpoint. */
  datatype PolicyOp =
    | AddOp(payload: PolicyPayload, now: u64)
    | GetOp(id: u64)
    | UpdateOp(id: u64, payload: PolicyPayload, now: u64)
    | DeleteOp(id: u64)
    | ClaimOp(id: u64, now: u64)

  /** The state after one call. */
  function Step(s: PolicyState, op: PolicyOp): (s': PolicyState)
    requires IdsBelowCounter(s) && (op.AddOp? ==> s.counter < U64_MAX)
    ensures IdsBelowCounter(s') && (AllActive(s) ==> AllActive(s'))
    ensures s'.counter == if op.AddOp? then s.counter + 1 else s.counter
    ensures forall k :: k in s'.store ==> k in s.store || (op.AddOp? && k == s.counter)
  {
    match op
    case AddOp(payload, now) => Add(s, payload, now).0
    case GetOp(_) => s
    case UpdateOp(id, payload, now) => Update(s, id, payload, now).0
    case DeleteOp(id) => Delete(s, id).0
    case ClaimOp(id, now) => Claim(s, id, now).0
  }

  function AddCount(ops: seq<PolicyOp>): nat {
    if ops == [] then 0 else (if ops[0].AddOp? then 1 else 0) + AddCount(ops[1..])
  }

  /** The state after a sequence of calls; the counter never wraps. */
  function Run(s: PolicyState, ops: seq<PolicyOp>): (s': PolicyState)
    requires IdsBelowCounter(s) && s.counter + AddCount(ops) <= U64_MAX
    ensures IdsBelowCounter(s') && (AllActive(s) ==> AllActive(s'))
    ensures s'.counter == s.counter + AddCount(ops)
    decreases |ops|
  {
    if ops == [] then s else Run(Step(s, ops[0]), ops[1..])
  }

  /** The ids that the `add_life_insurance_policy` calls of a trace return, in order. */
  function MintedIds(s: PolicyState, ops: seq<PolicyOp>): seq<u64>
    requires IdsBelowCounter(s) && s.counter + AddCount(ops) <= U64_MAX
    decreases |ops|
  {
    if ops == [] then []
    else
      var minted := if ops[0].AddOp? then [Add(s, ops[0].payload, ops[0].now).1.value.id] else [];
      minted + MintedIds(Step(s, ops[0]), ops[1..])
  }

  /** One step of a trace: what `MintedIds` and `Run` reduce to. */
  lemma UnfoldTrace(s: PolicyState, ops: seq<PolicyOp>)
    requires IdsBelowCounter(s) && s.counter + AddCount(ops) <= U64_MAX && ops != []
    ensures MintedIds(s, ops) == (if ops[0].AddOp? then [s.counter] else []) + MintedIds(Step(s, ops[0]), ops[1..])
    ensures Run(s, ops) == Run(Step(s, ops[0]), ops[1..])
  {
  }

  /** Ids are strictly increasing, at least the starting counter (so never a
      key that existed before), and below the final counter. */
  lemma {:induction false} MintedIdsIncreasing(s: PolicyState, ops: seq<PolicyOp>)
    requires IdsBelowCounter(s) && s.counter + AddCount(ops) <= U64_MAX
    ensures IncreasingWithin(MintedIds(s, ops), s.counter, Run(s, ops).counter)
    ensures forall i :: 0 <= i < |MintedIds(s, ops)| ==> MintedIds(s, ops)[i] !in s.store
    decreases |ops|
  {
    if ops != [] {
      var s1 := Step(s, ops[0]);
      MintedIdsIncreasing(s1, ops[1..]);
      UnfoldTrace(s, ops);
      if ops[0].AddOp? {
        PrependMinted(s.counter, MintedIds(s1, ops[1..]), Run(s, ops).counter);
      }
    }
  }

  /** A deleted id stays absent: no later call brings back a key below the counter. */
  lemma {:induction false} RunNeverResurrects(s: PolicyState, ops: seq<PolicyOp>, k: u64)
    requires IdsBelowCounter(s) && s.counter + AddCount(ops) <= U64_MAX
    requires k < s.counter && k !in s.store
    ensures k !in Run(s, ops).store
    decreases |ops|
  {
    if ops != [] {
      RunNeverResurrects(Step(s, ops[0]), ops[1..], k);
    }
  }

  /** What no operation changes in a stored policy, and the one flag that may
      only go from false to true. */
  predicate Preserved(before: LifeInsurancePolicy, after: LifeInsurancePolicy) {
    && after.id == before.id
    && after.policyholderId == before.policyholderId
    && after.createdAt == before.createdAt
    && after.isActive == before.isActive
    && (before.isClaimed ==> after.isClaimed)
  }

  predicate RecordsPreserved(s: PolicyState, t: PolicyState) {
    forall k :: k in s.store && k in t.store ==> Preserved(s.store[k], t.store[k])
  }

  /** One call keeps every surviving policy's identity, owner, creation time
      and `isActive`, and never unclaims it. */
  lemma StepPreservesRecords(s: PolicyState, op: PolicyOp)
    requires IdsBelowCounter(s) && (op.AddOp? ==> s.counter < U64_MAX)
    ensures RecordsPreserved(s, Step(s, op))
  {
  }

  /** Over any trace, a policy present at both ends kept its identity, owner,
      creation time and `isActive`, and a claimed policy is still claimed. */
  lemma {:induction false} RunPreservesRecords(s: PolicyState, ops: seq<PolicyOp>)
    requires IdsBelowCounter(s) && s.counter + AddCount(ops) <= U64_MAX
    ensures RecordsPreserved(s, Run(s, ops))
    decreases |ops|
  {
    if ops != [] {
      var s1 := Step(s, ops[0]);
      StepPreservesRecords(s, ops[0]);
      RunPreservesRecords(s1, ops[1..]);
      forall k | k in s.store && k in Run(s, ops).store
        ensures Preserved(s.store[k], Run(s, ops).store[k])
      {
        if k !in s1.store {
          RunNeverResurrects(s1, ops[1..], k);
        }
      }
    }
  }

  /** From the initial state, every trace leaves only active policies. */
  lemma RunFromInitialAllActive(ops: seq<PolicyOp>)
    requires AddCount(ops) <= U64_MAX
    ensures AllActive(Run(Initial, ops))
  {
  }

  // ---------------------------------------------------------------------------
  // The store as the canister holds it, updated in place

  class PolicyStore {
    /** `POLICY_ID_COUNTER` */
    var counter: u64
    /** `POLICY_STORAGE` */
    var store: map<u64, LifeInsurancePolicy>

    function State(): PolicyState
      reads this
    {
      PolicyState(counter, store)
    }

    ghost predicate Valid()
      reads this
    {
      IdsBelowCounter(State()) && AllActive(State())
    }

    /** Counter cell initialised to 0, empty map. */
    constructor ()
      ensures Valid() && State() == Initial
    {
      counter := 0;
      store := map[];
    }

    /** The counter cell's `set`: stores `value` and returns the previous value. */
    method SetCounter(value: u64) returns (previous: u64)
      modifies this
      ensures previous == old(counter) && counter == value && store == old(store)
    {
      previous := counter;
      counter := value;
    }

    /** `do_insert_life_insurance_policy` */
    method DoInsertPolicy(policy: LifeInsurancePolicy)
      modifies this
      ensures State() == Insert(old(State()), policy)
    {
      store := store[policy.id := policy];
    }

    /** `get_life_insurance_policy`; a query, it changes nothing. */
    method GetPolicy(id: u64) returns (r: Result<LifeInsurancePolicy>)
      ensures r == Get(State(), id)
    {
      match Lookup(State(), id)
      case Some(policy) => r := Ok(policy);
      case None => r := Err(NotFound);
    }

    /** `add_life_insurance_policy` */
    method AddPolicy(payload: PolicyPayload, now: u64) returns (r: Option<LifeInsurancePolicy>)
      requires Valid() && counter < U64_MAX
      modifies this
      ensures Valid()
      ensures r.Some? && r.value.id == old(counter) && counter == old(counter) + 1
      ensures (State(), r) == Add(old(State()), payload, now)
    {
      var current := counter;
      var id := SetCounter(current + 1);
      var policy := NewPolicy(id, payload, now);
      DoInsertPolicy(policy);
      r := Some(policy);
    }

    /** `update_life_insurance_policy` */
    method UpdatePolicy(id: u64, payload: PolicyPayload, now: u64) returns (r: Result<LifeInsurancePolicy>)
      requires Valid()
      modifies this
      ensures Valid()
      ensures (State(), r) == Update(old(State()), id, payload, now)
    {
      match Lookup(State(), id)
      case Some(policy) =>
        var updated := policy.(policyAmount := payload.policyAmount,
                               tenureYears := payload.tenureYears, updatedAt := Some(now));
        DoInsertPolicy(updated);
        r := Ok(updated);
      case None =>
        r := Err(NotFound);
    }

    /** `delete_life_insurance_policy` */
    method DeletePolicy(id: u64) returns (r: Result<LifeInsurancePolicy>)
      requires Valid()
      modifies this
      ensures Valid()
      ensures (State(), r) == Delete(old(State()), id)
    {
      var removed := Lookup(State(), id);
      store := store - {id};
      match removed
      case Some(policy) => r := Ok(policy);
      case None => r := Err(NotFound);
    }

    /** `_update_life_insurance_policy`: a second read of the map, then the write. */
    method UpdatePolicyWith(id: u64, f: LifeInsurancePolicy -> LifeInsurancePolicy)
      modifies this
      ensures State() == UpdateWith(old(State()), id, f)
    {
      match Lookup(State(), id)
      case Some(policy) =>
        var updated := f(policy);
        store := store[id := updated];
      case None =>
    }

    /** `claim_policy`: the first read decides and is what is returned; the
        write goes through `UpdatePolicyWith`. */
    method ClaimPolicy(id: u64, now: u64) returns (r: Result<LifeInsurancePolicy>)
      requires Valid()
      modifies this
      ensures Valid()
      ensures (State(), r) == Claim(old(State()), id, now)
      ensures r.Ok? ==> !r.value.isClaimed && id in store && store[id].isClaimed
    {
      match Lookup(State(), id)
      case Some(policy) =>
        if policy.isActive && !policy.isClaimed {
          UpdatePolicyWith(id, MarkClaimed(now));
          r := Ok(policy);
        } else {
          r := Err(InvalidOperation);
        }
      case None =>
        r := Err(NotFound);
    }
  }
}
