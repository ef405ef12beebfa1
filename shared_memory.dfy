/** The two kinds as the canister build actually lays them out. On wasm32 the
    default memory is the canister's single stable memory, so the user and
    the policy memory managers open the same space. The second one to
    initialise loads the first one's header, and its memory 0 and memory 1
    are the same counter cell and the same B-tree. Each kind's `Cell` keeps
    its own cached copy of the counter, loaded from the shared cell when
    that kind's thread-local is first touched.

    This module models that aliasing only far enough to exhibit it: the tree
    is one map holding entries of either kind, and each kind's counter is
    its cached cell value. The per-instance caches inside the B-tree and its
    allocator are not modelled. The rest of the project models the stores
    as separate, which is what the code evidently intends. */
module SharedMemory {
  import opened Types
  import Users
  import Policies

  /** What the shared tree holds under a key: the encoding of one kind or the other. */
  datatype Entry = UserEntry(user: User) | PolicyEntry(policy: LifeInsurancePolicy)

  /** A call's outcome: a reply, or a trap (the `unwrap` of a failed decode). */
  datatype Outcome<T> = Reply(value: T) | Trap

  /** Shared stable memory: the one counter cell and the one tree, plus each
      kind's cached counter (`None` until that kind's cell is initialised). */
  datatype Canister = Canister(
    cell: u64,
    tree: map<u64, Entry>,
    userCounter: Option<u64>,
    policyCounter: Option<u64>)

  const Fresh: Canister := Canister(0, map[], None, None)

  /** The value a kind's `Cell` reads: its cache, or the shared cell when the
      cell is initialised now (`IdCell::init` loads what is stored). */
  function CounterSeen(c: Canister, cache: Option<u64>): (v: u64)
    ensures cache.None? ==> v == c.cell
    ensures cache.Some? ==> v == cache.value
  {
    match cache
    case Some(v) => v
    case None => c.cell
  }

  /** `add_user` over the shared memory: the id comes from the user cell's
      cache, and the user is inserted into the shared tree. */
  function AddUser(c: Canister, payload: UserPayload, now: u64): (res: (Canister, User))
    requires CounterSeen(c, c.userCounter) < U64_MAX
    ensures res.1.id == CounterSeen(c, c.userCounter)
    ensures res.0.cell == res.1.id + 1 && res.0.userCounter == Some(res.1.id + 1)
    ensures res.0.policyCounter == c.policyCounter
    ensures res.0.tree == c.tree[res.1.id := UserEntry(res.1)]
  {
    var id := CounterSeen(c, c.userCounter);
    var user := Users.NewUser(id, payload, now);
    (c.(cell := id + 1, userCounter := Some(id + 1), tree := c.tree[id := UserEntry(user)]), user)
  }

  /** `add_life_insurance_policy` over the shared memory. */
  function AddPolicy(c: Canister, payload: PolicyPayload, now: u64): (res: (Canister, LifeInsurancePolicy))
    requires CounterSeen(c, c.policyCounter) < U64_MAX
    ensures res.1.id == CounterSeen(c, c.policyCounter)
    ensures res.0.cell == res.1.id + 1 && res.0.policyCounter == Some(res.1.id + 1)
    ensures res.0.userCounter == c.userCounter
    ensures res.0.tree == c.tree[res.1.id := PolicyEntry(res.1)]
  {
    var id := CounterSeen(c, c.policyCounter);
    var policy := Policies.NewPolicy(id, payload, now);
    (c.(cell := id + 1, policyCounter := Some(id + 1), tree := c.tree[id := PolicyEntry(policy)]), policy)
  }

  /** `get_life_insurance_policy` over the shared tree: a user's bytes do not
      decode as a policy, and the `unwrap` traps. */
  function GetPolicy(c: Canister, id: u64): (r: Outcome<Result<LifeInsurancePolicy>>)
    ensures id !in c.tree ==> r == Reply(Err(NotFound))
    ensures id in c.tree && c.tree[id].UserEntry? ==> r == Trap
    ensures id in c.tree && c.tree[id].PolicyEntry? ==> r == Reply(Ok(c.tree[id].policy))
  {
    if id !in c.tree then Reply(Err(NotFound))
    else match c.tree[id]
      case PolicyEntry(policy) => Reply(Ok(policy))
      case UserEntry(_) => Trap
  }

  /** On a fresh canister, add a user, then a policy, then a user. The policy
      gets id 1, not 0. The second user also gets id 1, and it overwrites
      that policy. Reading policy 0 or policy 1 back then traps. */
  lemma SharedMemoryCounterexample(p: UserPayload, q: PolicyPayload, t: u64)
    ensures
      var (c1, first) := AddUser(Fresh, p, t);
      var (c2, policy) := AddPolicy(c1, q, t);
      var (c3, second) := AddUser(c2, p, t);
      && first.id == 0 && policy.id == 1 && second.id == 1
      && GetPolicy(c2, 1) == Reply(Ok(policy))
      && GetPolicy(c3, 1) == Trap
      && GetPolicy(c3, 0) == Trap
  {
  }

  /** The same calls on separate stores, as the rest of the model has them:
      each kind numbers from 0, and the policy stays readable. */
  lemma SeparateStoresScenario(p: UserPayload, q: PolicyPayload, t: u64)
    ensures
      var (u1, first) := Users.Add(Users.Initial, p, t);
      var (s1, policy) := Policies.Add(Policies.Initial, q, t);
      var (u2, second) := Users.Add(u1, p, t);
      && first.value.id == 0 && policy.value.id == 0 && second.value.id == 1
      && Policies.Get(s1, 0) == Ok(policy.value)
  {
  }
}
