/** The user kind: the id counter cell, the ordered map from id to user, and
    the `*_user` operations over them. The functions below are the
    specification; class `UserStore` performs the same steps in place. */
module Users {
  import opened Types
  import opened Ids

  /** The persisted state of the user kind: the counter cell (memory 0) and
      the map from id to record (memory 1). */
  datatype UserState = UserState(counter: u64, store: map<u64, User>)

  /** The state right after initialisation: the cell starts at 0, the map is empty. */
  const Initial: UserState := UserState(0, map[])

  /** Every stored key is below the counter and is the id of the record under it. */
  predicate IdsBelowCounter(s: UserState) {
    forall k :: k in s.store ==> k < s.counter && s.store[k].id == k
  }

  /** `_get_user`: point lookup in the map. */
  function Lookup(s: UserState, id: u64): (r: Option<User>)
    ensures r.Some? <==> id in s.store
    ensures r.Some? ==> r.value == s.store[id]
  {
    if id in s.store then Some(s.store[id]) else None
  }

  /** `do_insert_user`: upsert under the record's own id. */
  function Insert(s: UserState, user: User): (s': UserState)
    ensures s'.counter == s.counter
    ensures s'.store.Keys == s.store.Keys + {user.id} && s'.store[user.id] == user
    ensures forall k :: k in s.store && k != user.id ==> s'.store[k] == s.store[k]
  {
    s.(store := s.store[user.id := user])
  }

  /** The map's `remove`: drops the key and hands back what was there. */
  function Remove(s: UserState, id: u64): (res: (UserState, Option<User>))
    ensures res.1 == Lookup(s, id)
    ensures res.0.counter == s.counter && res.0.store.Keys == s.store.Keys - {id}
    ensures forall k :: k in res.0.store ==> res.0.store[k] == s.store[k]
  {
    (s.(store := s.store - {id}), Lookup(s, id))
  }

  /** `get_user`. */
  function Get(s: UserState, id: u64): (r: Result<User>)
    ensures r.Ok? <==> id in s.store
    ensures r.Ok? ==> r.value == s.store[id]
    ensures r.Err? ==> r.error == NotFound
  {
    match Lookup(s, id)
    case Some(user) => Ok(user)
    case None => Err(NotFound)
  }

  function NewUser(id: u64, payload: UserPayload, now: u64): User {
    User(id, payload.username, payload.email, payload.role, now, None)
  }

  /** `add_user`: the id is the counter's value before the call (the cell's
      `set` returns the previous value), and the counter moves on by one. */
  function Add(s: UserState, payload: UserPayload, now: u64): (res: (UserState, Option<User>))
    requires s.counter < U64_MAX
    ensures res.1.Some? && res.1.value.id == s.counter && res.0.counter == s.counter + 1
    ensures res.1.value.username == payload.username && res.1.value.email == payload.email
    ensures res.1.value.role == payload.role
    ensures res.1.value.createdAt == now && res.1.value.updatedAt == None
    ensures res.0.store.Keys == s.store.Keys + {s.counter} && res.0.store[s.counter] == res.1.value
    ensures forall k :: k in s.store && k != s.counter ==> res.0.store[k] == s.store[k]
    ensures IdsBelowCounter(s) ==> s.counter !in s.store && IdsBelowCounter(res.0)
  {
    var id := s.counter;
    var user := NewUser(id, payload, now);
    (Insert(s.(counter := s.counter + 1), user), Some(user))
  }

  /** `update_user`: replaces username, email and role, stamps `updatedAt`,
      keeps `id` and `createdAt`, and never creates an absent id. */
  function Update(s: UserState, id: u64, payload: UserPayload, now: u64): (res: (UserState, Result<User>))
    ensures id !in s.store ==> res == (s, Err(NotFound))
    ensures id in s.store ==> res.1.Ok? && res.0 == Insert(s, res.1.value)
    ensures id in s.store ==>
      && res.1.value.id == s.store[id].id
      && res.1.value.createdAt == s.store[id].createdAt
      && res.1.value.username == payload.username
      && res.1.value.email == payload.email
      && res.1.value.role == payload.role
      && res.1.value.updatedAt == Some(now)
    ensures IdsBelowCounter(s) ==> IdsBelowCounter(res.0)
    ensures IdsBelowCounter(s) && id in s.store ==> res.0 == s.(store := s.store[id := res.1.value])
  {
    match Lookup(s, id)
    case Some(user) =>
      var updated := user.(username := payload.username, email := payload.email,
                           role := payload.role, updatedAt := Some(now));
      (Insert(s, updated), Ok(updated))
    case None => (s, Err(NotFound))
  }

  /** `delete_user`: removes the key and returns what was stored under it. */
  function Delete(s: UserState, id: u64): (res: (UserState, Result<User>))
    ensures id in s.store ==> res.1 == Ok(s.store[id])
    ensures id !in s.store ==> res.1 == Err(NotFound)
    ensures res.0.counter == s.counter && res.0.store == s.store - {id}
    ensures IdsBelowCounter(s) ==> IdsBelowCounter(res.0)
  {
    var (s', removed) := Remove(s, id);
    match removed
    case Some(user) => (s', Ok(user))
    case None => (s', Err(NotFound))
  }

  // ---------------------------------------------------------------------------
  // Properties relating several calls

  /** Reading back a freshly added user gives exactly the record `add_user` returned. */
  lemma AddThenGet(s: UserState, payload: UserPayload, now: u64)
    requires s.counter < U64_MAX
    ensures Get(Add(s, payload, now).0, Add(s, payload, now).1.value.id) == Ok(Add(s, payload, now).1.value)
  {
  }

  /** A delete succeeds once; the second delete of the same id is `NotFound`
      and changes nothing. */
  lemma DeleteTwice(s: UserState, id: u64)
    requires id in s.store
    ensures Delete(s, id).1 == Ok(s.store[id])
    ensures Delete(Delete(s, id).0, id) == (Delete(s, id).0, Err(NotFound))
  {
    var s1 := Delete(s, id).0;
    assert s1.store - {id} == s1.store;
  }

  /** Create A, delete A, create B: B gets the successor of A's id, not A's id. */
  lemma AddDeleteAdd(s: UserState, a: UserPayload, t1: u64, b: UserPayload, t2: u64)
    requires IdsBelowCounter(s) && s.counter + 1 < U64_MAX
    ensures
      var (s1, ra) := Add(s, a, t1);
      var s2 := Delete(s1, ra.value.id).0;
      var rb := Add(s2, b, t2).1;
      rb.value.id == ra.value.id + 1 && rb.value.id !in s1.store
  {
  }

  /** Repeating an update with the same payload only moves `updatedAt`. */
  lemma UpdateRepeated(s: UserState, id: u64, payload: UserPayload, t1: u64, t2: u64)
    ensures Update(Update(s, id, payload, t1).0, id, payload, t2) == Update(s, id, payload, t2)
  {
    if id in s.store {
      var (s1, r1) := Update(s, id, payload, t1);
      var (s2, r2) := Update(s1, id, payload, t2);
      var (s3, r3) := Update(s, id, payload, t2);
      if s.store[id].id != id {
        assert s1.store[id] == s.store[id];
      }
      assert r2.value == r3.value;
      assert s2.store == s3.store;
    }
  }

  // ---------------------------------------------------------------------------
  // Traces of calls

  /** One call to a user endpoint. */
  datatype UserOp =
    | AddOp(payload: UserPayload, now: u64)
    | GetOp(id: u64)
    | UpdateOp(id: u64, payload: UserPayload, now: u64)
    | DeleteOp(id: u64)

  /** The state after one call. */
  function Step(s: UserState, op: UserOp): (s': UserState)
    requires IdsBelowCounter(s) && (op.AddOp? ==> s.counter < U64_MAX)
    ensures IdsBelowCounter(s')
    ensures s'.counter == if op.AddOp? then s.counter + 1 else s.counter
    ensures forall k :: k in s'.store ==> k in s.store || (op.AddOp? && k == s.counter)
  {
    match op
    case AddOp(payload, now) => Add(s, payload, now).0
    case GetOp(_) => s
    case UpdateOp(id, payload, now) => Update(s, id, payload, now).0
    case DeleteOp(id) => Delete(s, id).0
  }

  function AddCount(ops: seq<UserOp>): nat {
    if ops == [] then 0 else (if ops[0].AddOp? then 1 else 0) + AddCount(ops[1..])
  }

  /** The state after a sequence of calls; the counter never wraps. */
  function Run(s: UserState, ops: seq<UserOp>): (s': UserState)
    requires IdsBelowCounter(s) && s.counter + AddCount(ops) <= U64_MAX
    ensures IdsBelowCounter(s')
    ensures s'.counter == s.counter + AddCount(ops)
    decreases |ops|
  {
    if ops == [] then s else Run(Step(s, ops[0]), ops[1..])
  }

  /** The ids that the `add_user` calls of a trace return, in order. */
  function MintedIds(s: UserState, ops: seq<UserOp>): seq<u64>
    requires IdsBelowCounter(s) && s.counter + AddCount(ops) <= U64_MAX
    decreases |ops|
  {
    if ops == [] then []
    else
      var minted := if ops[0].AddOp? then [Add(s, ops[0].payload, ops[0].now).1.value.id] else [];
      minted + MintedIds(Step(s, ops[0]), ops[1..])
  }

  /** One step of a trace: what `MintedIds` and `Run` reduce to. */
  lemma UnfoldTrace(s: UserState, ops: seq<UserOp>)
    requires IdsBelowCounter(s) && s.counter + AddCount(ops) <= U64_MAX && ops != []
    ensures MintedIds(s, ops) == (if ops[0].AddOp? then [s.counter] else []) + MintedIds(Step(s, ops[0]), ops[1..])
    ensures Run(s, ops) == Run(Step(s, ops[0]), ops[1..])
  {
  }

  /** Ids are strictly increasing, at least the starting counter (so never a
      key that existed before), and below the final counter. */
  lemma {:induction false} MintedIdsIncreasing(s: UserState, ops: seq<UserOp>)
    requires IdsBelowCounter(s) && s.counter + AddCount(ops) <= U64_MAX
    ensures IncreasingWithin(MintedIds(s, ops), s.counter, Run(s, ops).counter)
    ensures forall i :: 0 <= i < |MintedIds(s, ops)| ==> MintedIds(s, ops)[i] !in s.store
    decreases |ops|
  {
    if ops != [] {
      var s1 := Step(s, ops[0]);
      MintedIdsIncreasing(s1, ops[1..]);
      UnfoldTrace(s, ops);
      if ops[0].AddOp? {
        PrependMinted(s.counter, MintedIds(s1, ops[1..]), Run(s, ops).counter);
      }
    }
  }

  /** A deleted id stays absent: no later call brings back a key below the counter. */
  lemma {:induction false} RunNeverResurrects(s: UserState, ops: seq<UserOp>, k: u64)
    requires IdsBelowCounter(s) && s.counter + AddCount(ops) <= U64_MAX
    requires k < s.counter && k !in s.store
    ensures k !in Run(s, ops).store
    decreases |ops|
  {
    if ops != [] {
      RunNeverResurrects(Step(s, ops[0]), ops[1..], k);
    }
  }

  /** What no operation changes in a stored user. */
  predicate Preserved(before: User, after: User) {
    after.id == before.id && after.createdAt == before.createdAt
  }

  predicate RecordsPreserved(s: UserState, t: UserState) {
    forall k :: k in s.store && k in t.store ==> Preserved(s.store[k], t.store[k])
  }

  /** Over any trace, a user present at both ends kept its id and `createdAt`. */
  lemma {:induction false} RunPreservesRecords(s: UserState, ops: seq<UserOp>)
    requires IdsBelowCounter(s) && s.counter + AddCount(ops) <= U64_MAX
    ensures RecordsPreserved(s, Run(s, ops))
    decreases |ops|
  {
    if ops != [] {
      var s1 := Step(s, ops[0]);
      RunPreservesRecords(s1, ops[1..]);
      forall k | k in s.store && k in Run(s, ops).store
        ensures Preserved(s.store[k], Run(s, ops).store[k])
      {
        if k !in s1.store {
          RunNeverResurrects(s1, ops[1..], k);
        }
      }
    }
  }

  // ---------------------------------------------------------------------------
  // The store as the canister holds it, updated in place

  class UserStore {
    /** `USER_ID_COUNTER` */
    var counter: u64
    /** `USER_STORAGE` */
    var store: map<u64, User>

    function State(): UserState
      reads this
    {
      UserState(counter, store)
    }

    ghost predicate Valid()
      reads this
    {
      IdsBelowCounter(State())
    }

    /** Counter cell initialised to 0, empty map. */
    constructor ()
      ensures Valid() && State() == Initial
    {
      counter := 0;
      store := map[];
    }

    /** The counter cell's `set`: stores `value` and returns the previous value. */
    method SetCounter(value: u64) returns (previous: u64)
      modifies this
      ensures previous == old(counter) && counter == value && store == old(store)
    {
      previous := counter;
      counter := value;
    }

    /** `do_insert_user` */
    method DoInsertUser(user: User)
      modifies this
      ensures State() == Insert(old(State()), user)
    {
      store := store[user.id := user];
    }

    /** `get_user`; a query, it changes nothing. */
    method GetUser(id: u64) returns (r: Result<User>)
      ensures r == Get(State(), id)
    {
      match Lookup(State(), id)
      case Some(user) => r := Ok(user);
      case None => r := Err(NotFound);
    }

    /** `add_user` */
    method AddUser(payload: UserPayload, now: u64) returns (r: Option<User>)
      requires Valid() && counter < U64_MAX
      modifies this
      ensures Valid()
      ensures r.Some? && r.value.id == old(counter) && counter == old(counter) + 1
      ensures (State(), r) == Add(old(State()), payload, now)
    {
      var current := counter;
      var id := SetCounter(current + 1);
      var user := NewUser(id, payload, now);
      DoInsertUser(user);
      r := Some(user);
    }

    /** `update_user` */
    method UpdateUser(id: u64, payload: UserPayload, now: u64) returns (r: Result<User>)
      requires Valid()
      modifies this
      ensures Valid()
      ensures (State(), r) == Update(old(State()), id, payload, now)
    {
      match Lookup(State(), id)
      case Some(user) =>
        var updated := user.(username := payload.username, email := payload.email,
                             role := payload.role, updatedAt := Some(now));
        DoInsertUser(updated);
        r := Ok(updated);
      case None =>
        r := Err(NotFound);
    }

    /** `delete_user` */
    method DeleteUser(id: u64) returns (r: Result<User>)
      requires Valid()
      modifies this
      ensures Valid()
      ensures (State(), r) == Delete(old(State()), id)
    {
      var removed := Lookup(State(), id);
      store := store - {id};
      match removed
      case Some(user) => r := Ok(user);
      case None => r := Err(NotFound);
    }
  }
}
