# Insurance policy management backend: a Dafny model of its stores

This project models the persistence core of the insurance canister backend
(`src/backend/src/lib.rs`). There are two entity kinds, users and
life-insurance policies. Each kind is meant to own a counter cell that mints
ids and an ordered map from `u64` id to record, independent of the other
kind. The model keeps the two stores separate in that intended way. As
built for the canister, the code in fact lets them share one memory; see
"## Findings". Over that state, the model
covers the create, read, update and delete endpoints of each kind, and the
policy claim transition.

Layout:

- `types.dfy` (module `Types`): the records `User` and
  `LifeInsurancePolicy`, the enum `UserRole`, the two payloads, the error
  tags `NotFound` and `InvalidOperation`, and Rust's `u64` and `u32` as
  bounded integer subset types.
- `ids.dfy` (module `Ids`): the predicate "strictly increasing within
  `[lo, hi)`", used for the ids a trace mints.
- `shared_memory.dfy` (module `SharedMemory`): the two kinds aliased in
  one stable memory, as the canister build lays them out, far enough to
  exhibit the divergence listed under "## Findings".
- `users.dfy` (module `Users`) and `policies.dfy` (module `Policies`):
  - A value-level specification. A state datatype holds the counter and
    the map. Each endpoint is a function from the old state to the new
    state and a result. Lemmas relate several calls, and traces of calls
    (`Step` / `Run`).
  - A class (`UserStore`, `PolicyStore`) with `counter` and `store`
    fields, updated in place. Its methods follow the Rust code step by
    step: read the counter, `set` it, build the record, insert it; or
    get, modify fields, reinsert. Each method's postcondition ties the
    new state and its result to the specification function.

Conventions the model fixes:

- **Id minting.** The counter cell's `set` returns the previous value, and
  that value becomes the id. So the returned id equals the counter before
  the call, and the stored counter ends one above it. With separate stores
  each kind's first id is 0; in the shared-memory build the two kinds draw
  from one stored counter, so that holds only for the kind used first.
- **Time.** `ic_cdk::api::time()` is the parameter `now`. Within one
  update call the host time does not change, so the `time()` inside the
  claim closure is the same `now`. Nothing assumes time is monotone across
  calls.
- **Invariants.** With separate stores, two hold in every reachable state
  of a store (the shared-memory build breaks the first, because one kind
  can overwrite the other's entries):
  - `IdsBelowCounter`: every key is below the counter and equals the `id`
    of its record.
  - `AllActive` (policies only): every stored policy is active.

  The class `Valid()` predicates are these invariants. The value-level
  functions do not require them; facts that depend on them are stated as
  implications.

Two behaviours a caller might not expect, where the model follows the code:

- **Claim result.** A caller would expect `claim` to return the record as
  stored after the claim. The code returns the record from its first read instead
  (`lib.rs:301`), and that record is still unclaimed and carries the old
  `updated_at`. `Policies.Claim` returns that pre-write snapshot, and
  `Policies.ClaimReturnsStaleSnapshot` shows the returned value differs
  from what a later `get` reads. The code also reads the map twice: once
  in `claim_policy`, once in `_update_life_insurance_policy`. Calls are
  serialised, so the second read sees the same record.
- **`updated_at` ordering.** One might expect `updated_at` never to
  decrease. The code stamps whatever `time()` returns with no check, so the model
  stamps `now` as given and proves no ordering.

## Model

| member | source | states |
|---|---|---|
| `Users.Lookup` | src/backend/src/lib.rs:157-160 | `_get_user` yields `Some` exactly when the id is a key, carrying the stored record |
| `Users.Insert` | src/backend/src/lib.rs:81-84 | `do_insert_user` upserts under the record's own id: that key now holds the record, no other key changes, the counter is untouched |
| `Users.Remove` | src/backend/src/lib.rs:204-205 | the map's remove drops exactly that key, returns what the lookup would, and keeps every other record |
| `Users.Get` | src/backend/src/lib.rs:146-155 | `get_user` is `Ok(store[id])` iff the id is a key, otherwise `NotFound` |
| `Users.Add` | src/backend/src/lib.rs:162-182 | `add_user` returns `Some(user)` whose id is the pre-call counter; the counter becomes that id + 1; fields come from the payload, `created_at = now`, `updated_at = None`; the stored record equals the returned one; under the invariant the id was not a key (no overwrite) and the invariant holds after. The record literal (lib.rs:172-179) is its helper `NewUser` |
| `Users.Update` | src/backend/src/lib.rs:184-200 | `update_user` on an absent id is `NotFound` with the state unchanged; on a present id it replaces username, email and role, sets `updated_at = Some(now)`, keeps `id` and `created_at`, reinserts, changes no other key and returns the stored record |
| `Users.Delete` | src/backend/src/lib.rs:202-211 | `delete_user` returns the removed record on a present id, `NotFound` otherwise, and the map loses exactly that key |
| `Users.AddThenGet` | src/backend/src/lib.rs:172-181 | `get_user` of a just-added id returns exactly the record `add_user` returned |
| `Users.DeleteTwice` | src/backend/src/lib.rs:204-211 | a delete succeeds once; a second delete of the same id is `NotFound` and changes nothing |
| `Users.AddDeleteAdd` | src/backend/src/lib.rs:165-170 | add A, delete A, add B: B's id is A's id + 1, never A's id again |
| `Users.UpdateRepeated` | src/backend/src/lib.rs:186-199 | repeating an update with the same payload gives the same state and result as updating once at the later time |
| `Users.Step` | src/backend/src/lib.rs:146-211 | any one user call keeps the key/counter invariant, moves the counter by one exactly on add, and adds no key other than the old counter |
| `Users.Run` | src/backend/src/lib.rs:146-211 | any sequence of user calls keeps the invariant and leaves the counter advanced by the number of adds; it never goes down |
| `Users.MintedIdsIncreasing` | src/backend/src/lib.rs:165-170 | the ids returned by the adds in a trace are strictly increasing, at least the starting counter, below the final counter and never a key present at the start |
| `Users.RunNeverResurrects` | src/backend/src/lib.rs:186-211 | an id below the counter that is absent (for example, deleted) stays absent through any later sequence of calls |
| `Users.RunPreservesRecords` | src/backend/src/lib.rs:186-199 | across any trace, a user present at both ends has kept its `id` and `created_at` |
| `Users.UserStore.constructor` | src/backend/src/lib.rs:70-78 | the counter cell starts at 0 and the map is empty |
| `Users.UserStore.SetCounter` | src/backend/src/lib.rs:168 | the cell's `set` stores the new value and returns the previous one |
| `Users.UserStore.DoInsertUser` | src/backend/src/lib.rs:82-84 | in place, the new state is the upsert `Users.Insert` |
| `Users.UserStore.GetUser` | src/backend/src/lib.rs:148-160 | returns `Users.Get` of the current state and changes nothing |
| `Users.UserStore.AddUser` | src/backend/src/lib.rs:164-182 | reads the counter, sets it to +1 and uses the returned previous value as the id; new state and result are `Users.Add`'s; the invariant is kept |
| `Users.UserStore.UpdateUser` | src/backend/src/lib.rs:186-200 | get, modify three fields and `updated_at`, reinsert; new state and result are `Users.Update`'s; the invariant is kept |
| `Users.UserStore.DeleteUser` | src/backend/src/lib.rs:204-211 | remove and report; new state and result are `Users.Delete`'s; the invariant is kept |
| `Policies.Lookup` | src/backend/src/lib.rs:248-251 | `_get_life_insurance_policy` yields `Some` exactly when the id is a key, carrying the stored record |
| `Policies.Insert` | src/backend/src/lib.rs:141-144 | `do_insert_life_insurance_policy` upserts under the record's own id and changes nothing else |
| `Policies.Remove` | src/backend/src/lib.rs:278-279 | the map's remove drops exactly that key, returns what the lookup would, and keeps every other record |
| `Policies.Get` | src/backend/src/lib.rs:237-246 | `get_life_insurance_policy` is `Ok(store[id])` iff the id is a key, otherwise `NotFound` |
| `Policies.Add` | src/backend/src/lib.rs:213-235 | returns `Some(policy)` with id = pre-call counter, counter +1; `is_active`, not `is_claimed`, `created_at = now`, `updated_at = None`, holder, amount and tenure from the payload; stored equals returned; no overwrite under the invariant; keeps both invariants. The record literal (lib.rs:223-232) is its helper `NewPolicy` |
| `Policies.Update` | src/backend/src/lib.rs:253-274 | on an absent id `NotFound`, state unchanged; on a present id only amount, tenure and `updated_at = Some(now)` change; `id`, `policyholder_id` (despite the payload carrying one), both flags and `created_at` are kept; no other key changes |
| `Policies.Delete` | src/backend/src/lib.rs:276-288 | returns the removed policy on a present id, `NotFound` otherwise; the map loses exactly that key |
| `Policies.UpdateWith` | src/backend/src/lib.rs:314-330 | `_update_life_insurance_policy` stores `f(old record)` under the same key, touches no other key, and does nothing on an absent id |
| `Policies.Claim` | src/backend/src/lib.rs:290-312 | absent id: `NotFound`; present but not active-and-unclaimed: `InvalidOperation`, state unchanged; otherwise the stored record gets `is_claimed = true` and `updated_at = Some(now)` with all else equal, and the result is the pre-write record. Its parts: the guard at lib.rs:294 is `Claimable`, and the closure at lib.rs:296-300 is `MarkClaimed`, applied through `UpdateWith` |
| `Policies.AddThenGet` | src/backend/src/lib.rs:223-234 | `get` of a just-added id returns exactly the record `add` returned |
| `Policies.DeleteTwice` | src/backend/src/lib.rs:278-288 | a delete succeeds once; the second one is `NotFound` and changes nothing |
| `Policies.AddDeleteAdd` | src/backend/src/lib.rs:216-221 | add A, delete A, add B: B's id is A's id + 1 |
| `Policies.ClaimReturnsStaleSnapshot` | src/backend/src/lib.rs:292-301 | after a successful claim the returned record is unclaimed with the old `updated_at`, while a later `get` returns it claimed and stamped: the two differ |
| `Policies.ClaimTwice` | src/backend/src/lib.rs:294-306 | after a successful claim, claiming the same id again is `InvalidOperation` and changes nothing |
| `Policies.FreshPolicyClaimedOnce` | src/backend/src/lib.rs:223-234 | a just-added policy can be claimed, the claim returns the record as created, and a second claim is refused |
| `Policies.UpdateRepeated` | src/backend/src/lib.rs:259-265 | repeating an update with the same payload equals one update at the later time |
| `Policies.Step` | src/backend/src/lib.rs:237-312 | any one policy call keeps `IdsBelowCounter` and `AllActive`, moves the counter by one exactly on add, and adds no key other than the old counter |
| `Policies.Run` | src/backend/src/lib.rs:237-312 | any sequence of policy calls keeps both invariants and leaves the counter advanced by the number of adds |
| `Policies.MintedIdsIncreasing` | src/backend/src/lib.rs:216-221 | ids returned by the adds of a trace are strictly increasing, at least the starting counter, below the final counter, never a key present at the start |
| `Policies.RunNeverResurrects` | src/backend/src/lib.rs:259-288 | an absent id below the counter stays absent through any later calls |
| `Policies.StepPreservesRecords` | src/backend/src/lib.rs:259-299 | one call keeps each surviving policy's id, holder, `created_at` and `is_active`, and never turns `is_claimed` back to false |
| `Policies.RunPreservesRecords` | src/backend/src/lib.rs:259-299 | across any trace, a policy present at both ends kept id, holder, `created_at` and `is_active`, and a claimed policy is still claimed |
| `Policies.RunFromInitialAllActive` | src/backend/src/lib.rs:227-228 | from the initial state every trace leaves only active policies: nothing sets `is_active` to false |
| `Policies.PolicyStore.constructor` | src/backend/src/lib.rs:130-138 | the counter cell starts at 0 and the map is empty |
| `Policies.PolicyStore.SetCounter` | src/backend/src/lib.rs:219 | the cell's `set` stores the new value and returns the previous one |
| `Policies.PolicyStore.DoInsertPolicy` | src/backend/src/lib.rs:142-144 | in place, the new state is the upsert `Policies.Insert` |
| `Policies.PolicyStore.GetPolicy` | src/backend/src/lib.rs:239-251 | returns `Policies.Get` of the current state and changes nothing |
| `Policies.PolicyStore.AddPolicy` | src/backend/src/lib.rs:215-235 | sets the counter to +1 and uses the returned previous value as the id; new state and result are `Policies.Add`'s; both invariants kept |
| `Policies.PolicyStore.UpdatePolicy` | src/backend/src/lib.rs:255-274 | get, change amount, tenure and `updated_at`, reinsert; new state and result are `Policies.Update`'s; both invariants kept |
| `Policies.PolicyStore.DeletePolicy` | src/backend/src/lib.rs:278-288 | remove and report; new state and result are `Policies.Delete`'s; both invariants kept |
| `Policies.PolicyStore.UpdatePolicyWith` | src/backend/src/lib.rs:315-330 | re-reads the map, applies the closure and reinserts under the same key; the new state is `Policies.UpdateWith`'s |
| `Policies.PolicyStore.ClaimPolicy` | src/backend/src/lib.rs:291-312 | first read decides, the write goes through `UpdatePolicyWith` with the marking closure, the first read is returned; state and result are `Policies.Claim`'s, so on success the returned record is unclaimed while the stored one is claimed |
| `SharedMemory.CounterSeen` | src/backend/src/lib.rs:70-73 | a kind's counter is its cached cell value, or the shared stored cell's value when that kind's cell is first initialised |
| `SharedMemory.AddUser` | src/backend/src/lib.rs:164-182 | `add_user` over the shared memory: id from the user cell's cache, shared cell and cache set to id + 1, user written into the shared tree; the policy cache is untouched |
| `SharedMemory.AddPolicy` | src/backend/src/lib.rs:215-235 | `add_life_insurance_policy` over the shared memory: id from the policy cell's cache (loaded from the shared cell on first use), policy written into the shared tree |
| `SharedMemory.GetPolicy` | src/backend/src/lib.rs:99-106 | reading the shared tree as policies: absent is `NotFound`, a policy entry is returned, and a user entry traps in the decode's `unwrap` |
| `SharedMemory.SharedMemoryCounterexample` | src/backend/src/lib.rs:126-138 | fresh canister, user / policy / user: ids 0, 1, 1; the second user overwrites the policy, and reading policy 0 or 1 then traps |
| `SharedMemory.SeparateStoresScenario` | src/backend/src/lib.rs:65-79 | with separate stores the same calls give ids 0, 0, 1, and the policy reads back as created |

## Left out

- Byte encoding: the `Storable` impls (Candid `Encode!`/`Decode!` with `unwrap`) and the `BoundedStorable` bound `MAX_SIZE = 1024` belong to library code. Records are datatypes, and neither the size bound nor a decode failure is modelled.
- Memory management: `MemoryManager`, virtual memories, and the internals of `StableBTreeMap` and `Cell` are library code. The map is a Dafny `map` and the cell is a field. The code creates one memory manager per kind (memory 0 for the counter, 1 for the map), but on wasm32 both managers open the canister's single stable memory. The model keeps the stores separate, as intended. `SharedMemory` models the aliasing only far enough to exhibit it: it leaves out the B-tree's and the allocator's per-instance caches, and the two managers' separate bucket bookkeeping.
- Persistence across upgrades: re-initialising a cell or map over existing memory recovers its contents. The constructors model only the first initialisation (counter 0, empty map).
- Time: `ic_cdk::api::time()` is a host call and is passed in as `now`.
- Glue: `thread_local!`/`RefCell` borrowing, the query/update attributes, `export_candid!`, and the `Default` impls of the records and `UserRole`, which no core operation uses.
- Error messages: the `format!`ed `msg` strings; `Error` carries its tag only.
- The `expect` after the counter's `set`: `Cell::set` fails only when memory cannot grow, which is a host condition outside the model.
- Users.Add: requires `counter < U64_MAX`. `current_value + 1` at `u64::MAX` would overflow, and that path (wrap-around or trap) is not modelled. The same holds for `Policies.Add`, `AddUser`, `AddPolicy`, and for traces via `AddCount`.
- Policies.Add: same overflow precondition as `Users.Add`.
- Concurrency: calls run one at a time, so each method is one sequential read-modify-write.
- Cross-store checks: `policyholder_id` is never checked against the user store, and usernames and emails are never validated. The code does neither, so the model does neither.

## Findings

| source | as written | input that shows it | evidently intended | confidence | as-written member | corrected member |
|---|---|---|---|---|---|---|
| src/backend/src/lib.rs:65-79 | Both kinds call `MemoryManager::init(DefaultMemoryImpl::default())` (lines 66-68, 126-128). On wasm32 that is the one stable memory, so the second manager loads the first one's layout: both kinds share memory 0 (the counter) and memory 1 (the tree), and each `Cell` keeps its own cached counter | fresh canister; `add_user` gets id 0; `add_life_insurance_policy` gets id 1; a second `add_user` also gets id 1 and overwrites that policy; `get_life_insurance_policy(0)` and `(1)` then find user bytes and trap in `Decode!(..).unwrap()` | two independent stores, each numbering from 0, neither touching the other's records | not executed; read from the library's wasm32 default memory | `SharedMemory.SharedMemoryCounterexample` | `SharedMemory.SeparateStoresScenario` (the separate `Users` and `Policies` stores the rest of the model uses) |
