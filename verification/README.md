# Club-membership pallet, modelled in Dafny

A model of the Substrate pallet that keeps club memberships. A club has a `u32` id and an ordered list of member accounts. Clubs live in one storage map, `ClubMembers: u32 -> Club`. That map uses value-query reads: a key that was never written reads as `Club::default()`, which is id 1 with no members. The pallet has three dispatchables:

- `create_club` announces club 1 for the caller.
- `add_member` pushes the caller onto a copy of the club's member list.
- `remove_member` removes the caller from copies of the club's member list.

Each one deposits exactly one event and returns `Ok(())`.

The model follows the code as written. Every storage access in `add_member` and `remove_member` is a `get`. A `get` returns a copy, and no copy is ever written back. So no dispatchable changes the store. Each dispatchable is a pure function from `(store, origin, club id)` to a `Step`, which holds four things:

- the store afterwards;
- the events deposited;
- the dispatch result;
- the member lists the call built in memory and then dropped.

Because the dropped lists are part of the result, the contracts can describe the working copy and what reaches storage separately.

Modules:

- `Clubs` covers the `Club` record, its default and the store with value-query `Get`.
- `Events`, `Errors` and `Origins` cover the event enum, the error enum with `DispatchResult`, and the origin with the double `unwrap`.
- `Lists` covers `Vec::push`, `Vec::remove` and the index walk of the removal loop.
- `Pallet` covers the dispatchables.
- `Scenarios` covers blocks of extrinsics, the unit test and the benchmark.
- `Persisted` is the corrected `add_member` (see Findings).

Accounts are modelled as `nat`, because the pallet only compares them for equality.

The pallet declares errors it never raises: `NoneValue`, `StorageOverflow`, `MemnerAlreadyExists` (spelled so) and `MemberInvalid`. The name `MemnerAlreadyExists` suggests an add that refuses a caller already listed. The comment at the hardcoded club id says the id "should be a random". `lib.rs` implements neither, and the model follows the code. So the model has no membership check, a repeat caller is appended twice, the id is always 1, and every signed dispatch returns `Ok`.

## Model

| member | source | states |
|---|---|---|
| `Clubs.Get` | pallets/template/src/lib.rs:36-57 | A stored key reads as its stored club. A key never written reads as the default club: id 1, no members. |
| `Clubs.EmptyStoreReadsDefault` | pallets/template/src/lib.rs:50-56 | Every key of the empty store reads as `Club { id: 1, members: [] }`. |
| `Origins.EnsureSignedOrRoot` | pallets/template/src/lib.rs:92 | A signed origin yields `Ok(Some(who))` for exactly its account. Root yields `Ok(None)`. An unsigned origin is rejected. |
| `Origins.Caller` | pallets/template/src/lib.rs:104 | When both unwraps succeed, the origin is `Signed(who)` for the returned account. |
| `Origins.UnwrapsIffSigned` | pallets/template/src/lib.rs:117 | The double `unwrap` succeeds if and only if the origin is signed. Root and unsigned origins panic. |
| `Lists.Push` | pallets/template/src/lib.rs:108 | Pushing grows the list by one, keeps every earlier element in place, and puts the new element last. |
| `Lists.PushCounts` | pallets/template/src/lib.rs:108 | Pushing adds exactly one occurrence. There is no membership check, so a present element ends up at least twice. |
| `Lists.RemoveAt` | pallets/template/src/lib.rs:124 | Needs an in-bounds index, because `Vec::remove` panics otherwise. The result is one shorter, the elements before and after the index keep their order, and exactly one occurrence of the removed element is gone. |
| `Lists.MatchIndices` | pallets/template/src/lib.rs:122-127 | The loop's index walk calls `remove` at exactly the positions holding the caller. These positions come in ascending order and are all in bounds. |
| `Lists.MatchIndicesCount` | pallets/template/src/lib.rs:121-127 | The walk calls `remove` exactly as many times as the caller occurs in the stored list. |
| `Pallet.CreateClub` | pallets/template/src/lib.rs:91-100 | With a signed caller: returns Ok, leaves the store as it was, and emits exactly `Club(1, who)`. |
| `Pallet.AddMember` | pallets/template/src/lib.rs:103-113 | Returns Ok and emits exactly `AddMember(who)`. The store is unchanged. The one working copy is the stored list with `who` appended: one longer, prefix kept, `who` last. |
| `Pallet.RemovalCopies` | pallets/template/src/lib.rs:119-129 | The loop builds one copy per occurrence of the caller, in index order. The k-th copy is the stored list with the element at the k-th position holding the caller taken out. The elements before it are unchanged and the ones after it move one place left. Each copy is one shorter and lacks exactly one occurrence of the caller. |
| `Pallet.RemoveMember` | pallets/template/src/lib.rs:116-134 | Returns Ok, leaves the store as it was, and emits exactly `RemoveMember(who)`. An absent caller skips the loop, so nothing is built. A present caller gets one dropped copy per position holding it. Each copy is the stored list with that position taken out, the rest kept in order. |
| `Pallet.RemoveMemberSingleOccurrence` | pallets/template/src/lib.rs:121-128 | When the caller occurs exactly once in the stored list, at position i, `remove_member` drops exactly one copy: the stored list with position i taken out and the rest in stored order. |
| `Pallet.Dispatch` | pallets/template/src/lib.rs:88-135 | Any call with a signed origin returns Ok and leaves the store unchanged. It emits exactly one event of the call's own kind: `Club(1, who)` for create, `AddMember(who)` for add, `RemoveMember(who)` for remove. |
| `Pallet.NoDeclaredErrorIsRaised` | pallets/template/src/lib.rs:74-83 | None of `NoneValue`, `StorageOverflow`, `MemnerAlreadyExists` or `MemberInvalid` is ever returned by a signed dispatch. |
| `Pallet.AddMemberIsNotPersisted` | pallets/template/src/lib.rs:106-112 | After `add_member`, the club as stored differs from the working copy: the push never reaches storage. |
| `Pallet.AddMemberDuplicates` | pallets/template/src/lib.rs:106-108 | The working copy holds the caller once more than the stored list. A caller already listed therefore appears at least twice. |
| `Pallet.CreateClubCollides` | pallets/template/src/lib.rs:94-97 | Any two `create_club` calls announce the same club id, whatever the store or caller. |
| `Scenarios.Run` | pallets/template/src/lib.rs:88-135 | A block of signed calls leaves the store as it was. It yields one event and one result per call, and every result is Ok. |
| `Scenarios.RunEventsAreIndependent` | pallets/template/src/lib.rs:106-131 | In a block, the i-th event equals the event the i-th call alone would emit against the block's initial store. Earlier calls influence nothing later. |
| `Scenarios.AddThenRemoveSucceeds` | pallets/template/src/tests.rs:5-12 | Account 1 adding itself to club 1 and then removing itself gives two Ok results. The removal finds no member to remove. |
| `Scenarios.BenchmarkExpectationUnmet` | pallets/template/src/benchmarking.rs:12-17 | After `add_member` by a caller on club 1 of a fresh store, club 1 still reads as empty. It does not hold `[caller]`, which is how the model reads the benchmark's assertion. |
| `Persisted.AddMember` | pallets/template/src/lib.rs:103-113 | The corrected `add_member` writes the pushed list back. The club then reads as the old list plus the caller, with its id kept. Every other club is untouched, and the same single event is emitted. |
| `Persisted.BenchmarkExpectationMet` | pallets/template/src/benchmarking.rs:12-17 | With the write-back, club 1 reads as exactly `[caller]` after one `add_member` on a fresh store. |

## Left out

- FRAME macro machinery is left out, because it is host framework plumbing. This covers the `#[pallet::*]` attributes, `Config`, `PhantomData`, `generate_store` and `without_storage_info`.
- Weights (`#[pallet::weight(10_000)]`) are left out, because fee accounting does not affect the logic.
- SCALE encoding, `TypeInfo` and `Blake2_128Concat` key hashing are left out. The store is an abstract map from club id to club.
- `deposit_event` is modelled as the list of events a call emits, and `Scenarios.Run` appends these lists in order. The runtime's event records (phase, topics) are left out.
- `ensure_signed_or_root` is external to the pallet. Only its outcome per origin kind is modelled.
- The `unwrap` panics on root and unsigned origins are stated as the precondition "origin is signed", not as control flow.
- The `usize` index of the removal loop is unbounded in the model. A member list cannot exceed `usize` anyway.
- The benchmark and mock runtime are not modelled. `benchmarking.rs` is cited only for the expectation it states.
- `remove_member` has no corrected counterpart. Its index walk keeps counting after each removal. With a write-back, a second occurrence would be removed at a shifted index, or panic out of bounds. The intended behaviour for duplicates therefore cannot be read off the code. As written this never happens, because every removal acts on a fresh copy, and `Lists.RemoveAt`'s precondition is discharged for every index the walk visits.

## Findings

| source | as written | input that shows it | evidently intended | confidence | as-written member | corrected member |
|---|---|---|---|---|---|---|
| pallets/template/src/lib.rs:106-108 | `add_member` pushes the caller onto the copy `get` returns and never stores it. | On an empty store, `add_member(Signed(c), 1)` leaves club 1 reading `[]`. | Club 1's members are `[c]`. This is how the model reads benchmarking.rs:16. The benchmark does not compile as written: it passes no club id (line 14), and it compares a `Club` with an `Option` of a list. The model reads it as calling club 1 and comparing the member list. | not executed; high | `Pallet.AddMember`, `Scenarios.BenchmarkExpectationUnmet` | `Persisted.AddMember`, `Persisted.BenchmarkExpectationMet` |

The dispatch-level model (`Pallet.Dispatch`, `Scenarios.Run`) keeps the behaviour as written, because that is what the pallet does on chain. `Persisted.AddMember` states the behaviour the benchmark relies on.
