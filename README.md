# Proof-of-existence pallet and lesson-4 exercises, modelled in Dafny

This project models two parts of a Substrate homework repository.

**The proof-of-existence pallet** (`lesson_5/lib.rs`) is a registry. Its `Proofs` storage map takes a
claim (an opaque byte vector, typically a content hash) to the account that owns it and the block
number at which it was created or last transferred. Three dispatchable calls change the map:

- `create_claim` fails with `ProofAlreadyExist` when the claim is already registered.
- `revoke_claim` fails with `ClaimNotExist` when the claim is absent. It fails with `NotClaimOwner` when the sender is not the owner. Existence is checked first.
- `transfer_claim` has the same two guards. It then rewrites the owner and the block number in place.

Each successful call deposits an event: `ClaimCreated`, `ClaimRevoked` or `ClaimTransfered`.

`poe.dfy` (module `ProofOfExistence`) holds the data model and one pure transition function per
call (`Create`, `Revoke`, `Transfer`). It also holds the class `Pallet`. The class keeps the storage
map and the event log as fields. Its methods `CreateClaim`, `RevokeClaim` and `TransferClaim` change
those fields in place, and each is proved equal to its transition function. `poe_lemmas.dfy` (module
`ProofOfExistenceLemmas`) proves properties that span several calls. The main one is that replaying
the event log from an empty registry rebuilds exactly the current claim-to-owner map.

**Lesson 4** (`lesson_4/src/main.rs`) has two small pure pieces, both in `lesson4.dfy`.
`Traffic.Time` is the traffic-light duration lookup. `CheckedSum.Sum` is the `u32` summation loop,
which returns `None` as soon as it meets `u32::MAX`.

Modelling choices:

- The sender is an `AccountId` parameter that has already been verified. `ensure_signed` is not part of this model.
- The current block (`frame_system::Pallet::block_number()`) is a parameter `now` of the calls that record it.
- `AccountId` and `BlockNumber` are `nat`. The source leaves them generic through `Config`. Only equality of accounts matters here.
- A claim is a `seq<byte>`.
- Events are appended to a sequence in the order they are deposited.

## Model

| member | source | states |
|---|---|---|
| `ProofOfExistence.Create` | lesson_5/lib.rs:65-83 | Succeeds exactly when the claim is absent. On failure the error is `ProofAlreadyExist` and the state is unchanged. On success the claim maps to `(sender, now)`, the key set grows by that claim only, every other entry is untouched, and `ClaimCreated(sender, claim)` is appended to the events |
| `ProofOfExistence.Revoke` | lesson_5/lib.rs:87-100 | `ClaimNotExist` exactly when the claim is absent, whoever the sender. `NotClaimOwner` exactly when it is present with another owner. Success exactly when the sender owns it. Failure leaves the state unchanged. Success removes exactly that key, keeps every other entry, and appends `ClaimRevoked(sender, claim)` |
| `ProofOfExistence.Transfer` | lesson_5/lib.rs:104-124 | The same two guards, in the same order, as revoke. Failure leaves the state unchanged. Success keeps the key set, maps the claim to `(recv, now)`, keeps every other entry, and appends `ClaimTransfered(sender, claim, recv)` |
| `ProofOfExistence.Pallet.constructor` | lesson_5/lib.rs:25-42 | A fresh pallet has an empty `Proofs` map and no events |
| `ProofOfExistence.Pallet.CreateClaim` | lesson_5/lib.rs:65-83 | The in-place update of the storage map and event log equals `Create` on the old state, and a failed call changes neither |
| `ProofOfExistence.Pallet.RevokeClaim` | lesson_5/lib.rs:87-100 | The in-place removal equals `Revoke` on the old state, and a failed call changes nothing |
| `ProofOfExistence.Pallet.TransferClaim` | lesson_5/lib.rs:104-124 | The in-place mutation equals `Transfer` on the old state, and a failed call changes nothing. The lookup after the existence check cannot fail |
| `ProofOfExistenceLemmas.DispatchKeepsAudited` | lesson_5/lib.rs:65-124 | Every call, successful or not, keeps the deposited events consistent with the map: replaying the log yields the current claim-to-owner map |
| `ProofOfExistenceLemmas.RunKeepsAudited` | lesson_5/lib.rs:65-124 | That consistency holds after any sequence of calls |
| `ProofOfExistenceLemmas.RegistryMatchesEventLog` | lesson_5/lib.rs:38-42 | From an empty registry, a claim is registered exactly when the log says it was created and not since revoked, and its owner is the one the last create or transfer event names |
| `ProofOfExistenceLemmas.OwnerChangesOnlyByTransfer` | lesson_5/lib.rs:117-120 | A stored owner changes only through a successful transfer of that claim, and only to the receiving account that transfer names |
| `ProofOfExistenceLemmas.CreateTwiceFails` | lesson_5/lib.rs:70-77 | After a successful create, a create of the same claim by anyone fails with `ProofAlreadyExist` and changes nothing |
| `ProofOfExistenceLemmas.RevokeTwiceFails` | lesson_5/lib.rs:91-96 | After a successful revoke the claim is absent, and a second revoke by anyone fails with `ClaimNotExist` |
| `ProofOfExistenceLemmas.TransferMovesOwnership` | lesson_5/lib.rs:109-120 | After a successful transfer the receiver can transfer the claim back. If the receiver is a different account, the previous owner's revoke and transfer fail with `NotClaimOwner` |
| `ProofOfExistenceLemmas.FailureChangesNothing` | lesson_5/lib.rs:65-124 | Any failing call leaves the map and the event log exactly as they were |
| `ProofOfExistenceLemmas.Scenario` | lesson_5/lib.rs:65-124 | A concrete run: create, a non-owner revoke that fails, a transfer, a revoke by the former owner that fails, and a revoke by the new owner. It gives the expected results, entries and event log |
| `Traffic.Time` | lesson_4/src/main.rs:6-28 | Every light maps to one of the three constants 20, 10 and 5. Each is positive, red's is the longest, and a duration of 20 (resp. 5) means red (resp. yellow) |
| `Traffic.TimeValues` | lesson_4/src/main.rs:91-93 | Red takes 20, green 10 and yellow 5 |
| `CheckedSum.FirstMax` | lesson_4/src/main.rs:34-37 | The index at which the loop returns early: no earlier element equals `u32::MAX`, and the element at that index, if any, does |
| `CheckedSum.Expected` | lesson_4/src/main.rs:32-41 | `None` exactly when some element equals `u32::MAX`, otherwise `Some` of the arithmetic total of all elements |
| `CheckedSum.Sum` | lesson_4/src/main.rs:32-41 | The accumulator loop returns exactly `Expected(list)`, provided the running total stays within `u32` |
| `CheckedSum.SumEmpty` | lesson_4/src/main.rs:33-40 | The empty slice sums to `Some(0)` |
| `CheckedSum.SumOneAndMax` | lesson_4/src/main.rs:96-97 | `[1, u32::MAX]` sums to `None` |

## Left out

- `CheckedSum.Sum`: requires that the total of the elements before the first `u32::MAX` fits in a `u32`. Line 38 adds without a check, which panics in a debug build and wraps in a release build. The model does not cover either outcome.
- `ensure_signed` and the `BadOrigin` error it raises: the sender is taken as already verified.
- `frame_system::Pallet::block_number()`: the current block is a parameter. Nothing in the source makes it increase from call to call, so no monotonicity is claimed.
- FRAME macros, the call weights, `Blake2_128Concat` key hashing, the `Config` associated types and the mechanics of `deposit_event` are runtime plumbing. Events are modelled as appends to a sequence.
- The `Area` trait, `Circle`, `Triangle`, `Rectangle` and `print_area` in lesson 4 compute with floating point and `PI`.
- `main` in lesson 4 prints. Its `assert_eq!` checks appear as the lemmas `Traffic.TimeValues` and `CheckedSum.SumOneAndMax`.
- The lesson-3 TCP echo server is socket I/O and thread concurrency.
