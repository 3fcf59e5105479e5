# Proof-of-existence claims and the numbers ledger, in Dafny

This project models two FRAME pallets of a Substrate node template.

**The proof-of-existence pallet** (`poe`) is a registry that maps a
fingerprint to a claim. A fingerprint is a byte string, usually a content
hash. A claim is the owning account and the block the claim was last
stamped in. There are three dispatchable calls:

- `create_claim` refuses a fingerprint longer than the runtime's bound
  (`ProofTooLong`) and one that is already claimed (`ProofAlreadyExist`).
- `revoke_claim` refuses an absent fingerprint (`ClaimNotExist`) and a
  caller that is not the owner (`NotClaimOwner`).
- `transfer_claim` refuses the same two cases. On success it rewrites both
  the owner and the block stamp.

A failed call leaves storage exactly as it was (`assert_noop!`).

`poe.dfy` has the calls twice:

- as pure transitions over the `Proofs` map (`CreateStep`, `RevokeStep`,
  `TransferStep`), with lemmas about single calls and about whole sequences
  of calls (`Execute`);
- as the class `PoeModule`, which holds the storage map and the deposited
  events and updates them in place.

`poe_tests.dfy` replays the pallet's unit tests against the class.

**The template pallet of the offchain-worker lesson** keeps a `Numbers`
map from a block index to a `u64`:

- `save_number` stores a number for a signed origin and deposits
  `NumberAppended`.
- The offchain worker computes the number to submit for block `index`: the
  number stored for `index - 1` (0 for index 0, and 0 for a missing entry)
  saturating-plus `(index + 1)` saturating-squared.

`template.dfy` models Rust's saturating `u64` operations and the
next-number rule, and proves what the running sum becomes:

- Let the worker run at blocks `0 .. n-1` and let each submitted number be
  stored.
- Then index `k` holds `min(1² + 2² + … + (k+1)², u64::MAX)`.

`frame.dfy` holds what both pallets share: `u64`, `Result`, origins and
`ensure_signed`.

Notes on sources:

- The `poe` pallet's own `lib.rs` is not part of this model. Its behaviour
  is taken from the assertions in its `tests.rs`.
- The check order in `create_claim` is an assumption: the length check
  comes before the existence check. No test observes the order.
- Revoke and transfer are assumed to check no length. No test observes
  this; with it, an over-long fingerprint is answered `ClaimNotExist` by
  revoke and transfer.
- The fingerprint bound is a constructor parameter of `PoeModule`. The
  tests accept 2 bytes and refuse 8, so the replayed tests require a bound
  between 2 and 7.
- The pallet's `lib.rs`, which declares the `poe` events, is not modelled.
  The payloads `ClaimCreated(who, f)`, `ClaimRevoked(who, f)` and
  `ClaimTransferred(who, to, f)` are an assumption.
- Two transfer tests have their names swapped relative to what they assert
  (tests.rs:93 and tests.rs:106). The model follows the assertions.

## Model

| member | source | states |
|---|---|---|
| `Frame.EnsureSigned` | lesson8/substrate-node-template/pallets/template/src/lib.rs:118 | a signed origin yields its signer; every other origin is refused with `BadOrigin` |
| `Poe.CreateStep` | lesson3/substrate-node-template/pallets/poe/src/tests.rs:10-42 | create succeeds iff the fingerprint is within the bound and unclaimed; over-long is `ProofTooLong` whether or not it is claimed; claimed is `ProofAlreadyExist`; on success the keys grow by exactly `f`, `f` maps to (caller, now), every other entry is untouched, and `ClaimCreated` is emitted |
| `Poe.RevokeStep` | lesson3/substrate-node-template/pallets/poe/src/tests.rs:45-78 | revoke succeeds iff the claim exists and the caller owns it; absent is `ClaimNotExist`, someone else's is `NotClaimOwner`; on success exactly `f` is removed and nothing else changes |
| `Poe.TransferStep` | lesson3/substrate-node-template/pallets/poe/src/tests.rs:81-115 | transfer succeeds iff the claim exists and the caller owns it; absent is `ClaimNotExist`, someone else's is `NotClaimOwner`; on success the key set is unchanged, `f` maps to (new owner, now) with both owner and stamp replaced, and other entries are untouched |
| `Poe.CreateTwiceFails` | lesson3/substrate-node-template/pallets/poe/src/tests.rs:19-30 | after a successful create of `f`, creating `f` again fails with `ProofAlreadyExist`, whoever the caller and whatever the block |
| `Poe.CreateThenRevoke` | lesson3/substrate-node-template/pallets/poe/src/tests.rs:45-53 | revoke undoes create: the creator revoking a claim just created succeeds and restores the original storage exactly |
| `Poe.RevokeThenCreate` | lesson3/substrate-node-template/pallets/poe/src/tests.rs:45-53 | create undoes revoke: in bounded storage, the former owner re-creating a revoked fingerprint at its old stamp restores the original storage exactly |
| `Poe.TransferBack` | lesson3/substrate-node-template/pallets/poe/src/tests.rs:81-90 | a transfer is undone by the new owner transferring back at the old stamp: the original storage is restored exactly |
| `Poe.FailureIsNoop` | lesson3/substrate-node-template/pallets/poe/src/tests.rs:25-28 | a failed call leaves storage unchanged, so repeating it (at any block) fails with the same error |
| `Poe.OnlyOwnerMutates` | lesson3/substrate-node-template/pallets/poe/src/tests.rs:67-103 | an existing claim whose owner is not the caller comes through any call (create, revoke or transfer, of any fingerprint) present and unchanged |
| `Poe.AfterKeepsBounded` | lesson3/substrate-node-template/pallets/poe/src/tests.rs:32-42 | if every stored fingerprint is within the bound, it stays so after any call |
| `Poe.AfterKeepsStamped` | lesson3/substrate-node-template/pallets/poe/src/tests.rs:81-90 | if no stamp is later than `now` and the clock does not go back, no stamp is later than the block of the next call |
| `Poe.AfterStampMonotone` | lesson3/substrate-node-template/pallets/poe/src/tests.rs:81-90 | with a clock that does not go back, one call never moves a stamp back: an entry that stays keeps its stamp or gets a later one, and a new entry is stamped no earlier than `now` |
| `Poe.AfterOwnersNamed` | lesson3/substrate-node-template/pallets/poe/src/tests.rs:81-90 | after any call, every owner was already an owner or is the caller or the transfer recipient |
| `Poe.ExecuteKeepsBounded` | lesson3/substrate-node-template/pallets/poe/src/tests.rs:32-42 | every sequence of calls keeps all stored fingerprints within the bound |
| `Poe.ExecuteKeepsStamped` | lesson3/substrate-node-template/pallets/poe/src/tests.rs:81-90 | with non-decreasing blocks, after any sequence no stamp is later than the block of the last call |
| `Poe.ExecuteStampMonotone` | lesson3/substrate-node-template/pallets/poe/src/tests.rs:81-90 | with non-decreasing blocks, a fingerprint present after any sequence of calls is stamped no earlier than it was at the start (or than the starting block, if it was absent), even if it was revoked and re-created in between |
| `Poe.ExecuteKeepsBystanderClaims` | lesson3/substrate-node-template/pallets/poe/src/tests.rs:67-103 | an account that makes none of the calls in a sequence keeps every claim it owned, with the same stamp |
| `Poe.ExecuteOwnersNamed` | lesson3/substrate-node-template/pallets/poe/src/tests.rs:81-90 | the registry never fabricates identities: after any sequence every owner was an owner before or is named by some call |
| `Poe.PoeModule.constructor` | lesson3/substrate-node-template/pallets/poe/src/tests.rs:12 | fresh test storage: no claims, no events, the given bound |
| `Poe.PoeModule.Proof` | lesson3/substrate-node-template/pallets/poe/src/tests.rs:15 | `Proofs::get` returns the stored claim, and `(0, 0)` for a fingerprint without an entry |
| `Poe.PoeModule.CreateClaim` | lesson3/substrate-node-template/pallets/poe/src/tests.rs:10-42 | keeps the length bound invariant; success and error agree with `CreateStep`; on success storage becomes `CreateStep`'s and one `ClaimCreated` is appended; on failure storage and events are unchanged |
| `Poe.PoeModule.RevokeClaim` | lesson3/substrate-node-template/pallets/poe/src/tests.rs:45-78 | keeps the invariant; agrees with `RevokeStep`; appends one `ClaimRevoked` on success; leaves storage and events unchanged on failure |
| `Poe.PoeModule.TransferClaim` | lesson3/substrate-node-template/pallets/poe/src/tests.rs:81-115 | keeps the invariant; agrees with `TransferStep`; appends one `ClaimTransferred` on success; leaves storage and events unchanged on failure |
| `PoeTests.CreateClaimWorks` | lesson3/substrate-node-template/pallets/poe/src/tests.rs:10-17 | creating `[0,1]` as account 1 succeeds and `get` then reads (1, current block) |
| `PoeTests.CreateClaimFailedWhenClaimAlreadyExist` | lesson3/substrate-node-template/pallets/poe/src/tests.rs:19-30 | the second create of `[0,1]` fails with `ProofAlreadyExist` and changes neither storage nor events |
| `PoeTests.CreateClaimFailedWhenClaimIsTooLong` | lesson3/substrate-node-template/pallets/poe/src/tests.rs:32-42 | with a bound between 2 and 7, an 8-byte fingerprint fails with `ProofTooLong` and changes nothing |
| `PoeTests.RevokeClaimWorks` | lesson3/substrate-node-template/pallets/poe/src/tests.rs:45-53 | the creator's revoke succeeds and the entry is gone afterwards |
| `PoeTests.RevokeClaimFailedWhenIsNotExist` | lesson3/substrate-node-template/pallets/poe/src/tests.rs:55-65 | revoking an unclaimed fingerprint fails with `ClaimNotExist` and changes nothing |
| `PoeTests.RevokeClaimFailedWithWrongOwner` | lesson3/substrate-node-template/pallets/poe/src/tests.rs:67-78 | account 2 revoking account 1's claim fails with `NotClaimOwner`; nothing changes and the entry still reads (1, creation block) |
| `PoeTests.TransferClaimWorks` | lesson3/substrate-node-template/pallets/poe/src/tests.rs:81-90 | the owner's transfer to account 2 succeeds and the entry reads (2, transfer block) |
| `PoeTests.TransferClaimFailedByNonOwner` | lesson3/substrate-node-template/pallets/poe/src/tests.rs:92-103 | account 2 transferring account 1's claim fails with `NotClaimOwner` and changes nothing |
| `PoeTests.TransferClaimFailedWhenAbsent` | lesson3/substrate-node-template/pallets/poe/src/tests.rs:105-115 | transferring an unclaimed fingerprint fails with `ClaimNotExist` and changes nothing |
| `Saturating.SaturatingAdd` | lesson8/substrate-node-template/pallets/template/src/lib.rs:161 | computed within 64 bits, the result is `min(a + b, u64::MAX)` and is at least each operand |
| `Saturating.SaturatingMul` | lesson8/substrate-node-template/pallets/template/src/lib.rs:161 | computed within 64 bits by a division test, the result is `min(a * b, u64::MAX)` |
| `Saturating.SaturatingPow` | lesson8/substrate-node-template/pallets/template/src/lib.rs:161 | by repeated saturating multiplication, the result is `min(base^exp, u64::MAX)` |
| `Template.Latest` | lesson8/substrate-node-template/pallets/template/src/lib.rs:155-159 | the predecessor is 0 at index 0; otherwise it is the number stored at `index - 1`, or 0 when that key is absent |
| `Template.NextNumber` | lesson8/substrate-node-template/pallets/template/src/lib.rs:155-161 | the next number is `min(latest + min((index+1)², u64::MAX), u64::MAX)` and never below `latest` |
| `Template.NextNumberExact` | lesson8/substrate-node-template/pallets/template/src/lib.rs:161 | when nothing saturates, the next number is exactly `latest + (index+1)²` |
| `Template.NextNumberSticksAtMax` | lesson8/substrate-node-template/pallets/template/src/lib.rs:161 | once the previous number is `u64::MAX`, so is the next |
| `Template.Submission` | lesson8/substrate-node-template/pallets/template/src/lib.rs:145-179 | the worker submits `save_number(block, NextNumber)` iff it has local accounts and the block number is below `u64::MAX`; no accounts, a block number beyond u64, and index `u64::MAX` (where `index + 1` overflows) each give their own error |
| `Template.ChainIsSumOfSquares` | lesson8/substrate-node-template/pallets/template/src/lib.rs:138-161 | after the worker's numbers for blocks `0..n-1` are stored in order, index `k < n` holds `min(Σ_{j≤k} (j+1)², u64::MAX)`, whatever the storage held before |
| `Template.ChainKeepsLater` | lesson8/substrate-node-template/pallets/template/src/lib.rs:138-161 | those runs leave every index `≥ n` exactly as it was |
| `Template.TemplateModule.constructor` | lesson8/substrate-node-template/pallets/template/src/lib.rs:78-82 | fresh storage: no numbers, no events |
| `Template.TemplateModule.Number` | lesson8/substrate-node-template/pallets/template/src/lib.rs:80 | `Numbers::get` is a value query: the stored number, or 0 for an absent index |
| `Template.TemplateModule.AddNumber` | lesson8/substrate-node-template/pallets/template/src/lib.rs:138-143 | `Numbers[index] := number`, overwriting, every other key unchanged; exactly one `NumberAppended(who, index, number)` appended |
| `Template.TemplateModule.SaveNumber` | lesson8/substrate-node-template/pallets/template/src/lib.rs:114-123 | succeeds iff the origin is signed; then it acts as `add_number` with the signer as `who`; otherwise `BadOrigin` with storage and events unchanged |
| `Template.TemplateModule.FetchNumberAndSigned` | lesson8/substrate-node-template/pallets/template/src/lib.rs:145-179 | reading storage step by step as the worker does, it returns exactly `Submission` for the current storage |

## Left out

- The `poe` pallet's `lib.rs` is not part of this model. The check order in `create_claim` (length first) is assumed, not read from code.
- `Poe.RevokeStep` and `Poe.TransferStep` are assumed to check no fingerprint length, because no test observes it; a pallet that did would answer `ProofTooLong` where the model answers `ClaimNotExist`.
- The payloads of the `poe` events are assumed, because the `lib.rs` that declares them is not part of this model.
- Origin checking in `poe`: callers arrive as already-resolved accounts. The template pallet models `ensure_signed` as a function of the origin, without signature verification.
- The block-number source and the mock runtime: the current block is a parameter of each call.
- The offchain worker's plumbing: `offchain_worker`, `Signer::all_accounts`, `send_signed_transaction` and the loop that logs its results. These are keystore, signing and transaction-pool calls into libraries that are not part of this model. `can_sign` becomes the boolean parameter `hasLocalAccounts`.
- The commented-out HTTP fetch `fetch_number` and the `SumInfo` JSON decoding: they are network I/O and not live code.
- Key types (`KEY_TYPE`, `app_crypto!`), logging, weights and the `decl_storage!`/`decl_event!`/`decl_module!` expansions: framework glue. The unused errors `NoneValue` and `StorageOverflow` are never raised.
- Event broadcasting: events are only recorded in an append-only log.
- `Template.Submission`: `index + 1` at `index == u64::MAX` is modelled as an overflow panic, as in a build with overflow checks. A build without them would wrap to 0, square to 0, and submit the previous number unchanged.
- `Template.Chain` assumes every submitted `save_number` is included in the block after it is made, in order. Transaction-pool delays and failures are not modelled.
- `Saturating.SaturatingPow`: the exponent is unbounded here; in Rust it is a `u32`. Only exponent 2 is used.
- Storage hashers (`blake2_128_concat`) and the SCALE encoding of keys: maps are compared by key equality only.
