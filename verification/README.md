# Ark client reconciliation core, in Dafny

This project models the ledger-reconciliation part of the ark-rs client (`ark-client/src/lib.rs`). An Ark wallet holds off-chain outputs (VTXOs) that the coordinator reports. It also holds on-chain boarding outputs that a blockchain explorer reports. The client reconciles the two views in five operations:

- **Addresses**: `get_offchain_addresses` and `get_boarding_addresses`. Each always yields a single address: the session's one default VTXO and its Ark address, or the wallet's one boarding address.
- **Listing**: `list_vtxos` appends each address's `spendable` and `spent` lists, in address order, onto initially empty lists.
- **Spendability**: `spendable_vtxos` walks each address's spendable VTXOs and looks each one up among the explorer's outputs at the VTXO script address. As written, it keeps every VTXO (see Findings).
- **Balance**: `offchain_balance` folds those VTXOs into a `pending` and a `confirmed` bucket by each VTXO's `is_pending` flag. `OffChainBalance::total` is their sum.
- **History**: `transaction_history` does three things. It emits one boarding record per explorer output at the boarding address. It collects the round txids that spent those outputs. It then hands the coordinator's listing to `ark_core`'s incoming and outgoing generators. Finally, `sort_by_key` stably sorts boarding ++ incoming ++ outgoing by creation time.

Every collaborator is an input of the model, a function-typed field of the `Client` value:

- the coordinator's `list_vtxos`;
- the explorer's `find_outpoints` and `get_output_status`;
- the boarding wallet;
- the taproot derivations of `DefaultVtxo`;
- `ark_core`'s generators and `created_at`.

The current time is a parameter `now`, in seconds since the epoch. `list_vtxos`, `spendable_vtxos` and `transaction_history` are methods whose loops mirror the Rust loops; each is proved equal to a recursive specification function (`ListAll`, `SpendableAll`, `HistoryOf`). The address operations are functions, as their Rust bodies are plain expressions. `offchain_balance` is a method without a loop: it calls `SpendableVtxos` and folds the result with the function `BalanceOf`, and its contract states the bucket sums directly. Lemmas then state what those functions compute. `?` becomes Dafny's `:-`, so a collaborator error ends the whole operation with that error and no partial result.

The accumulators that Rust grows with `push` and `append` are local sequences that the methods reassign. The operations do not change the client, so they are methods without `modifies`. The in-place sort is `StableSort.SortByKey`, a stable insertion sort. It is proved sorted, a permutation, and order-preserving among equal keys. A further lemma shows that these properties pin the result down, so any stable sort gives the same sequence.

Files: `ark_types.dfy` (values, errors, collaborators), `addresses.dfy`, `listing.dfy`, `spendable.dfy`, `balance.dfy`, `stable_sort.dfy`, `history.dfy`.

## Model

| member | source | states |
|---|---|---|
| Addresses.GetOffchainAddresses | ark-client/src/lib.rs:292-315 | exactly one address, the one `get_offchain_address` gives: the session's default VTXO (built with its helpers `SessionVtxo` and `GetOffchainAddress` from the coordinator's key, the owner's key, the exit delay and the network) paired with its Ark address |
| Addresses.GetBoardingAddress | ark-client/src/lib.rs:318-328 | the boarding output is requested with the coordinator's key, exit delay, descriptor template and network; its address is returned, or the wallet's error |
| Addresses.GetBoardingAddresses | ark-client/src/lib.rs:330-334 | succeeds exactly when `get_boarding_address` does, then with the one-element list of that address; otherwise with its error |
| Listing.ListAllMerges | ark-client/src/lib.rs:339-348 | the merged listing succeeds iff every coordinator call does; spendable and spent are then the in-order concatenations of each address's lists; on failure the error is that of the first failing call, all earlier calls having succeeded |
| Listing.ListAllSingle | ark-client/src/lib.rs:344-348 | merging a single address's listing onto empty lists gives the coordinator's answer unchanged |
| Listing.ListVtxos | ark-client/src/lib.rs:336-351 | the loop's result is the merged listing of the off-chain addresses, which is the coordinator's answer for the session's address |
| Spendable.FindOutpoint | ark-client/src/lib.rs:371-374 | None iff no explorer output has the VTXO's outpoint; otherwise the first output that has it |
| Spendable.NowAsDuration | ark-client/src/lib.rs:381 | converting `now` succeeds iff it is not before the epoch, keeping its value; otherwise it fails with the ad-hoc error |
| Spendable.KeepSpendableKeepsAll | ark-client/src/lib.rs:369-393 | the walk over one address's spendable VTXOs returns them all, in order, whatever the explorer or the claim predicate says; it fails, with the ad-hoc conversion error, iff some VTXO has a confirmed explorer match while `now` is before the epoch |
| Spendable.SpendableForKeepsAll | ark-client/src/lib.rs:365-395 | one address's entry exists iff its coordinator and explorer calls succeed and the time converts; it then pairs the coordinator's spendable list, unchanged, with the address's default VTXO |
| Spendable.SpendableAllShape | ark-client/src/lib.rs:364-398 | succeeds iff every address's entry does; then there is one entry per off-chain address, in address order, each holding that address's coordinator spendable list and VTXO |
| Spendable.SpendableIgnoresClaimPredicate | ark-client/src/lib.rs:377-391 | the result, including any error, is the same for every unilateral-claim predicate |
| Spendable.ClaimableVtxoIsKept | ark-client/src/lib.rs:377-391 | a VTXO whose exit path is already active is kept by the match as written and dropped by the corrected one |
| Spendable.IntendedExcludesClaimable | ark-client/src/lib.rs:375-391 | the corrected walk fails exactly where the written one does; otherwise it keeps exactly the VTXOs that are not claimable, in their order |
| Spendable.SpendableVtxos | ark-client/src/lib.rs:359-399 | the nested loops return the entries of the off-chain addresses, as above, or the first error of a coordinator, explorer or time-conversion step |
| Balance.FoldSplitsByFlag | ark-client/src/lib.rs:403-415 | the fold adds the amounts of the pending VTXOs to `pending` and those of the others to `confirmed` |
| Balance.BucketsPartition | ark-client/src/lib.rs:406-415 | together the two buckets hold every VTXO exactly once |
| Balance.BucketSumsAddUp | ark-client/src/lib.rs:406-415 | the two bucket sums add up to the sum of all amounts |
| Balance.BucketsHonourFlag | ark-client/src/lib.rs:406-415 | the pending bucket holds only VTXOs flagged pending and the confirmed bucket only unflagged ones |
| Balance.BalanceOf | ark-client/src/lib.rs:203-221 | `pending()` is the sum over pending VTXOs, `confirmed()` the sum over the others, and `total()` the sum over all VTXOs of all entries |
| Balance.OffchainBalance | ark-client/src/lib.rs:401-418 | the balance exists iff `spendable_vtxos` succeeds, and otherwise carries its error; its buckets and total are the sums over the coordinator's spendable list for the session's address |
| StableSort.SortByKey | ark-client/src/lib.rs:472 | the sorted sequence is ascending by key, is a permutation of the input, and lists the elements of every key in their input order |
| StableSort.StableSortIsUnique | ark-client/src/lib.rs:472 | two sequences that are both sorted and agree on each key's elements in order are equal, so any stable sort yields the same result |
| History.CastToI64 | ark-client/src/lib.rs:435 | `t as i64` is congruent to `t` modulo 2^64; it keeps `t` up to `i64::MAX` and is negative above it |
| History.BoardingRecord | ark-client/src/lib.rs:435-441 | a boarding record with the output's txid and amount; its confirmation time is absent iff the output is unconfirmed, and otherwise is the blocktime cast to i64 |
| History.BoardingRecords | ark-client/src/lib.rs:428-441 | one boarding record per explorer output, at the same position |
| History.ScanOutputsRecords | ark-client/src/lib.rs:428-451 | scanning one address's outputs succeeds iff every spend-status call does; it then yields one record per output, in order, and a round txid t exactly when some output's status names t as its spender |
| History.ScanAddressesRecords | ark-client/src/lib.rs:424-452 | the boarding scan succeeds iff every explorer and status call does; its records and round txids are then those of all outputs found at the boarding addresses, address after address |
| History.HistoryIsStableMerge | ark-client/src/lib.rs:465-472 | the history exists iff every part does; it is then a permutation of boarding ++ incoming ++ outgoing, ascending by creation time, with equal times in the order boarding, incoming, outgoing |
| History.HistoryIsDetermined | ark-client/src/lib.rs:465-472 | any sequence that is sorted by creation time and merges the parts in that order is the history |
| History.PartsInputs | ark-client/src/lib.rs:454-463 | the boarding records come from the explorer's outputs at the boarding address; both generators get the coordinator's spent and spendable lists, and the incoming one also gets the round txids of those outputs |
| History.TransactionHistory | ark-client/src/lib.rs:420-475 | the nested loops, the listing, the generators and the sort return the history above, or the first collaborator error |

## Left out

- `OfflineClient::new`, `connect`, the gRPC handle and `get_round` are network transport. The model starts from a connected client whose handshake result is the `serverInfo` field.
- Async execution, the `Blockchain`, `BoardingWallet` and `OnchainWallet` traits, and their implementations are left out. Each call the core makes is a function field of `Client`, so its answers are inputs. The errors they return are passed on unchanged.
- `DefaultVtxo::new` is modelled by the record of its four inputs (coordinator key, owner key, exit delay, network), so the model treats that derivation as injective. The secp256k1 and taproot derivations over it (`to_ark_address`, `address`, `can_be_claimed_unilaterally_by_owner`) and `new_boarding_output` are uninterpreted function fields. The result of `new_boarding_output` is taken to be the boarding address directly.
- `generate_incoming_vtxo_transaction_history`, `generate_outgoing_vtxo_transaction_history` and `ArkTransaction::created_at` belong to `ark_core`. They are uninterpreted function fields. Only how their results are combined is modelled.
- `Timestamp::now()` reads the clock. It is the parameter `now`, a whole number of seconds. Sub-second precision is not modelled: an instant less than a second before the epoch converts in the model.
- `VtxoOutPoint` carries further fields (expiry, round and redeem txids, the spent flag) that only the history generators read. The model keeps the outpoint, amount and `is_pending`.
- Balance.BalanceOf: amounts are unbounded, so the panic of `Amount + Amount` on u64 overflow is not modelled.
- Balance.OffchainBalance: amounts are unbounded, so the panic of `Amount + Amount` on u64 overflow in its fold is not modelled.
- The rustdoc example, `tracing` logging and the ignored end-to-end boarding test have no reconciliation logic.
- Rust moves and mutates `Vec`s in place. The model reassigns immutable sequences instead, so aliasing and capacity are not modelled.

## Findings

The comments at ark-client/src/lib.rs:375-376 and 387-388 imply something the code does not do. They say a VTXO confirmed on chain is included only while the owner cannot yet exit unilaterally, and is excluded once the exit path is active. The code pushes the VTXO in the guarded arm and in the catch-all arm alike. So the guard has no effect on the result, and every spendable VTXO is kept.

The client operations (`SpendableVtxos`, `OffchainBalance`) follow the code as written, since that is what the wallet shows. The corrected walk, `KeepSpendableIntended`, is defined and proved next to it.

| source | as written | input that shows it | evidently intended | confidence | as-written member | corrected member |
|---|---|---|---|---|---|---|
| ark-client/src/lib.rs:377-391 | both match arms push the VTXO, so one whose unilateral exit is already possible stays in the spendable set and in the balance | a VTXO whose explorer output is confirmed at blocktime b, with `now` late enough that `can_be_claimed_unilaterally_by_owner(now, b)` is true: it is kept | keep only the VTXOs whose exit path is still inactive, and drop the claimable ones | not executed | Spendable.ClaimableVtxoIsKept | Spendable.IntendedExcludesClaimable |
