# Counter-and-whitelist contract, modelled in Dafny

This project models the CosmWasm contract in `src/contract.rs`. The contract keeps one persisted record: a signed 32-bit
counter, the owner's address and an ordered whitelist of address strings. Its execute handlers work on that record:

- increment, open to anyone;
- reset, owner only;
- add to the whitelist and remove from it, both owner only;
- distribute, an owner-only payout check.

Two queries read the record back.

Layout:

- `types.dfy` (module `Types`): the `i32` and `u128` ranges, the record `State`, the instantiate, execute and query
  messages, `Coin`, `BankMsg`, `Response` and `ContractError`.
- `whitelist.dfy` (module `Whitelist`): `Without`, the value that `Vec::retain(|a| !addresses.contains(a))` leaves
  behind, and lemmas about it. These cover order, multiplicities, no-op removal, idempotence and removal undoing an add.
- `bank.dfy` (module `Bank`): what it means for a payout plan to pay every whitelist entry, and how much of a
  denomination a plan moves.
- `contract.dfy` (module `CounterContract`): class `Contract`. Its fields are the record. Each execute handler is a
  method that commits only when it succeeds; a failed handler leaves every field as it was, as `STATE.update` does. The
  dispatcher is a method, and the queries are functions.
- `contract_tests.dfy` (module `ContractTests`): the source's unit tests, plus a few scenarios of the same kind, written
  as methods. Each method's postcondition is what the test asserts.

Modelling decisions:

- **Owner.** The owner is a field that only `Instantiate` assigns. Every handler and the dispatcher promise
  `owner == old(owner)`.
- **Counter overflow.** `state.count += 1` and `amount * whitelist_len` overflow in the compiled contract only by
  panicking. This assumes overflow checks are enabled, as the CosmWasm release profile does; the build configuration
  is not part of this model. A panic aborts the call and commits nothing. The model writes this out as the error
  `Overflow` with the state unchanged; it never wraps.
- **Reset.** Reset accepts any `i32`.
- **Distribution.** The handler has no `modifies` clause, because the source gives it read-only `Deps`. It builds the
  transfers with a `for` loop, one per whitelist entry in order. They come back in a separate out-parameter, `plan`, and
  the `Response` carries no messages. This matches `src/contract.rs:129`, which discards the plan.
- **Followed as written.** The distribution handler discards its transfer plan (src/contract.rs:129). Its funds error
  is `InsufficientError`. Nothing in the contract refuses a second instantiation.

## Model

| member | source | states |
|---|---|---|
| `CounterContract.Contract.Instantiate` | src/contract.rs:16-34 | the new record has the message's count and whitelist unvalidated, the sender as owner, and the response has no messages |
| `CounterContract.Contract.Execute` | src/contract.rs:37-50 | dispatch: owner never changes; any failure leaves the whole record unchanged; a success emits no messages; a non-owner gets `Unauthorized` on everything but increment; per message, the new count/whitelist and when it succeeds; distribute never changes the record |
| `CounterContract.Contract.TryIncrement` | src/contract.rs:52-59 | any caller: count becomes count + 1 with owner and whitelist unchanged; at the `i32` maximum it fails with `Overflow` and nothing changes |
| `CounterContract.Contract.TryReset` | src/contract.rs:61-70 | non-owner: `Unauthorized`, record unchanged; owner: count becomes the given `i32`, owner and whitelist unchanged |
| `CounterContract.Contract.TryAddWhitelist` | src/contract.rs:73-83 | owner: whitelist becomes old whitelist + addresses (order and duplicates kept), count and owner unchanged; non-owner: `Unauthorized`, nothing changes |
| `CounterContract.Contract.TryRemoveWhitelist` | src/contract.rs:85-95 | owner: whitelist becomes `Without(old whitelist, addresses)`, count and owner unchanged; non-owner: `Unauthorized`, nothing changes |
| `CounterContract.Contract.TryTokenDistribute` | src/contract.rs:97-131 | non-owner: `Unauthorized`; `amount * len` beyond `u128`: `Overflow`; balance below the total: `InsufficientError`; succeeds exactly when the owner calls and the total fits the balance; on success the plan holds one transfer of `amount` `denom` per whitelist entry in order, moves no more than the balance, and the response carries none of it; the record is never written |
| `CounterContract.Contract.QueryCount` | src/contract.rs:142-145 | answers the stored count |
| `CounterContract.Contract.QueryWhitelist` | src/contract.rs:147-150 | answers the stored whitelist, order and duplicates included |
| `CounterContract.Contract.Query` | src/contract.rs:135-140 | `GetCount` answers the stored count, `GetWhitelist` the stored whitelist; reading only, so two reads in a row agree |
| `Whitelist.Without` | src/contract.rs:90 | the result is no longer than the list, and every surviving value was listed and is not in the removal list |
| `Whitelist.WithoutIsSubsequence` | src/contract.rs:90 | the survivors are a subsequence of the list: original order kept |
| `Whitelist.WithoutMultiplicity` | src/contract.rs:90 | a removed value occurs zero times afterwards; any other value keeps exactly its number of occurrences |
| `Whitelist.WithoutAbsent` | src/contract.rs:90 | removing values none of which is listed leaves the list unchanged |
| `Whitelist.WithoutCovered` | src/contract.rs:90 | removing every listed value empties the list |
| `Whitelist.WithoutIdempotent` | src/contract.rs:90 | applying the same removal twice equals applying it once |
| `Whitelist.WithoutAppend` | src/contract.rs:78-90 | removal from a concatenation is the concatenation of the removals |
| `Whitelist.WithoutUndoesAppend` | src/contract.rs:73-95 | removing the addresses just added, none of them listed before, restores the previous whitelist |
| `Bank.PaysEachDisbursed` | src/contract.rs:104-127 | a plan paying `amount` to each of n recipients moves exactly `amount * n` of the denomination |
| `ContractTests.ProperInitialization` | src/contract.rs:159-173 | instantiating with 17 emits no messages and a count query answers 17 |
| `ContractTests.IncrementByAnyone` | src/contract.rs:176-192 | an increment by "anyone" succeeds and 17 becomes 18 |
| `ContractTests.ResetByOwnerOnly` | src/contract.rs:195-220 | a reset by "anyone" is `Unauthorized`; the creator's reset succeeds and the count is 5 |
| `ContractTests.AddWhitelist` | src/contract.rs:224-244 | adding ["address1","address2"] to an empty list gives exactly that list |
| `ContractTests.AddKeepsDuplicates` | src/contract.rs:78 | adding ["a","b"] then ["a"] gives ["a","b","a"] |
| `ContractTests.RemoveWhitelist` | src/contract.rs:248-268 | removing ["address1"] from ["address1","address2"] gives ["address2"] |
| `ContractTests.RemoveAbsent` | src/contract.rs:90 | removing ["z"] from ["a","b"] leaves ["a","b"] |
| `ContractTests.TokenDistribute` | src/contract.rs:271-293 | two entries, 100 each, balance 1000: success, two transfers of 100 "token" in order, none in the response; balance 150: `InsufficientError` |
| `ContractTests.IncrementTimes` | src/contract.rs:52-56 | n increments through the dispatcher, by any caller, take the count from c to c + n (while c + n fits an `i32`), each succeeding, with owner and whitelist unchanged |
| `ContractTests.EndToEnd` | src/contract.rs:52-68 | instantiate 17, increment by anyone, owner reset to 5, stranger reset to 9: counts 18, 5, 5 and the last call is `Unauthorized` |

## Left out

- Version metadata (`set_contract_version`), the `entry_point` attributes, `to_binary`/`from_binary` and response attributes are host plumbing with no behaviour to state.
- Storage errors (`StdError` from `STATE.load`, `save` and `update`) are not modelled: a `Contract` object exists only after `Instantiate`, and loading it cannot fail. Refusing a second instantiation is the host's job and is not modelled.
- `deps.querier.query_balance` and the contract's own address are an external ledger call: the balance in the distribution's denomination is the parameter `balance` (of `Execute` and `TryTokenDistribute`). The querier's own failure (the `?` at src/contract.rs:112) is not modelled.
- Executing the `BankMsg::Send` transfers belongs to the host; the source never forwards them anyway.
- `Vec::retain` works in place inside the library; the model reassigns the whitelist to the value `Without` computes.
- `src/gpt.rs`, `src/gpt2.rs` and `src/gpt3.rs` are drafts that do not compile and duplicate the handlers above; they are not part of this model.
- `src/state.rs`, `src/msg.rs` and `src/error.rs` are not part of this model; the record, message and error types are rebuilt from their uses in `src/contract.rs`.
