# Transactions coordinator of the kigs wallet

This project models the `Transactions` coordinator of the kigs Kaspa wallet and proves
properties of the model. The coordinator is a thin layer over the kaspa-wasm library. It
holds the imported account (an encrypted extended private key and an account number) and
a store of the pending transactions it built. It offers five operations:

- `import` and `reset` set and clear the account.
- `create` resolves the caller's custom inputs against a UTXO query, asks the library to
  build transactions, advances the address counter, and stores every built transaction
  under its id.
- `sign` unlocks the account once, signs each serialised transaction with the keys of its
  input addresses, and splices in the caller's custom signature scripts.
- `submitContextful` copies the signature scripts of each signed transaction into the
  pending transaction of the same id, submits it, collects the returned ids, and emits
  one `"transaction"` event.

Layout:

- `wrappers.dfy` (`Wrappers`): `Option`, `Result`, and `Traverse`, the "run each step in
  order, stop at the first failure" fold that the batch loops follow.
- `kaspa.dfy` (`Kaspa`): the library's values as datatypes. Its functions and the RPC
  client are arrow-typed fields of `Library` and `Node`, so every call result is an
  arbitrary value.
- `addresses.dfy` (`AddressBook`): the address-book collaborator as a small class.
- `transaction_spec.dfy` (`TransactionSpec`): each operation as a function of its inputs
  and of the library results, with the promised properties proved as lemmas.
- `transaction.dfy` (`Transaction`): the class `Transactions` with the fields
  `encryptedKey`, `accountId` and `transactions` and one method per operation. Each loop
  is proved to compute its specification function, and the operations that change the
  account or the store preserve the class invariant `Valid`. Ghost fields log the UTXO
  queries, the submitted transactions and the emitted events.

Errors are values of `TransactionSpec.Error`. `Message` gives the text the source throws.
A library failure is `Thrown(message)` and is passed through unchanged.

Three details of the code shape the model:

- The account key is decrypted once per `sign` call, before the loop, not once per
  transaction.
- A custom input is resolved to the first matching UTXO entry. The code does not require
  the match to be unique.
- Submitted transactions stay in the store. Nothing removes them.

## Model

| member | source | states |
|---|---|---|
| TransactionSpec.FindEntry | src/core/transaction.ts:66-70 | the entry found spends the custom's outpoint and is the first query entry that does; nothing is found exactly when no entry matches |
| TransactionSpec.ResolveCustoms | src/core/transaction.ts:65-75 | defines the resolution loop: one `find` per custom, in order, stopping at the first custom without a match; its properties are those of `ResolveCustomsSpec` |
| TransactionSpec.PriorityEntries | src/core/transaction.ts:59-76 | defines the priority entries: empty, with no query, when customs are absent or empty; otherwise the resolution of the customs against one query of their addresses |
| TransactionSpec.CreateRequest | src/core/transaction.ts:78-90 | defines the settings passed to `createTransactions`: priority entries, the wallet context, each output's address and converted amount, the last change address, the converted fee |
| TransactionSpec.StoreAll | src/core/transaction.ts:93-95 | defines the store after `set(tx.id, tx)` for each produced transaction in order; its properties are the `StoreAll…` lemmas |
| TransactionSpec.ResolveCustomsSpec | src/core/transaction.ts:61-76 | resolution succeeds iff every custom has a matching entry; it then yields one entry per custom, in custom order, each the first entry of the query spending that custom's (outpoint, index); otherwise the error is "Failed to resolve custom entry" |
| TransactionSpec.StoreAllKeys | src/core/transaction.ts:93-95 | after recording, the store's ids are the old ids plus the produced ids, and every entry under any other id is unchanged |
| TransactionSpec.StoreAllKeyedById | src/core/transaction.ts:93-95 | recording keeps every store entry under its own id |
| TransactionSpec.StoreAllOwnId | src/core/transaction.ts:93-95 | every produced transaction's id is in the store, and the entry there is a produced transaction carrying that id |
| TransactionSpec.StoreAllLast | src/core/transaction.ts:93-95 | when no later produced transaction shares its id, a produced transaction is exactly the entry under its id |
| TransactionSpec.Signable | src/core/transaction.ts:119-122 | defines the input addresses that get a key (the `continue` on ScriptHash); its properties are `SignableCounts` and `SignableInOrder` |
| TransactionSpec.SignableCounts | src/core/transaction.ts:119-122 | every non-ScriptHash input address gets a key as often as it occurs among the input addresses, and a ScriptHash address never does |
| TransactionSpec.SignablePositions | src/core/transaction.ts:119-122 | the positions it lists are increasing, each holds a non-ScriptHash address, and every non-ScriptHash position is listed |
| TransactionSpec.SignableInOrder | src/core/transaction.ts:119-122 | the addresses that get a key are the input addresses at exactly the non-ScriptHash positions, in input order |
| TransactionSpec.KeysFor | src/core/transaction.ts:119-132 | defines the keys the address loop pushes; its properties are `KeysForSpec` |
| TransactionSpec.KeysForSpec | src/core/transaction.ts:119-132 | one key per non-ScriptHash input address, in order; a receive key of the reported index when `findIndexes` says receive, else a change key, all from the one generator |
| TransactionSpec.FindInput | src/core/transaction.ts:141-145 | the result is -1 exactly when no input spends the custom's outpoint; otherwise it is the first input that does |
| TransactionSpec.ApplyCustom | src/core/transaction.ts:140-164 | one custom applies iff (an address signer has a non-empty script) and some input spends its outpoint; an address signer without script fails with "Script is required when signer address is supplied", any other failure is the missing input; success keeps the id, the outputs and all outpoints |
| TransactionSpec.ApplyCustomEffect | src/core/transaction.ts:140-164 | an applied custom changes only the first input spending its outpoint and keeps the id and the outputs; an address signer gives that input the pay-to-script-hash script of the custom's script and the signature of that input under the signer's derived key; a literal signer gives the signer string itself |
| TransactionSpec.ApplyCustomsShape | src/core/transaction.ts:139-164 | splicing keeps the transaction's id, its outputs and every input's outpoint |
| TransactionSpec.ApplyCustomsOk | src/core/transaction.ts:139-164 | splicing all customs succeeds iff every custom can be applied to the signed transaction's outpoints |
| TransactionSpec.ApplyCustomsFirstFailure | src/core/transaction.ts:139-164 | the first custom that cannot be applied decides the error: a missing script for an address signer, otherwise the missing input |
| TransactionSpec.ApplyCustomsUntouched | src/core/transaction.ts:139-164 | an input that no custom locates keeps the script the signing pass gave it |
| TransactionSpec.ApplyCustoms | src/core/transaction.ts:139-164 | defines the custom-signature loop over one signed transaction, stopping at the first custom that throws; its properties are the `ApplyCustoms…` lemmas |
| TransactionSpec.ApplyCustomsFinal | src/core/transaction.ts:139-164 | when no later custom locates the same input, the input custom k locates ends up as custom k made it from the transaction the earlier customs left |
| TransactionSpec.ApplyCustomsLiteral | src/core/transaction.ts:162-164 | a literal custom is the final signature script of the input it locates, unless a later custom locates the same input |
| TransactionSpec.ApplyCustomsAddress | src/core/transaction.ts:147-161 | when no later custom locates the same input, an address custom leaves at the input it locates the pay-to-script-hash script of its script and of that input's signature, computed on the transaction the earlier customs left, under the signer's derived key |
| TransactionSpec.SignOne | src/core/transaction.ts:114-166 | defines one transaction of `sign`: parse, collect keys, `signTransaction`, splice the customs |
| TransactionSpec.SignBatch | src/core/transaction.ts:100-172 | defines `sign`: the account check, one decryption and key generator, every transaction signed in turn, then serialised; its properties are `SignBatchSpec` and `SignBatchFirstFailure` |
| TransactionSpec.SignBatchSpec | src/core/transaction.ts:100-172 | without a key `sign` fails with "No imported account"; a decryption failure is passed through; `sign` succeeds iff there is a key, it decrypts, there is an account id and every transaction signs with the one generator built from them; then there is one serialised result per input transaction, in order, each the signing of that transaction |
| TransactionSpec.SignBatchFirstFailure | src/core/transaction.ts:114-166 | a failing batch reports the error of its first transaction that does not sign |
| TransactionSpec.FillInputs | src/core/transaction.ts:188-195 | defines the fill loop: a truthiness check, then `fillInput(i, script)` per parsed input, stopping at the first failure with what was filled so far |
| TransactionSpec.FillInputsSpec | src/core/transaction.ts:188-195 | filling keeps the id, the outputs and the outpoints; it completes iff every parsed input has a non-empty script and the cached transaction has that many inputs; then cached input i carries parsed input i's script and the other inputs are unchanged; a missing script is reported as "Input signature script isn't defined" |
| TransactionSpec.FillInputsFirstFailure | src/core/transaction.ts:188-195 | the first parsed input that lacks a script, or has no cached counterpart, decides the error ("Input signature script isn't defined" for a missing script, the `fillInput` failure otherwise); the cached transaction is left with the earlier parsed inputs' scripts, its other inputs, id, outputs and outpoints as they were |
| TransactionSpec.SubmitOne | src/core/transaction.ts:179-197 | defines one transaction of `submitContextful`: parse, look up, fill, submit |
| TransactionSpec.SubmitBatch | src/core/transaction.ts:176-198 | defines the submission loop over the batch, stopping at the first failure with the fills and submissions made so far |
| TransactionSpec.SubmitBatchKeys | src/core/transaction.ts:178-198 | submission never adds or removes a store entry and only fills scripts: every entry keeps its id, outputs and outpoints, and stays under its own id |
| TransactionSpec.SubmitOneOk | src/core/transaction.ts:179-197 | a successful transaction fills its pending transaction, stores and submits exactly that filled transaction, and returns the node's one answer; what is submitted is the pending transaction with parsed input i's script in input i and its other inputs, outpoints and outputs as stored |
| TransactionSpec.SubmitBatchOk | src/core/transaction.ts:176-201 | a successful batch returns one id per transaction, in batch order; transaction k parsed, was tracked and had a non-empty script on every input; what was submitted for it is its pending transaction, as the earlier transactions left it, with parsed input i's script in input i, the other inputs, outpoints and outputs as stored; id k is the node's answer to it |
| TransactionSpec.SubmitBatchSticky | src/core/transaction.ts:178-198 | once a prefix of the batch fails, later transactions are neither filled nor submitted |
| TransactionSpec.SubmitBatchUnknownId | src/core/transaction.ts:181-186 | an untracked id stops the batch with "Transaction is not generated by wallet, use Node.submit()." before that transaction is filled or submitted; store and submissions are as the earlier transactions left them |
| Kaspa.SetScript | src/core/transaction.ts:156-163 | assigning input i's script changes only that input's script: id, outputs, length and outpoints are kept, every other input is unchanged |
| Kaspa.FillInput | src/core/transaction.ts:194 | filling input i succeeds iff i is an input of the cached transaction, and then sets that input's script only: id, outputs, length, outpoints and the other inputs are kept |
| AddressBook.Addresses.Increment | src/core/transaction.ts:92 | the call `increment(start, count)` is recorded; the address pools may change in any way |
| TransactionSpec.Message | src/core/transaction.ts:74-192 | the text of each error the coordinator throws (lines 74, 105, 149, 185 and 192) |
| Transaction.Transactions.constructor | src/core/transaction.ts:39-47 | a new coordinator has no account and an empty store |
| Transaction.Transactions.Import | src/core/transaction.ts:49-52 | both account fields are overwritten with the given values |
| Transaction.Transactions.Reset | src/core/transaction.ts:204-207 | both account fields are cleared; the store is untouched |
| Transaction.Transactions.Create | src/core/transaction.ts:54-98 | the UTXO query happens iff customs are given and non-empty; a failed resolution returns "Failed to resolve custom entry" with store and address counter unchanged; a library failure also leaves them unchanged; on success the counter is advanced once by (0, 1), the store is the old store plus every built transaction under its id, the change address is the last of the pool, and the result is one serialisation per built transaction, in order |
| Transaction.Transactions.Sign | src/core/transaction.ts:100-173 | the result is `SignBatch` of the current account and inputs; without a key it is "No imported account"; nothing changes |
| Transaction.Transactions.CollectKeys | src/core/transaction.ts:117-132 | the pushed keys are `KeysFor` the transaction's addresses |
| Transaction.Transactions.SpliceCustoms | src/core/transaction.ts:139-165 | the loop's result is `ApplyCustoms` of the signed transaction |
| Transaction.Transactions.SubmitContextful | src/core/transaction.ts:175-202 | the returned ids, the new store and the submitted transactions are those of `SubmitBatch` on the old store; one event with the last raw string is emitted iff the batch succeeds; the account is untouched |
| Transaction.Transactions.SubmitNext | src/core/transaction.ts:179-197 | one transaction's outcome, store and submission are those of `SubmitOne` |
| Transaction.Transactions.FillCached | src/core/transaction.ts:188-195 | the cached entry becomes the `FillInputs` result and the error is that function's error; every other entry is unchanged |
| Transaction.SignAfterReset | src/core/transaction.ts:105 | signing right after `reset` fails with "No imported account", and the store is unchanged |

## Left out

- kaspa-wasm internals are arbitrary functions in `Kaspa.Library`. These are coin selection and fee calculation in `createTransactions`, signing, input signatures, pay-to-script-hash encoding, decryption, `kaspaToSompi`, `Address.validate` and safe-JSON (de)serialisation. The proofs hold for every such function.
- The model does not state that `serialize` and `deserialize` form a round trip. That is a property of the library, not of the coordinator.
- `PrivateKeyGenerator` is the value `KeyGenerator(xprv, accountId)`, and a derived key is named by its derivation. The model does not capture the generator constructor failing on a malformed seed.
- `findIndexes`, `createInputSignature` and `ScriptBuilder.fromScript` are total in the model. When they throw in the library, the model does not capture it.
- The RPC calls `getUtxosByAddresses` and `submit` are total functions of `Kaspa.Node`. A network failure or a rejection by the node is not modelled. The calls are logged in ghost fields.
- `async`/`await` is not modelled, and each operation runs to completion. Concurrent calls on one coordinator are not modelled.
- `EventEmitter` is reduced to the ghost log `emitted` of event payloads. Listeners are not modelled.
- The `Addresses` collaborator is not part of this model. Only what the coordinator reads or calls is modelled: `networkId`, `findIndexes`, `changeAddresses`, and a log of `increment` calls. `increment` may change the address pools arbitrarily, so `Create` promises nothing about them after a successful build.
- AddressBook.Addresses: `findIndexes` and `networkId` are fixed for the life of the address book. An `increment` that changed the index lookup is not modelled.
- A pending transaction is a value in the store map, and fills replace it. Object identity is not modelled. Neither is sharing the same object with the library's UTXO context.
- A write to `signedTransaction.inputs[i].signatureScript` is assumed to change the signed transaction, as a plain object field would. If the library's `inputs` getter returned copies, that write would be lost. This is not captured.
- Kaspa.FillInput: the source does not show what `fillInput` does with an index past the cached transaction's inputs. The model assumes it throws, with the message `FILL_INPUT_OUT_OF_RANGE`, and that text is a placeholder.
- TransactionSpec.ApplyCustom: a custom signature whose outpoint no input spends is an error (`InputNotFound`), not a precondition. The source then has index -1. The literal branch writes to `inputs[-1]`, which is `undefined`, so the runtime throws a TypeError. `Message(InputNotFound)` uses V8's wording of that TypeError. In the address branch, `createInputSignature` is called with -1 first, and its own message is not modelled.
- `kaspaToSompi` reports a malformed amount as `undefined`. The model passes this on as `None` and leaves the outcome to `createTransactions`. The source's non-null assertion `!` has no runtime effect.
- `accountId` is an unbounded integer, not a JavaScript number. `BigInt` of a fractional or NaN account number throws a RangeError (src/core/transaction.ts:110), which the model cannot express.
- `Transaction.addresses(networkId)` is a total function in the model. When it throws in the library, the model does not capture it.
- `BigInt(this.accountId!)` with an undefined account id throws. The model has `Thrown(BIGINT_OF_UNDEFINED)`. Under the class invariant this case cannot arise, but `SignBatch` covers it.
- vite.config.ts is build configuration and is not part of this model.
