/** The part of the kaspa-wasm library and of the node's RPC interface that the
    coordinator touches. The library's values are datatypes; its functions, whose code
    is cryptographic or otherwise not part of this model, are arrow-typed fields of
    `Library` and `Node`, so every result of theirs is an arbitrary value the proofs
    cannot look into. A library call that can throw returns a `Result` whose error is
    the thrown message. */
module Kaspa {
  import opened Wrappers

  datatype Outpoint = Outpoint(transactionId: string, index: int)

  /** An entry of a UTXO query; `address` is the owning address. */
  datatype UtxoEntry = UtxoEntry(address: string, outpoint: Outpoint, amount: int)

  /** A transaction input. A missing signature script is `None`. */
  datatype TxInput = TxInput(previousOutpoint: Outpoint, signatureScript: Option<string>)

  datatype TxOutput = TxOutput(scriptPublicKey: string, value: int)

  /** Both a `Transaction` and a `PendingTransaction` of the library: an id, the inputs
      and the outputs. */
  datatype Tx = Tx(id: string, inputs: seq<TxInput>, outputs: seq<TxOutput>)

  datatype AddressVersion = PubKey | PubKeyECDSA | ScriptHash

  /** A parsed address; `text` is what `toString()` gives. */
  datatype Address = Address(version: AddressVersion, text: string)

  /** A `PrivateKeyGenerator` built from a decrypted extended private key and an
      account number. */
  datatype KeyGenerator = KeyGenerator(xprv: string, accountId: int)

  /** A derived key, identified by its derivation: `receiveKey(index)` or `changeKey(index)`
      of one key generator. */
  datatype PrivateKey =
    | ReceiveKey(generator: KeyGenerator, index: int)
    | ChangeKey(generator: KeyGenerator, index: int)

  /** An output as handed to `createTransactions`: `kaspaToSompi` reports a malformed
      amount as `None` (JavaScript `undefined`). */
  datatype PaymentOutput = PaymentOutput(address: string, amount: Option<int>)

  /** The wallet's own UTXO context, the default funding candidates. */
  datatype UtxoContext = UtxoContext(entries: seq<UtxoEntry>)

  /** The settings object passed to `createTransactions`. */
  datatype TransactionRequest = TransactionRequest(
    priorityEntries: seq<UtxoEntry>,
    entries: UtxoContext,
    outputs: seq<PaymentOutput>,
    changeAddress: Option<string>,
    priorityFee: Option<int>)

  /** The library functions the coordinator calls. */
  datatype Library = Library(
    deserialize: string -> Result<Tx, string>,        // Transaction.deserializeFromSafeJSON
    serialize: Tx -> string,                           // serializeToSafeJSON
    addresses: (Tx, string) -> seq<Address>,           // Transaction.addresses(networkId)
    signTransaction: (Tx, seq<PrivateKey>) -> Result<Tx, string>,
    createInputSignature: (Tx, nat, PrivateKey) -> string,
    encodePayToScriptHash: (string, string) -> string, // ScriptBuilder.fromScript(s).encodePayToScriptHashSignatureScript(sig)
    validate: string -> bool,                          // Address.validate
    decrypt: (string, string) -> Result<string, string>, // decryptXChaCha20Poly1305
    kaspaToSompi: string -> Option<int>,
    createTransactions: TransactionRequest -> Result<seq<Tx>, string>)

  /** The RPC client: a UTXO query by addresses, and submission of a pending
      transaction, which answers with the transaction id. */
  datatype Node = Node(
    getUtxosByAddresses: seq<string> -> seq<UtxoEntry>,
    submit: Tx -> string)

  /** JavaScript truthiness of an optional string: absent and "" are both false. */
  predicate Truthy(s: Option<string>)
  {
    s.Some? && s.value != ""
  }

  /** The previous outpoints of a list of inputs, in order. */
  function Outpoints(inputs: seq<TxInput>): (r: seq<Outpoint>)
    ensures |r| == |inputs|
    ensures forall i :: 0 <= i < |inputs| ==> r[i] == inputs[i].previousOutpoint
  {
    seq(|inputs|, i requires 0 <= i < |inputs| => inputs[i].previousOutpoint)
  }

  /** Assigns `script` as the signature script of input `i`
      (`tx.inputs[i].signatureScript = script`). */
  function SetScript(tx: Tx, i: nat, script: string): (r: Tx)
    requires i < |tx.inputs|
    ensures r.id == tx.id && r.outputs == tx.outputs && |r.inputs| == |tx.inputs|
    ensures Outpoints(r.inputs) == Outpoints(tx.inputs)
    ensures r.inputs[i].signatureScript == Some(script)
    ensures forall j :: 0 <= j < |tx.inputs| && j != i ==> r.inputs[j] == tx.inputs[j]
  {
    var r := tx.(inputs := tx.inputs[i := tx.inputs[i].(signatureScript := Some(script))]);
    assert forall j :: 0 <= j < |tx.inputs| ==> Outpoints(r.inputs)[j] == Outpoints(tx.inputs)[j];
    r
  }

  const FILL_INPUT_OUT_OF_RANGE := "input index out of range"

  /** `PendingTransaction.fillInput(i, script)`: sets the signature script of input `i`;
      an index past the transaction's inputs is rejected. */
  function FillInput(tx: Tx, i: nat, script: string): (r: Result<Tx, string>)
    ensures r.Ok? <==> i < |tx.inputs|
    ensures r.Ok? ==> r.value.id == tx.id && r.value.outputs == tx.outputs
    ensures r.Ok? ==> Outpoints(r.value.inputs) == Outpoints(tx.inputs)
    ensures r.Ok? ==> |r.value.inputs| == |tx.inputs| && r.value.inputs[i].signatureScript == Some(script)
    ensures r.Ok? ==> forall j :: 0 <= j < |tx.inputs| && j != i ==> r.value.inputs[j] == tx.inputs[j]
  {
    if i < |tx.inputs| then Ok(SetScript(tx, i, script)) else Err(FILL_INPUT_OUT_OF_RANGE)
  }
}
