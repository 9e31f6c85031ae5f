/** The `Transactions` coordinator: the imported account, the store of pending
    transactions it built, and the build / sign / submit operations. Each method is
    proved to agree with the function of `TransactionSpec` that describes it. */
module Transaction {
  import opened Wrappers
  import opened Kaspa
  import opened AddressBook
  import opened TransactionSpec

  class Transactions {
    const kaspa: Node
    const context: UtxoContext
    const addresses: Addresses
    /** The kaspa-wasm functions the coordinator calls. */
    const lib: Library

    var encryptedKey: Option<string>
    var accountId: Option<int>
    /** The pending transactions built by `Create`, by id. */
    var transactions: map<string, Tx>

    /** The address lists of every UTXO query, oldest first. */
    ghost var utxoQueries: seq<seq<string>>
    /** Every transaction handed to the node for submission, oldest first. */
    ghost var submitted: seq<Tx>
    /** The payload of every "transaction" event, oldest first. */
    ghost var emitted: seq<Option<string>>

    /** `import` and `reset` set and clear the two account fields together, and every
        stored transaction sits under its own id. */
    ghost predicate Valid()
      reads this
    {
      (encryptedKey.Some? <==> accountId.Some?) && KeyedById(transactions)
    }

    constructor (kaspa: Node, context: UtxoContext, addresses: Addresses, lib: Library)
      ensures Valid()
      ensures this.kaspa == kaspa && this.context == context && this.addresses == addresses && this.lib == lib
      ensures encryptedKey == None && accountId == None && transactions == map[]
      ensures utxoQueries == [] && submitted == [] && emitted == []
    {
      this.kaspa := kaspa;
      this.context := context;
      this.addresses := addresses;
      this.lib := lib;
      encryptedKey := None;
      accountId := None;
      transactions := map[];
      utxoQueries := [];
      submitted := [];
      emitted := [];
    }

    method Import(encryptedKey: string, accountId: int)
      requires Valid()
      modifies this`encryptedKey, this`accountId
      ensures Valid()
      ensures this.encryptedKey == Some(encryptedKey) && this.accountId == Some(accountId)
    {
      this.encryptedKey := Some(encryptedKey);
      this.accountId := Some(accountId);
    }

    method Reset()
      requires Valid()
      modifies this`encryptedKey, this`accountId
      ensures Valid()
      ensures encryptedKey == None && accountId == None
    {
      encryptedKey := None;
      accountId := None;
    }

    /** Builds transactions paying `outputs` with priority fee `fee`, spending the
        custom inputs first. A custom without a matching UTXO fails before anything is
        built, counted or stored; a failure to build leaves the address counter and the
        store alone; otherwise the counter is advanced once, every transaction is stored
        under its id and their serialisations are returned in order. */
    method Create(outputs: seq<(string, string)>, fee: string, customs: Option<seq<CustomInput>>)
      returns (r: Result<seq<string>, Error>)
      requires Valid()
      modifies this, addresses
      ensures Valid()
      ensures encryptedKey == old(encryptedKey) && accountId == old(accountId)
      ensures submitted == old(submitted) && emitted == old(emitted)
      ensures utxoQueries ==
                old(utxoQueries) + if HasCustoms(customs) then [CustomAddresses(customs.value)] else []
      ensures var priority := PriorityEntries(kaspa, customs);
        if priority.Err? then
          r == Err(FailedToResolveCustomEntry) && transactions == old(transactions) &&
          addresses.increments == old(addresses.increments) &&
          addresses.changeAddresses == old(addresses.changeAddresses)
        else
          var built := lib.createTransactions(
            CreateRequest(lib, priority.value, context, outputs, old(addresses.changeAddresses), fee));
          if built.Err? then
            r == Err(Thrown(built.error)) && transactions == old(transactions) &&
            addresses.increments == old(addresses.increments) &&
            addresses.changeAddresses == old(addresses.changeAddresses)
          else
            r == Ok(SerializeAll(lib, built.value)) &&
            transactions == StoreAll(old(transactions), built.value) &&
            addresses.increments == old(addresses.increments) + [(0, 1)]
    {
      var priorityEntries: seq<UtxoEntry> := [];
      if customs.Some? && |customs.value| > 0 {
        var cs := customs.value;
        var entries := kaspa.getUtxosByAddresses(CustomAddresses(cs));
        utxoQueries := utxoQueries + [CustomAddresses(cs)];
        for i := 0 to |cs|
          invariant ResolveCustoms(cs[..i], entries) == Ok(priorityEntries)
        {
          var matchingEntry := FindEntry(entries, cs[i]);
          if matchingEntry.Some? {
            assert cs[..i + 1][..i] == cs[..i];
            priorityEntries := priorityEntries + [matchingEntry.value];
          } else {
            TraverseStep(cs, Resolver(entries), i);
            return Err(FailedToResolveCustomEntry);
          }
        }
        assert cs[..|cs|] == cs;
      }
      var built := lib.createTransactions(
        CreateRequest(lib, priorityEntries, context, outputs, addresses.changeAddresses, fee));
      if built.Err? {
        return Err(Thrown(built.error));
      }
      addresses.Increment(0, 1);
      var txs := built.value;
      for k := 0 to |txs|
        invariant transactions == StoreAll(old(transactions), txs[..k])
        invariant encryptedKey == old(encryptedKey) && accountId == old(accountId)
        invariant submitted == old(submitted) && emitted == old(emitted)
        invariant utxoQueries == old(utxoQueries) + if HasCustoms(customs) then [CustomAddresses(customs.value)] else []
        invariant addresses.increments == old(addresses.increments) + [(0, 1)]
      {
        assert txs[..k + 1][..k] == txs[..k];
        transactions := transactions[txs[k].id := txs[k]];
      }
      assert txs[..|txs|] == txs;
      StoreAllKeyedById(old(transactions), txs);
      r := Ok(SerializeAll(lib, txs));
    }

    /** Signs a batch of serialised transactions with the imported account and splices
        in the custom signatures. Changes nothing: it answers what `SignBatch` describes.
        Without an account it fails with "No imported account". */
    method Sign(txs: seq<string>, password: string, customs: seq<CustomSignature>)
      returns (r: Result<seq<string>, Error>)
      ensures r == SignBatch(lib, addresses.networkId, addresses.findIndexes, encryptedKey, accountId,
                             txs, password, customs)
      ensures !Truthy(encryptedKey) ==> r == Err(NoImportedAccount)
    {
      if !Truthy(encryptedKey) {
        return Err(NoImportedAccount);
      }
      var seed := lib.decrypt(encryptedKey.value, password);
      if seed.Err? {
        return Err(Thrown(seed.error));
      }
      if accountId.None? {
        return Err(Thrown(BIGINT_OF_UNDEFINED));
      }
      var keyGenerator := KeyGenerator(seed.value, accountId.value);
      ghost var ctx := SigningContext(lib, addresses.networkId, addresses.findIndexes, keyGenerator);
      var signedTransactions: seq<Tx> := [];
      for i := 0 to |txs|
        invariant Traverse(txs[..i], Signer(ctx, customs)) == Ok(signedTransactions)
      {
        assert txs[..i + 1][..i] == txs[..i];
        var parsed := lib.deserialize(txs[i]);
        if parsed.Err? {
          TraverseStep(txs, Signer(ctx, customs), i);
          return Err(Thrown(parsed.error));
        }
        var privateKeys := CollectKeys(keyGenerator, lib.addresses(parsed.value, addresses.networkId));
        var signed := lib.signTransaction(parsed.value, privateKeys);
        if signed.Err? {
          TraverseStep(txs, Signer(ctx, customs), i);
          return Err(Thrown(signed.error));
        }
        var spliced := SpliceCustoms(keyGenerator, signed.value, customs);
        if spliced.Err? {
          TraverseStep(txs, Signer(ctx, customs), i);
          return Err(spliced.error);
        }
        var tx := spliced.value;
        signedTransactions := signedTransactions + [tx];
      }
      assert txs[..|txs|] == txs;
      r := Ok(SerializeAll(lib, signedTransactions));
    }

    /** The address loop of `Sign`: one key per non-ScriptHash input address. */
    method CollectKeys(keyGenerator: KeyGenerator, addrs: seq<Address>) returns (privateKeys: seq<PrivateKey>)
      ensures privateKeys ==
                KeysFor(SigningContext(lib, addresses.networkId, addresses.findIndexes, keyGenerator), addrs)
    {
      ghost var ctx := SigningContext(lib, addresses.networkId, addresses.findIndexes, keyGenerator);
      privateKeys := [];
      for j := 0 to |addrs|
        invariant privateKeys == KeysFor(ctx, addrs[..j])
      {
        assert addrs[..j + 1][..j] == addrs[..j];
        if addrs[j].version == ScriptHash {
          continue;
        }
        privateKeys := privateKeys + [DeriveKey(keyGenerator, addresses.findIndexes(addrs[j].text))];
      }
      assert addrs[..|addrs|] == addrs;
    }

    /** The custom-signature loop of `Sign` over one signed transaction: each custom's
        input is located by outpoint and gets its pay-to-script-hash or literal script. */
    method SpliceCustoms(keyGenerator: KeyGenerator, signed: Tx, customs: seq<CustomSignature>)
      returns (r: Result<Tx, Error>)
      ensures r == ApplyCustoms(SigningContext(lib, addresses.networkId, addresses.findIndexes, keyGenerator),
                                signed, customs)
    {
      ghost var ctx := SigningContext(lib, addresses.networkId, addresses.findIndexes, keyGenerator);
      var tx := signed;
      for m := 0 to |customs|
        invariant ApplyCustoms(ctx, signed, customs[..m]) == Ok(tx)
      {
        assert customs[..m + 1][..m] == customs[..m];
        var custom := customs[m];
        var inputIndex := FindInput(Outpoints(tx.inputs), custom);
        if lib.validate(custom.signer) {
          if !Truthy(custom.script) {
            ApplyCustomsSticky(ctx, signed, customs, m + 1);
            return Err(ScriptRequired);
          }
          if inputIndex < 0 {
            ApplyCustomsSticky(ctx, signed, customs, m + 1);
            return Err(InputNotFound);
          }
          var privateKey := DeriveKey(keyGenerator, addresses.findIndexes(custom.signer));
          tx := SetScript(tx, inputIndex,
                          lib.encodePayToScriptHash(custom.script.value,
                                                    lib.createInputSignature(tx, inputIndex, privateKey)));
        } else {
          if inputIndex < 0 {
            ApplyCustomsSticky(ctx, signed, customs, m + 1);
            return Err(InputNotFound);
          }
          tx := SetScript(tx, inputIndex, custom.signer);
        }
      }
      assert customs[..|customs|] == customs;
      r := Ok(tx);
    }

    /** Fills the signature scripts of each parsed transaction into the pending
        transaction of the same id and submits it, collecting the ids in order; then
        emits one "transaction" event carrying the last raw string. A failure stops the
        batch, keeps what was already filled and submitted, and emits nothing. */
    method SubmitContextful(batch: seq<string>) returns (r: Result<seq<string>, Error>)
      requires Valid()
      modifies this`transactions, this`submitted, this`emitted
      ensures Valid()
      ensures var s := SubmitBatch(lib, kaspa, old(transactions), batch);
        r == s.ids && transactions == s.store && submitted == old(submitted) + s.sent
      ensures emitted == old(emitted) + if r.Ok? then [Last(batch)] else []
      ensures encryptedKey == old(encryptedKey) && accountId == old(accountId)
      ensures utxoQueries == old(utxoQueries)
    {
      var submittedIds: seq<string> := [];
      ghost var sent: seq<Tx> := [];
      for i := 0 to |batch|
        invariant SubmitBatch(lib, kaspa, old(transactions), batch[..i]) == Submission(Ok(submittedIds), transactions, sent)
        invariant submitted == old(submitted) + sent && emitted == old(emitted)
        invariant KeyedById(transactions)
      {
        assert batch[..i + 1][..i] == batch[..i];
        ghost var before := transactions;
        var step := SubmitNext(batch[i]);
        if step.Err? {
          SubmitBatchStep(lib, kaspa, old(transactions), batch, i);
          return Err(step.error);
        }
        sent := sent + SubmitOne(lib, kaspa, before, batch[i]).sent;
        submittedIds := submittedIds + step.value;
      }
      assert batch[..|batch|] == batch;
      emitted := emitted + [Last(batch)];
      r := Ok(submittedIds);
    }

    /** One transaction of `SubmitContextful`: parses it, looks up its pending transaction,
        fills that in and submits it. */
    method SubmitNext(raw: string) returns (step: Result<seq<string>, Error>)
      requires KeyedById(transactions)
      modifies this`transactions, this`submitted
      ensures var s := SubmitOne(lib, kaspa, old(transactions), raw);
        step == s.ids && transactions == s.store && submitted == old(submitted) + s.sent
      ensures KeyedById(transactions)
    {
      var parsed := lib.deserialize(raw);
      if parsed.Err? {
        return Err(Thrown(parsed.error));
      }
      var id := parsed.value.id;
      if id !in transactions {
        return Err(NotGeneratedByWallet);
      }
      var error := FillCached(id, parsed.value.inputs);
      if error.Some? {
        return Err(error.value);
      }
      var submittedId := kaspa.submit(transactions[id]);
      submitted := submitted + [transactions[id]];
      step := Ok([submittedId]);
    }

    /** The fill loop of `SubmitContextful`: copies each parsed input's signature script
        into the pending transaction `id`, stopping at the first input without one. */
    method FillCached(id: string, inputs: seq<TxInput>) returns (error: Option<Error>)
      requires id in transactions && KeyedById(transactions)
      modifies this`transactions
      ensures var f := FillInputs(old(transactions)[id], inputs);
        error == f.error && transactions == old(transactions)[id := f.tx]
      ensures KeyedById(transactions)
    {
      ghost var cached := transactions[id];
      for j := 0 to |inputs|
        invariant id in transactions && transactions == old(transactions)[id := transactions[id]]
        invariant FillInputs(cached, inputs[..j]) == Fill(transactions[id], None)
        invariant KeyedById(transactions)
      {
        assert inputs[..j + 1][..j] == inputs[..j];
        var input := inputs[j];
        if !Truthy(input.signatureScript) {
          FillInputsSticky(cached, inputs, j + 1);
          return Some(SignatureScriptUndefined);
        }
        var filled := FillInput(transactions[id], j, input.signatureScript.value);
        if filled.Err? {
          FillInputsSticky(cached, inputs, j + 1);
          return Some(Thrown(filled.error));
        }
        transactions := transactions[id := filled.value];
      }
      assert inputs[..|inputs|] == inputs;
      error := None;
    }
  }

  /** Signing right after `Reset` fails with "No imported account", whatever is signed. */
  method SignAfterReset(t: Transactions, txs: seq<string>, password: string, customs: seq<CustomSignature>)
    returns (r: Result<seq<string>, Error>)
    requires t.Valid()
    modifies t
    ensures t.Valid() && t.transactions == old(t.transactions)
    ensures r == Err(NoImportedAccount)
  {
    t.Reset();
    r := t.Sign(txs, password, customs);
  }
}
