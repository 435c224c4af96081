/** The runtime object: each request is carried out on the storage and the cache, and
    does what the state machine says. */
module Runtime {
  import opened WalletTypes
  import opened Collections
  import opened Persistence
  import opened CacheModel
  import CacheDriver
  import opened StorageModel
  import StorageDriver
  import opened ChainSync
  import opened AssetMerge
  import opened CoinSelection
  import opened TransferModel
  import opened WalletModel

  method AddBalance(coins: seq<Utxo>) returns (r: Result<u64>)
    ensures r == if SeqSum(coins, ValueOf) < U64_LIMIT then Success(SeqSum(coins, ValueOf)) else Failure(Overflow)
  {
    var total: u64 := 0;
    for i := 0 to |coins|
      invariant total == SeqSum(coins[..i], ValueOf)
    {
      PrefixStep(coins, i, ValueOf);
      PrefixWhole(coins, i + 1, ValueOf);
      if total + coins[i].value >= U64_LIMIT {
        return Failure(Overflow);
      }
      total := total + coins[i].value;
    }
    assert coins[..|coins|] == coins;
    return Success(total);
  }

  /** The bitcoins on the spent outpoints, added up in whatever order they come. */
  method AddBitcoins(bitcoin: set<Utxo>, outpoints: set<OutPoint>) returns (r: Result<u64>)
    ensures r == if BitcoinInput(bitcoin, outpoints) < U64_LIMIT
                 then Success(BitcoinInput(bitcoin, outpoints)) else Failure(Overflow)
  {
    var matching := Matching(bitcoin, outpoints);
    var rest := matching;
    var total: u64 := 0;
    while rest != {}
      invariant rest <= matching
      invariant total == Sum(matching - rest, ValueOf)
      decreases rest
    {
      var u :| u in rest;
      assert matching - (rest - {u}) == matching - rest + {u};
      SumAdd(matching - rest, ValueOf, u);
      SumMonotone(matching - (rest - {u}), matching, ValueOf);
      if total + u.value >= U64_LIMIT {
        return Failure(Overflow);
      }
      total, rest := total + u.value, rest - {u};
    }
    assert matching - rest == matching;
    return Success(total);
  }

  /** Collecting, sorting and selecting the coins of a transfer. */
  method PickCoins(unspent: Unspent, req: TransferRequest, order: seq<Utxo>) returns (r: Result<Choice>)
    requires Candidates(unspent, req.info).Success? ==> Enumerates(order, Candidates(unspent, req.info).value)
    ensures r == ChooseCoins(unspent, req, order)
  {
    if req.info.Bitcoin? {
      var pure := UnspentBitcoinOnly(unspent);
      if pure.Failure? {
        return Failure(Overflow);
      }
    }
    var coins := LargestFirst(order);
    LargestFirstSorts(order, Candidates(unspent, req.info).value);
    var balance := AddBalance(coins);
    if balance.Failure? || Target(req) >= U64_LIMIT {
      return Failure(Overflow);
    }
    var selection := SelectCoins(coins, Target(req));
    if selection.total < Target(req) {
      return Failure(InsufficientFunds);
    }
    return Success(Choice(selection, balance.value));
  }

  class Runtime {
    const env: Env
    const storage: StorageDriver.FileDriver
    const cache: CacheDriver.FileDriver
    var knownHeight: u32

    /** Both files hold what memory holds. */
    ghost predicate Valid()
      reads this, storage, cache
    {
      storage.Synced() && cache.Synced()
    }

    function Abstract(): State
      reads this, storage, cache
    {
      State(storage.data, cache.cache, knownHeight)
    }

    constructor (env: Env, storageCodec: Codec<Contracts>, cacheCodec: Codec<Cache>)
      ensures Valid() && Abstract() == INITIAL && this.env == env
      ensures fresh(storage) && fresh(cache)
      ensures storage.codec == storageCodec && cache.codec == cacheCodec
    {
      this.env := env;
      storage := new StorageDriver.FileDriver(storageCodec);
      cache := new CacheDriver.FileDriver(cacheCodec);
      knownHeight := 0;
    }

    // ----- synchronization -----

    method PopHeaders(headers: seq<nat>)
      modifies this`knownHeight
      ensures knownHeight == LastHeader(old(knownHeight), headers)
    {
      for i := 0 to |headers|
        invariant knownHeight == LastHeader(old(knownHeight), headers[..i])
      {
        knownHeight := headers[i] % U32_LIMIT;
      }
      assert headers[..|headers|] == headers;
    }

    method SynchronizeContract(id: ContractId, depth: nat, w: SyncWorld) returns (reply: Reply)
      requires Valid() && depth >= 1
      modifies this, cache
      ensures Valid()
      ensures (Abstract(), reply) == Sync(env, old(Abstract()), id, depth, w)
    {
      if w.server.None? {
        return Refused(ElectrumFailure);
      }
      if id !in storage.data {
        return Refused(ContractNotFound);
      }
      ghost var s := Abstract();
      var server := w.server.value;
      var last := LastUsed(Entry(cache.cache, id).used);
      var found, queried, ok := Search(server, ScriptsOf(env, storage.data[id].policy), depth, last,
                                       TweakProbes(w.tweakOrder), env.readAddress);
      if !ok {
        return Refused(ElectrumFailure);
      }
      assert found == Discovered(env, s, id, depth, server, w.tweakOrder);
      DiscoveredCoheres(env, s, id, depth, server, w.tweakOrder);
      PopHeaders(w.headers);
      CoherentPairs(found);
      var assets := MergeAssets(found.unspent, SortedOutpoints(found.outpoints), w.node);
      if assets.Failure? {
        return Refused(assets.error);
      }
      cache.Update(id, found.mineInfo, knownHeight, found.outpoints, assets.value);
      return SyncedAssets(assets.value);
    }

    // ----- addresses -----

    method DeriveAddress(id: ContractId, index: Option<Index>, legacy: bool, markUsed: bool) returns (reply: Reply)
      requires Valid()
      modifies cache
      ensures Valid()
      ensures (Abstract(), reply) == Derive(env, old(Abstract()), id, index, legacy, markUsed)
    {
      if id !in storage.data {
        return Refused(ContractNotFound);
      }
      var next := NextUnused(Entry(cache.cache, id).used);
      var i := match index case None => next case Some(given) => given;
      var address := env.addressOf(storage.data[id].policy, i, legacy);
      if address.None? {
        return Refused(NoAddress);
      }
      if markUsed {
        var marked := cache.UseAddressDerivation(id, address.value, i);
        if marked.Failure? {
          return Refused(NoAddress);
        }
      }
      return DerivedAddress(address.value, i);
    }

    // ----- transfers -----

    /** The change output, if one is needed, with its address marked as used. */
    method AddChange(id: ContractId, paid: seq<Output>, input: u64, spent: u64) returns (r: Result<Change>)
      requires Valid() && id in storage.data
      modifies cache
      ensures Valid()
      ensures r == BitcoinChange(Entry(old(cache.cache), id).used, AddressesOf(env, storage.data[id].policy),
                                 env.addressScript, paid, input, spent)
      ensures Abstract() == Reserve(old(Abstract()), id, if r.Success? then r.value.reserved else None)
    {
      if input <= spent {
        return Success(Change(paid, 0, None, None));
      }
      var amount := input - spent;
      var index := NextUnused(Entry(cache.cache, id).used);
      var address := env.addressOf(storage.data[id].policy, index, false);
      if address.None? {
        return Failure(NoChangeAddress);
      }
      var marked := cache.UseAddressDerivation(id, address.value, index);
      if marked.Failure? {
        return Failure(WrongDerivation);
      }
      var outputs := paid + [Output(TxOut(amount, env.addressScript(address.value)), Some(index))];
      return Success(Change(outputs, amount, Some(|outputs| - 1), Some((address.value, index))));
    }

    /** Storing the tweaks the RGB node reports for the wallet's own outputs. */
    method StoreTweaks(id: ContractId, outputs: seq<Output>, tx: Witness) returns (ok: bool)
      requires Valid() && id in storage.data
      modifies storage
      ensures Valid()
      ensures ok <==> |tx.outs| <= |outputs|
      ensures var n := if ok then |tx.outs| else |outputs|;
        Abstract() == AddTweaks(old(Abstract()), id, NewTweaks(outputs, tx.outs, env.txidOf(tx.psbt), n))
    {
      var txid := env.txidOf(tx.psbt);
      AddNoTweaks(Abstract(), id);
      assert NewTweaks(outputs, tx.outs, txid, 0) == {};
      for vout := 0 to |tx.outs|
        invariant Valid() && id in storage.data && vout <= |outputs|
        invariant Abstract() == AddTweaks(old(Abstract()), id, NewTweaks(outputs, tx.outs, txid, vout))
      {
        if vout >= |outputs| {
          return false;
        }
        var out := tx.outs[vout];
        TweaksStep(outputs, tx.outs, txid, vout);
        if out.pubkey.Some? && out.tweak.Some? && outputs[vout].index.Some? {
          var tweaked := TweakedOutput(OutPoint(txid, vout % U32_LIMIT), out.script, out.tweak.value,
                                       out.pubkey.value, outputs[vout].index.value);
          ghost var before := Abstract();
          var _ := storage.AddP2cTweak(id, tweaked);
          assert Abstract() == AddTweaks(before, id, {tweaked});
          AddTweaksTwice(old(Abstract()), id, NewTweaks(outputs, tx.outs, txid, vout), {tweaked});
        } else {
          assert NewTweaks(outputs, tx.outs, txid, vout + 1) == NewTweaks(outputs, tx.outs, txid, vout);
        }
      }
      return true;
    }

    /** From the request to the draft, marking the change address on the way. */
    method DraftTransfer(req: TransferRequest, w: TransferWorld) returns (r: Result<Draft>)
      requires Valid() && req.payFrom in storage.data
      requires Possible(Abstract(), ComposeTransfer(req, w))
      modifies cache
      ensures Valid()
      ensures r == PlanFor(env, old(Abstract()), req, w)
      ensures Abstract() == if r.Success? then Reserve(old(Abstract()), req.payFrom, r.value.reserved)
                            else old(Abstract())
    {
      var id := req.payFrom;
      var entry := Entry(cache.cache, id);
      var chosen := PickCoins(entry.unspent, req, w.order);
      if chosen.Failure? {
        return Failure(chosen.error);
      }
      ChosenFits(entry.unspent, req, w.order);
      r := SettleChoice(req, chosen.value, w.blindings);
    }

    method SettleChoice(req: TransferRequest, choice: Choice, blindings: Blindings) returns (r: Result<Draft>)
      requires Valid() && req.payFrom in storage.data
      requires choice.selection.total < U64_LIMIT
      modifies cache
      ensures Valid()
      ensures r == Settle(Entry(old(cache.cache), req.payFrom), AddressesOf(env, storage.data[req.payFrom].policy),
                          env.addressScript, req, choice, blindings)
      ensures Abstract() == if r.Success? then Reserve(old(Abstract()), req.payFrom, r.value.reserved)
                            else old(Abstract())
    {
      var id := req.payFrom;
      var unspent := cache.Unspent(id);
      var selection := choice.selection;
      if req.info.Rgb? && req.info.receiver.PsbtReceiver? {
        return Failure(UnsupportedReceiver);
      }
      if BITCOIN !in unspent {
        return Failure(CacheInconsistency);
      }
      var input := AddBitcoins(unspent[BITCOIN], SpentOutpoints(selection.picked));
      if input.Failure? || BitcoinValue(req) + req.bitcoinFee >= U64_LIMIT {
        return Failure(Overflow);
      }
      var change := AddChange(id, PaidOutputs(req), input.value, BitcoinValue(req) + req.bitcoinFee);
      if change.Failure? {
        return Failure(change.error);
      }
      var rgbChange := AssetChange(AssetRest(req, selection.total), selection.spare, change.value.vout,
                                   blindings.change);
      if rgbChange.Failure? {
        return Failure(rgbChange.error);
      }
      return Success(Draft(selection.picked, choice.balance, selection.total, change.value.outputs,
                           EndpointOf(req, blindings.endpoint), input.value, change.value.amount,
                           change.value.vout, change.value.reserved, rgbChange.value));
    }

    method Transfer(req: TransferRequest, w: TransferWorld) returns (reply: Reply)
      requires Valid()
      requires Possible(Abstract(), ComposeTransfer(req, w))
      modifies storage, cache
      ensures Valid()
      ensures (Abstract(), reply) == Compose(env, old(Abstract()), req, w)
    {
      if req.payFrom !in storage.data {
        return Refused(ContractNotFound);
      }
      ghost var s := Abstract();
      var draft := DraftTransfer(req, w);
      if draft.Failure? {
        return Refused(draft.error);
      }
      reply := Conclude(s, req, draft.value, w);
    }

    /** What follows the draft: connecting, committing to the assets, recording. */
    method Conclude(ghost s: State, req: TransferRequest, d: Draft, w: TransferWorld) returns (reply: Reply)
      requires Valid() && req.payFrom in s.contracts
      requires Abstract() == Reserve(s, req.payFrom, d.reserved)
      modifies storage
      ensures Valid()
      ensures (Abstract(), reply) == Finish(env, s, req, d, w)
    {
      if !w.connected {
        return Refused(ElectrumFailure);
      }
      if req.info.Bitcoin? {
        var psbt := PsbtOf(d);
        var _ := storage.RegisterOperation(req.payFrom, Record(env, req, d, psbt));
        return PreparedTransfer(psbt, false);
      }
      if w.answer.None? {
        return Refused(RgbNodeFailure);
      }
      var tx := w.answer.value;
      var stored := StoreTweaks(req.payFrom, d.outputs, tx);
      if !stored {
        return Refused(MalformedWitness);
      }
      if !w.enclosed {
        return Refused(RgbNodeFailure);
      }
      var _ := storage.RegisterOperation(req.payFrom, Record(env, req, d, tx.psbt));
      return PreparedTransfer(tx.psbt, true);
    }

    // ----- invoices -----

    /** One storage call per contract, until one fails. */
    method InvoiceEach(invoice: Invoice, sources: map<ContractId, Option<OutpointReveal>>, ids: seq<ContractId>)
      returns (n: nat)
      requires Valid() && forall id | id in ids :: id in sources
      modifies storage
      ensures Valid() && n <= |ids|
      ensures forall k | 0 <= k < n :: ids[k] in old(storage.data)
      ensures n < |ids| ==> ids[n] !in old(storage.data)
      ensures storage.data == InvoiceFirst(old(storage.data), invoice, sources, ids, n, env.conceal)
    {
      for i := 0 to |ids|
        invariant Valid()
        invariant forall k | 0 <= k < i :: ids[k] in old(storage.data)
        invariant storage.data == InvoiceFirst(old(storage.data), invoice, sources, ids, i, env.conceal)
      {
        InvoiceFirstKeys(old(storage.data), invoice, sources, ids, i, env.conceal);
        var r := storage.AddInvoiceTo(ids[i], invoice, OpeningList(sources[ids[i]]), env.conceal);
        if r.Failure? {
          return i;
        }
      }
      return |ids|;
    }

    /** The contracts of an invoice are visited in the order of their ids. */
    method SpreadInvoiceOver(invoice: Invoice, sources: map<ContractId, Option<OutpointReveal>>)
      returns (reply: Reply)
      requires Valid()
      modifies storage
      ensures Valid()
      ensures (Abstract(), reply) == SpreadInvoice(env, old(Abstract()), invoice, sources)
    {
      IdRanksApart(sources.Keys);
      var ids := Ascending(sources.Keys, IdRank);
      ListedInAll(ids, sources.Keys);
      var n := InvoiceEach(invoice, sources, ids);
      StoppedIsAll(old(storage.data), invoice, sources, ids, n, env.conceal);
      AllKnown(old(storage.data), sources, ids, n);
      reply := if n == |ids| then Done else Refused(ContractNotFound);
    }

    // ----- dispatch -----

    /** The service loop: a run of requests leads to the state of that run. */
    method Serve(events: seq<Event>)
      requires Valid() && PossibleRun(env, Abstract(), events)
      requires storage.codec.Invertible() && cache.codec.Invertible()
      modifies this, storage, cache
      ensures Valid()
      ensures Abstract() == Run(env, old(Abstract()), events)
    {
      for i := 0 to |events|
        invariant Valid() && PossibleRun(env, Abstract(), events[i..])
        invariant Run(env, Abstract(), events[i..]) == Run(env, old(Abstract()), events)
      {
        assert events[i..][0] == events[i] && events[i..][1..] == events[i + 1..];
        var _ := Process(events[i]);
      }
    }

    /** Carries out one request. */
    method Process(e: Event) returns (reply: Reply)
      requires Valid() && Possible(Abstract(), e)
      requires storage.codec.Invertible() && cache.codec.Invertible()
      modifies this, storage, cache
      ensures Valid()
      ensures (Abstract(), reply) == Step(env, old(Abstract()), e)
    {
      match e {
        case CreateContract(policy, name) =>
          var contract := NewContract(env.policyId(policy), name, policy);
          storage.AddContract(contract);
          reply := Created(contract);
        case RenameContract(id, name) =>
          var r := storage.RenameContract(id, name);
          reply := if r.Failure? then Refused(r.error) else Done;
        case DeleteContract(id) =>
          assert id !in storage.data ==> storage.data - {id} == storage.data;
          var r := storage.DeleteContract(id);
          reply := if r.Failure? then Refused(r.error) else Done;
        case SyncContract(id, depth, w) =>
          reply := SynchronizeContract(id, depth, w);
        case NextAddress(id, index, legacy, markUsed) =>
          reply := DeriveAddress(id, index, legacy, markUsed);
        case UnuseAddress(id, address) =>
          var _ := cache.ForgetAddressOf(id, address);
          reply := Done;
        case AddInvoiceTo(invoice, sources) =>
          reply := SpreadInvoiceOver(invoice, sources);
        case ComposeTransfer(req, w) =>
          reply := Transfer(req, w);
        case AcceptTransfer(endpoints, valid, accepted) =>
          reply := Accept(Abstract(), endpoints, valid, accepted);
        case ContractUnspent(id) =>
          reply := UnspentOutputs(cache.Unspent(id));
        case ContractOperations(id) =>
          reply := if id in storage.data then Operations(storage.data[id].operations)
                   else Refused(ContractNotFound);
        case Restart(height) =>
          var _ := storage.Load();
          var _ := cache.Load();
          knownHeight := height;
          reply := Done;
      }
    }
  }
}
