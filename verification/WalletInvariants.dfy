/** What every request keeps: of what any outside world answers, of what RGB nodes
    answer that do not report bitcoin, and of what servers of one chain answer. */
module WalletInvariants {
  import opened WalletTypes
  import opened Collections
  import opened CacheModel
  import opened CacheDriver
  import opened StorageModel
  import opened ChainScan
  import opened AssetMerge
  import opened TransferModel
  import opened TransferLaws
  import opened WalletModel

  // ----- the invariants -----

  /** One contract entry: every output is worth something and known as an outpoint. */
  ghost predicate SoundEntry(entry: ContractCache) {
    && (forall a, u | a in entry.unspent && u in entry.unspent[a] :: u.value > 0 && u.Outpoint() in entry.utxo)
    && (entry.unspent == map[] || BITCOIN in entry.unspent)
  }

  /** The address belongs to the contract at this index. */
  ghost predicate Derives(env: Env, id: ContractId, address: Address, i: Index) {
    exists policy, legacy :: env.policyId(policy) == id && env.addressOf(policy, i, legacy) == Some(address)
  }

  ghost predicate SoundUse(env: Env, cache: Cache) {
    forall id, address | address in Entry(cache, id).used ::
      Derives(env, id, address, Entry(cache, id).used[address])
  }

  ghost predicate SoundContract(env: Env, id: ContractId, c: Contract) {
    c.id == id == env.policyId(c.policy) && WellFormed(c, env.conceal)
  }

  ghost predicate SoundContracts(env: Env, contracts: Contracts) {
    forall id | id in contracts :: SoundContract(env, id, contracts[id])
  }

  /** Holds whatever servers and nodes answer. */
  ghost predicate Sound(env: Env, s: State) {
    && (forall id :: SoundEntry(Entry(s.cache, id)))
    && SoundUse(env, s.cache) && SoundContracts(env, s.contracts)
  }

  function TxValue(o: TxOut): nat {
    o.value
  }

  /** A recorded payment adds up: bitcoins to the unit, with the recorded transaction,
      or the asset for an RGB payment. */
  ghost predicate Balanced(op: Operation) {
    if op.disclosed then op.assetVolume == op.assetValue + op.assetChange
    else
      && op.bitcoinVolume == op.bitcoinValue + op.bitcoinChange + op.txFee
      && op.assetVolume == op.bitcoinVolume && op.assetValue == op.bitcoinValue
      && op.assetChange == op.bitcoinChange
      && SeqSum(op.psbt.outputs, TxValue) + op.txFee == op.bitcoinVolume
  }

  /** Outpoints are unique per asset and all records add up. Holds as long as no RGB
      node reports bitcoin as an asset, whatever the servers answer. */
  ghost predicate Exact(s: State) {
    && (forall id :: UniquePerAsset(Entry(s.cache, id).unspent))
    && (forall id, op | id in s.contracts && op in s.contracts[id].operations :: Balanced(op))
  }

  ghost predicate TrueNode(e: Event) {
    e.SyncContract? ==> NoBitcoinAsset(e.sync.node)
  }

  /** Positions are those of one chain and lead back to their transactions. Holds as
      long as the servers agree with that chain, whatever the nodes report. */
  ghost predicate Positioned(chain: Chain, s: State) {
    && OnChain(s.cache.mineInfo, chain)
    && forall id, a, u | a in Entry(s.cache, id).unspent && u in Entry(s.cache, id).unspent[a] ::
         Located(u, s.cache.mineInfo)
  }

  ghost predicate OnOneChain(chain: Chain, e: Event) {
    e.SyncContract? && e.sync.server.Some? ==> Agrees(e.sync.server.value, chain)
  }

  // ----- synchronization -----

  /** What a successful synchronization leaves behind. */
  lemma SyncEffect(env: Env, s: State, id: ContractId, depth: nat, w: SyncWorld)
    requires depth >= 1
    ensures var (s', reply) := Sync(env, s, id, depth, w);
      && s'.contracts == s.contracts
      && (!reply.SyncedAssets? ==> s'.cache == s.cache)
      && (reply.SyncedAssets? ==>
            && w.server.Some? && id in s.contracts
            && var l := Discovered(env, s, id, depth, w.server.value, w.tweakOrder);
               Coherent(l) && MergedAssets(l, w.node) == Success(reply.assets) &&
               s'.cache == Updated(s.cache, id, l.mineInfo, LastHeader(s.knownHeight, w.headers),
                                   l.outpoints, reply.assets))
  {
    if w.server.Some? && id in s.contracts {
      DiscoveredCoheres(env, s, id, depth, w.server.value, w.tweakOrder);
    }
  }

  lemma SyncKeepsUse(env: Env, s: State, id: ContractId, depth: nat, w: SyncWorld)
    requires depth >= 1
    ensures forall other :: Entry(Sync(env, s, id, depth, w).0.cache, other).used == Entry(s.cache, other).used
  {
    SyncEffect(env, s, id, depth, w);
  }

  /** What the cache files of the reported lists. */
  function Filed(assets: AssetLists): Unspent {
    map a | a in assets :: Positive(assets[a])
  }

  lemma MergedAreCopies(l: Ledger, node: RgbNode, a: AssetId, u: Utxo)
    requires Coherent(l) && MergedAssets(l, node).Success?
    requires a in MergedAssets(l, node).value && u in Positive(MergedAssets(l, node).value[a])
    ensures u.value > 0 && CopyOf(u, l.unspent, |l.unspent|) && u.Outpoint() in l.outpoints
  {
    CoherentPairs(l);
    MergeCopies(l.unspent, SortedOutpoints(l.outpoints), node, |l.unspent|, a);
    assert u in Listed(MergedAssets(l, node).value, a);
    CopyIsKnown(l, u);
  }

  lemma CopyIsKnown(l: Ledger, u: Utxo)
    requires Coherent(l) && CopyOf(u, l.unspent, |l.unspent|)
    ensures u.Outpoint() in l.outpoints
  {
    var i :| 0 <= i < |l.unspent| && u == l.unspent[i].(value := u.value);
    assert OutpointList(l.unspent)[i] in Elements(OutpointList(l.unspent));
  }

  lemma SyncKeepsEntries(env: Env, s: State, id: ContractId, depth: nat, w: SyncWorld)
    requires depth >= 1 && Sync(env, s, id, depth, w).1.SyncedAssets?
    ensures SoundEntry(Entry(Sync(env, s, id, depth, w).0.cache, id))
  {
    SyncEffect(env, s, id, depth, w);
    var l := Discovered(env, s, id, depth, w.server.value, w.tweakOrder);
    var assets := MergedAssets(l, w.node).value;
    forall a, u | a in assets && u in Positive(assets[a])
      ensures u.value > 0 && u.Outpoint() in l.outpoints
    {
      MergedAreCopies(l, w.node, a, u);
    }
    CoherentPairs(l);
    MergeFilesBitcoin(l.unspent, SortedOutpoints(l.outpoints), w.node, |l.unspent|);
  }

  lemma PositiveIsUnique(list: seq<Utxo>)
    requires DistinctOutpoints(list)
    ensures UniqueOutpoints(Positive(list))
  {
    forall u, v | u in Positive(list) && v in Positive(list) && u.Outpoint() == v.Outpoint()
      ensures u == v
    {
      var i :| 0 <= i < |list| && list[i] == u;
      var j :| 0 <= j < |list| && list[j] == v;
      assert OutpointList(list)[i] == OutpointList(list)[j];
    }
  }

  lemma MergedAreDistinct(l: Ledger, node: RgbNode, a: AssetId)
    requires Coherent(l) && MergedAssets(l, node).Success? && a in MergedAssets(l, node).value
    requires a != BITCOIN || NoBitcoinAsset(node)
    ensures DistinctOutpoints(MergedAssets(l, node).value[a])
  {
    CoherentPairs(l);
    MergeShape(l.unspent, SortedOutpoints(l.outpoints), node, |l.unspent|, a);
  }

  lemma SyncKeepsUnique(env: Env, s: State, id: ContractId, depth: nat, w: SyncWorld)
    requires depth >= 1 && Sync(env, s, id, depth, w).1.SyncedAssets? && NoBitcoinAsset(w.node)
    ensures UniquePerAsset(Entry(Sync(env, s, id, depth, w).0.cache, id).unspent)
  {
    SyncEffect(env, s, id, depth, w);
    var l := Discovered(env, s, id, depth, w.server.value, w.tweakOrder);
    var assets := MergedAssets(l, w.node).value;
    forall a | a in assets
      ensures UniqueOutpoints(Positive(assets[a]))
    {
      MergedAreDistinct(l, w.node, a);
      PositiveIsUnique(assets[a]);
    }
  }

  /** Later block positions never displace earlier ones. */
  lemma MineInfoGrows(old': map<BlockPos, Txid>, new': map<BlockPos, Txid>, chain: Chain)
    requires OnChain(old', chain) && OnChain(new', chain)
    ensures OnChain(old' + new', chain)
    ensures forall p | p in old' :: (old' + new')[p] == old'[p]
  {
    forall p | p in old'
      ensures (old' + new')[p] == old'[p]
    {
      assert chain(p) == Some(old'[p]);
    }
  }

  lemma SyncKeepsPositions(env: Env, chain: Chain, s: State, id: ContractId, depth: nat, w: SyncWorld)
    requires depth >= 1 && Positioned(chain, s) && OnOneChain(chain, SyncContract(id, depth, w))
    ensures Positioned(chain, Sync(env, s, id, depth, w).0)
  {
    SyncEffect(env, s, id, depth, w);
    var (s', reply) := Sync(env, s, id, depth, w);
    if reply.SyncedAssets? {
      var server := w.server.value;
      var l := Discovered(env, s, id, depth, server, w.tweakOrder);
      AbsorbAllIndexed(server, Queries(env, s, id, depth, server, w.tweakOrder), env.readAddress, chain);
      MineInfoGrows(s.cache.mineInfo, l.mineInfo, chain);
      forall c, a, u | a in Entry(s'.cache, c).unspent && u in Entry(s'.cache, c).unspent[a]
        ensures Located(u, s'.cache.mineInfo)
      {
        if c == id {
          MergedAreCopies(l, w.node, a, u);
          CopyIsLocated(l, u, chain);
        } else {
          assert Entry(s'.cache, c) == Entry(s.cache, c);
          assert Located(u, s.cache.mineInfo);
        }
      }
    }
  }

  lemma CopyIsLocated(l: Ledger, u: Utxo, chain: Chain)
    requires Indexed(l, chain) && CopyOf(u, l.unspent, |l.unspent|)
    ensures Located(u, l.mineInfo)
  {
    var i :| 0 <= i < |l.unspent| && u == l.unspent[i].(value := u.value);
    assert l.unspent[i] in l.unspent;
  }

  // ----- addresses -----

  lemma UseKeepsUse(env: Env, cache: Cache, id: ContractId, address: Address, path: Index)
    requires SoundUse(env, cache)
    ensures Derives(env, id, address, path) ==> SoundUse(env, OnContract(cache, id, UseAddress(address, path)).0)
    ensures SoundUse(env, OnContract(cache, id, ForgetAddress(address)).0)
  {
    var marked := OnContract(cache, id, UseAddress(address, path)).0;
    var forgotten := OnContract(cache, id, ForgetAddress(address)).0;
    forall other | other != id
      ensures Entry(marked, other) == Entry(cache, other) == Entry(forgotten, other)
    {
    }
    var used := Entry(cache, id).used;
    assert forall x | x in used :: Derives(env, id, x, used[x]);
    assert Entry(forgotten, id).used == used - {address};
    assert Entry(marked, id).used == used || Entry(marked, id).used == used[address := path];
  }

  lemma DeriveKeeps(env: Env, s: State, id: ContractId, index: Option<Index>, legacy: bool, markUsed: bool)
    requires Sound(env, s)
    ensures SoundUse(env, Derive(env, s, id, index, legacy, markUsed).0.cache)
  {
    if id in s.contracts {
      var next := NextUnused(Entry(s.cache, id).used);
      var i := match index case None => next case Some(given) => given;
      var derived := env.addressOf(s.contracts[id].policy, i, legacy);
      if derived.Some? {
        assert Derives(env, id, derived.value, i) by {
          assert SoundContract(env, id, s.contracts[id]);
        }
        UseKeepsUse(env, s.cache, id, derived.value, i);
      }
    }
  }

  // ----- transfers -----

  lemma {:induction false} TxTotal(outputs: seq<Output>)
    ensures SeqSum(TxOutputs(outputs), TxValue) == OutputTotal(outputs)
  {
    if outputs != [] {
      var init := outputs[..|outputs| - 1];
      TxTotal(init);
      assert TxOutputs(outputs)[..|TxOutputs(outputs)| - 1] == TxOutputs(init);
    }
  }

  lemma RecordBalances(env: Env, s: State, req: TransferRequest, w: TransferWorld, psbt: Psbt)
    requires req.payFrom in s.contracts
    requires UniquePerAsset(Entry(s.cache, req.payFrom).unspent)
    requires Offered(Entry(s.cache, req.payFrom), req, w.order)
    requires PlanFor(env, s, req, w).Success?
    requires req.info.Bitcoin? ==> psbt == PsbtOf(PlanFor(env, s, req, w).value)
    ensures var d := PlanFor(env, s, req, w).value;
      && Balanced(Record(env, req, d, psbt))
      && (req.info.Rgb? ==> Record(env, req, d, psbt).assetChange == SealTotal(d.rgbChange))
  {
    var entry := Entry(s.cache, req.payFrom);
    var addressAt := AddressesOf(env, s.contracts[req.payFrom].policy);
    var d := PlanFor(env, s, req, w).value;
    DraftFollowsChoice(entry, addressAt, env.addressScript, req, w.order, w.blindings);
    if req.info.Bitcoin? {
      BitcoinIsConserved(entry, addressAt, env.addressScript, req, w.order, w.blindings);
      TxTotal(d.outputs);
    } else {
      AssetIsConserved(entry, addressAt, env.addressScript, req, w.order, w.blindings);
    }
  }

  /** Finishing a transfer appends at most one record, and changes of the contract
      only its tweaks; of the cache only the reserved address. */
  lemma FinishEffect(env: Env, s: State, req: TransferRequest, d: Draft, w: TransferWorld)
    requires req.payFrom in s.contracts
    ensures var (s', reply) := Finish(env, s, req, d, w);
            var before, after := s.contracts[req.payFrom], s'.contracts[req.payFrom];
      && s'.cache == Reserve(s, req.payFrom, d.reserved).cache
      && s'.knownHeight == s.knownHeight
      && s'.contracts == s.contracts[req.payFrom := after]
      && after == before.(tweaks := after.tweaks, operations := after.operations)
      && before.tweaks <= after.tweaks
      && match reply
         case PreparedTransfer(psbt, consigned) =>
           && after.operations == before.operations + [Record(env, req, d, psbt)]
           && consigned == req.info.Rgb?
           && (req.info.Bitcoin? ==> psbt == PsbtOf(d))
         case Refused(e) =>
           && after.operations == before.operations
           && e in {ElectrumFailure, RgbNodeFailure, MalformedWitness}
           && (req.info.Bitcoin? ==> e == ElectrumFailure && after == before)
         case _ => false
  {
  }

  lemma PlanReserves(env: Env, s: State, req: TransferRequest, w: TransferWorld)
    requires req.payFrom in s.contracts && PlanFor(env, s, req, w).Success?
    ensures var d := PlanFor(env, s, req, w).value;
            var entry := Entry(s.cache, req.payFrom);
            var next := NextUnused(entry.used);
      && (d.reserved.Some? <==> d.bitcoinChange > 0)
      && (d.reserved.Some? ==>
            && d.reserved.value.1 == next
            && env.addressOf(s.contracts[req.payFrom].policy, next, false) == Some(d.reserved.value.0)
            && (d.reserved.value.0 in entry.used ==> entry.used[d.reserved.value.0] == next))
  {
  }

  lemma ComposeKeepsUse(env: Env, s: State, req: TransferRequest, w: TransferWorld)
    requires Sound(env, s)
    ensures SoundUse(env, Compose(env, s, req, w).0.cache)
  {
    if req.payFrom in s.contracts && PlanFor(env, s, req, w).Success? {
      var d := PlanFor(env, s, req, w).value;
      FinishEffect(env, s, req, d, w);
      PlanReserves(env, s, req, w);
      if d.reserved.Some? {
        var (address, next) := d.reserved.value;
        assert Derives(env, req.payFrom, address, next) by {
          assert SoundContract(env, req.payFrom, s.contracts[req.payFrom]);
        }
        UseKeepsUse(env, s.cache, req.payFrom, address, next);
      }
    }
  }

  lemma ComposeKeepsContracts(env: Env, s: State, req: TransferRequest, w: TransferWorld)
    requires SoundContracts(env, s.contracts)
    ensures SoundContracts(env, Compose(env, s, req, w).0.contracts)
  {
    if req.payFrom in s.contracts && PlanFor(env, s, req, w).Success? {
      assert SoundContract(env, req.payFrom, s.contracts[req.payFrom]);
      FinishEffect(env, s, req, PlanFor(env, s, req, w).value, w);
    }
  }

  ghost predicate Balances(c: Contract) {
    forall op | op in c.operations :: Balanced(op)
  }

  lemma ComposeKeepsBalance(env: Env, s: State, req: TransferRequest, w: TransferWorld, id: ContractId)
    requires Exact(s) && Possible(s, ComposeTransfer(req, w)) && id in s.contracts
    ensures var (s', reply) := Compose(env, s, req, w);
      id in s'.contracts && Balances(s'.contracts[id])
  {
    assert Balances(s.contracts[id]);
    if req.payFrom in s.contracts && PlanFor(env, s, req, w).Success? {
      FinishEffect(env, s, req, PlanFor(env, s, req, w).value, w);
      assert Balances(s.contracts[req.payFrom]);
      FinishKeepsBalance(env, s, req, w);
    }
  }

  lemma FinishKeepsBalance(env: Env, s: State, req: TransferRequest, w: TransferWorld)
    requires req.payFrom in s.contracts && Balances(s.contracts[req.payFrom])
    requires UniquePerAsset(Entry(s.cache, req.payFrom).unspent) && Possible(s, ComposeTransfer(req, w))
    requires PlanFor(env, s, req, w).Success?
    ensures var (s', reply) := Finish(env, s, req, PlanFor(env, s, req, w).value, w);
      req.payFrom in s'.contracts && Balances(s'.contracts[req.payFrom])
  {
    var d := PlanFor(env, s, req, w).value;
    FinishEffect(env, s, req, d, w);
    var reply := Finish(env, s, req, d, w).1;
    if reply.PreparedTransfer? {
      RecordBalances(env, s, req, w, reply.psbt);
    }
  }

  // ----- what reading a contract gives -----

  ghost predicate SameReading(before: Cache, after: Cache, id: ContractId) {
    && Entry(after, id).unspent == Entry(before, id).unspent
    && Entry(after, id).utxo == Entry(before, id).utxo
  }

  /** Only a synchronization of the contract itself changes what reading it gives, and
      only a synchronization adds positions. */
  lemma ReadingStep(env: Env, s: State, e: Event, id: ContractId)
    requires Possible(s, e) && !(e.SyncContract? && e.id == id)
    ensures SameReading(s.cache, Step(env, s, e).0.cache, id)
    ensures !e.SyncContract? ==> Step(env, s, e).0.cache.mineInfo == s.cache.mineInfo
  {
    match e
    case ComposeTransfer(req, w) => ComposeKeepsReading(env, s, req, w, id);
    case SyncContract(c, depth, w) => SyncEffect(env, s, c, depth, w);
    case NextAddress(c, index, legacy, markUsed) => DeriveKeepsReading(env, s, c, index, legacy, markUsed, id);
    case UnuseAddress(c, address) => UseKeepsReading(s.cache, c, address, 0, id);
    case _ =>
  }

  lemma UseKeepsReading(cache: Cache, c: ContractId, address: Address, path: Index, id: ContractId)
    ensures SameReading(cache, OnContract(cache, c, UseAddress(address, path)).0, id)
    ensures SameReading(cache, OnContract(cache, c, ForgetAddress(address)).0, id)
  {
  }

  lemma DeriveKeepsReading(env: Env, s: State, c: ContractId, index: Option<Index>, legacy: bool, markUsed: bool,
                           id: ContractId)
    ensures SameReading(s.cache, Derive(env, s, c, index, legacy, markUsed).0.cache, id)
    ensures Derive(env, s, c, index, legacy, markUsed).0.cache.mineInfo == s.cache.mineInfo
  {
  }

  lemma ComposeKeepsReading(env: Env, s: State, req: TransferRequest, w: TransferWorld, id: ContractId)
    ensures SameReading(s.cache, Compose(env, s, req, w).0.cache, id)
    ensures Compose(env, s, req, w).0.cache.mineInfo == s.cache.mineInfo
  {
    if req.payFrom in s.contracts && PlanFor(env, s, req, w).Success? {
      FinishEffect(env, s, req, PlanFor(env, s, req, w).value, w);
    }
  }

  // ----- every request -----

  lemma InvoiceKeeps(env: Env, s: State, invoice: Invoice, sources: map<ContractId, Option<OutpointReveal>>,
                     id: ContractId)
    requires id in s.contracts
    ensures var c' := InvoiceAll(s.contracts, invoice, sources, env.conceal)[id];
      && (SoundContract(env, id, s.contracts[id]) ==> SoundContract(env, id, c'))
      && c'.operations == s.contracts[id].operations
  {
    if Reached(s.contracts, sources, id) {
      AddInvoiceWellFormed(s.contracts[id], invoice, env.conceal);
      AddBlindingsWellFormed(AddInvoice(s.contracts[id], invoice), OpeningList(sources[id]), env.conceal);
    }
  }

  lemma StepKeepsContracts(env: Env, s: State, e: Event)
    requires SoundContracts(env, s.contracts) && Possible(s, e)
    ensures SoundContracts(env, Step(env, s, e).0.contracts)
  {
    match e
    case RenameContract(id, name) =>
      if id in s.contracts { assert SoundContract(env, id, s.contracts[id]); }
    case SyncContract(id, depth, w) => SyncEffect(env, s, id, depth, w);
    case AddInvoiceTo(invoice, sources) =>
      forall id | id in s.contracts
        ensures SoundContract(env, id, InvoiceAll(s.contracts, invoice, sources, env.conceal)[id])
      {
        InvoiceKeeps(env, s, invoice, sources, id);
      }
    case ComposeTransfer(req, w) => ComposeKeepsContracts(env, s, req, w);
    case _ =>
  }

  lemma StepKeepsUse(env: Env, s: State, e: Event)
    requires Sound(env, s) && Possible(s, e)
    ensures SoundUse(env, Step(env, s, e).0.cache)
  {
    match e
    case SyncContract(id, depth, w) => SyncKeepsUse(env, s, id, depth, w);
    case NextAddress(id, index, legacy, markUsed) => DeriveKeeps(env, s, id, index, legacy, markUsed);
    case UnuseAddress(id, address) => UseKeepsUse(env, s.cache, id, address, 0);
    case ComposeTransfer(req, w) => ComposeKeepsUse(env, s, req, w);
    case _ =>
  }

  /** Every request keeps the wallet sound, whatever servers and nodes answer. */
  lemma StepKeepsSound(env: Env, s: State, e: Event)
    requires Sound(env, s) && Possible(s, e)
    ensures Sound(env, Step(env, s, e).0)
  {
    StepKeepsContracts(env, s, e);
    StepKeepsUse(env, s, e);
    forall id
      ensures SoundEntry(Entry(Step(env, s, e).0.cache, id))
    {
      EntryStaysSound(env, s, e, id);
    }
  }

  lemma EntryStaysSound(env: Env, s: State, e: Event, id: ContractId)
    requires SoundEntry(Entry(s.cache, id)) && Possible(s, e)
    ensures SoundEntry(Entry(Step(env, s, e).0.cache, id))
  {
    if e.SyncContract? && e.id == id {
      SyncEffect(env, s, id, e.depth, e.sync);
      if Sync(env, s, id, e.depth, e.sync).1.SyncedAssets? {
        SyncKeepsEntries(env, s, id, e.depth, e.sync);
      }
    } else {
      ReadingStep(env, s, e, id);
    }
  }

  lemma StepKeepsBalance(env: Env, s: State, e: Event, id: ContractId)
    requires Exact(s) && Possible(s, e) && id in Step(env, s, e).0.contracts
    ensures Balances(Step(env, s, e).0.contracts[id])
  {
    match e
    case SyncContract(c, depth, w) => SyncEffect(env, s, c, depth, w);
    case AddInvoiceTo(invoice, sources) => InvoiceKeeps(env, s, invoice, sources, id);
    case ComposeTransfer(req, w) =>
      if req.payFrom in s.contracts && PlanFor(env, s, req, w).Success? {
        FinishEffect(env, s, req, PlanFor(env, s, req, w).value, w);
      }
      ComposeKeepsBalance(env, s, req, w, id);
    case _ =>
  }

  /** Every request keeps outpoints unique and records balanced, whatever the servers
      answer, even if they contradict each other. */
  lemma StepKeepsExact(env: Env, s: State, e: Event)
    requires Exact(s) && Possible(s, e) && TrueNode(e)
    ensures Exact(Step(env, s, e).0)
  {
    var s' := Step(env, s, e).0;
    forall id, op | id in s'.contracts && op in s'.contracts[id].operations
      ensures Balanced(op)
    {
      StepKeepsBalance(env, s, e, id);
    }
    forall id
      ensures UniquePerAsset(Entry(s'.cache, id).unspent)
    {
      if e.SyncContract? && e.id == id {
        SyncEffect(env, s, id, e.depth, e.sync);
        if Sync(env, s, id, e.depth, e.sync).1.SyncedAssets? {
          SyncKeepsUnique(env, s, id, e.depth, e.sync);
        }
      } else {
        ReadingStep(env, s, e, id);
      }
    }
  }

  /** Every request keeps the positions of one chain. */
  lemma StepKeepsPositions(env: Env, chain: Chain, s: State, e: Event)
    requires Positioned(chain, s) && Possible(s, e) && OnOneChain(chain, e)
    ensures Positioned(chain, Step(env, s, e).0)
  {
    if e.SyncContract? {
      SyncKeepsPositions(env, chain, s, e.id, e.depth, e.sync);
    } else {
      var after := Step(env, s, e).0.cache;
      ReadingStep(env, s, e, ContractId(0));
      forall id, a, u | a in Entry(after, id).unspent && u in Entry(after, id).unspent[a]
        ensures Located(u, after.mineInfo)
      {
        ReadingStep(env, s, e, id);
      }
    }
  }

  /** Every state the wallet can reach is sound, whatever servers and nodes answered. */
  lemma {:induction false} RunKeepsSound(env: Env, s: State, events: seq<Event>)
    requires Sound(env, s) && PossibleRun(env, s, events)
    ensures Sound(env, Run(env, s, events))
    decreases |events|
  {
    if events != [] {
      StepKeepsSound(env, s, events[0]);
      RunKeepsSound(env, Step(env, s, events[0]).0, events[1..]);
    }
  }

  /** It is exact as long as no node reported bitcoin, and positioned as long as the
      servers agreed with one chain. */
  lemma {:induction false} RunKeepsExact(env: Env, s: State, events: seq<Event>)
    requires Exact(s) && PossibleRun(env, s, events) && forall e | e in events :: TrueNode(e)
    ensures Exact(Run(env, s, events))
    decreases |events|
  {
    if events != [] {
      StepKeepsExact(env, s, events[0]);
      RunKeepsExact(env, Step(env, s, events[0]).0, events[1..]);
    }
  }

  lemma {:induction false} RunKeepsPositions(env: Env, chain: Chain, s: State, events: seq<Event>)
    requires Positioned(chain, s) && PossibleRun(env, s, events) && forall e | e in events :: OnOneChain(chain, e)
    ensures Positioned(chain, Run(env, s, events))
    decreases |events|
  {
    if events != [] {
      StepKeepsPositions(env, chain, s, events[0]);
      RunKeepsPositions(env, chain, Step(env, s, events[0]).0, events[1..]);
    }
  }
}
