/** What holds in every run of the wallet. */
module WalletRuns {
  import opened WalletTypes
  import opened Collections
  import opened CacheModel
  import opened StorageModel
  import opened ChainScan
  import opened AssetMerge
  import opened CoinSelection
  import opened TransferModel
  import opened TransferLaws
  import opened WalletModel
  import opened WalletInvariants

  /** The states the wallet can reach, whatever servers and nodes answer. */
  ghost predicate Reachable(env: Env, s: State) {
    exists events :: PossibleRun(env, INITIAL, events) && s == Run(env, INITIAL, events)
  }

  /** Those it can reach while no RGB node reports bitcoin as an asset; the servers may
      still contradict each other, as after a reorganization. */
  ghost predicate ReachableExactly(env: Env, s: State) {
    exists events ::
      && PossibleRun(env, INITIAL, events) && s == Run(env, INITIAL, events)
      && forall e | e in events :: TrueNode(e)
  }

  /** Those it can reach while the servers agree with one chain. */
  ghost predicate ReachableOn(env: Env, chain: Chain, s: State) {
    exists events ::
      && PossibleRun(env, INITIAL, events) && s == Run(env, INITIAL, events)
      && forall e | e in events :: OnOneChain(chain, e)
  }

  lemma ReachableIsSound(env: Env, s: State)
    requires Reachable(env, s)
    ensures Sound(env, s)
  {
    var events :| PossibleRun(env, INITIAL, events) && s == Run(env, INITIAL, events);
    RunKeepsSound(env, INITIAL, events);
  }

  lemma ReachableIsExact(env: Env, s: State)
    requires ReachableExactly(env, s)
    ensures Sound(env, s) && Exact(s)
  {
    var events :|
      && PossibleRun(env, INITIAL, events) && s == Run(env, INITIAL, events)
      && forall e | e in events :: TrueNode(e);
    RunKeepsSound(env, INITIAL, events);
    RunKeepsExact(env, INITIAL, events);
  }

  lemma ReachableIsPositioned(env: Env, chain: Chain, s: State)
    requires ReachableOn(env, chain, s)
    ensures Positioned(chain, s)
  {
    var events :|
      && PossibleRun(env, INITIAL, events) && s == Run(env, INITIAL, events)
      && forall e | e in events :: OnOneChain(chain, e);
    RunKeepsPositions(env, chain, INITIAL, events);
  }

  // ----- bitcoin transfers -----

  /** The cached bitcoin outputs a transaction spends. */
  function Spent(unspent: Unspent, inputs: seq<OutPoint>): set<Utxo> {
    if BITCOIN !in unspent then {} else set u | u in unspent[BITCOIN] && u.Outpoint() in inputs
  }

  lemma SpentIsPicked(unspent: Unspent, picked: seq<Utxo>)
    requires BITCOIN in unspent && UniqueOutpoints(unspent[BITCOIN])
    requires Elements(picked) <= unspent[BITCOIN] && NoDuplicates(picked)
    ensures Spent(unspent, TxInputs(picked)) == Elements(picked)
    ensures NoDuplicates(TxInputs(picked)) && |Spent(unspent, TxInputs(picked))| == |TxInputs(picked)|
    ensures Elements(TxInputs(picked)) == SpentOutpoints(picked)
  {
    var inputs := TxInputs(picked);
    forall i | 0 <= i < |picked|
      ensures picked[i] in Elements(picked) && inputs[i] == picked[i].Outpoint() && inputs[i] in inputs
    {
    }
    forall u | u in Spent(unspent, inputs)
      ensures u in Elements(picked)
    {
      var i :| 0 <= i < |inputs| && inputs[i] == u.Outpoint();
      assert picked[i] in unspent[BITCOIN];
    }
    forall u | u in Elements(picked)
      ensures u in Spent(unspent, inputs)
    {
      var i :| 0 <= i < |picked| && picked[i] == u;
      assert inputs[i] == u.Outpoint();
    }
    ElementsSize(picked);
  }

  /** In every run in which no node reports bitcoin, each prepared bitcoin transfer
      spends every input once, pays out with its fee exactly what the cached outputs
      under its inputs are worth, and spends no outpoint on which the cache knows any
      asset. */
  lemma BitcoinTransfersConserve(env: Env, s: State, req: TransferRequest, w: TransferWorld)
    requires ReachableExactly(env, s) && Possible(s, ComposeTransfer(req, w))
    requires req.info.Bitcoin? && Step(env, s, ComposeTransfer(req, w)).1.PreparedTransfer?
    ensures var psbt := Step(env, s, ComposeTransfer(req, w)).1.psbt;
            var unspent := Entry(s.cache, req.payFrom).unspent;
            var spent := Spent(unspent, psbt.inputs);
      && NoDuplicates(psbt.inputs) && |spent| == |psbt.inputs|
      && SeqSum(psbt.outputs, TxValue) + req.bitcoinFee == Sum(spent, ValueOf)
      && (forall o, a | o in psbt.inputs && a in unspent && a != BITCOIN :: o !in OutpointsOf(unspent[a]))
  {
    ReachableIsExact(env, s);
    var entry := Entry(s.cache, req.payFrom);
    var addressAt := AddressesOf(env, s.contracts[req.payFrom].policy);
    var d := PlanFor(env, s, req, w).value;
    FinishEffect(env, s, req, d, w);
    DraftFollowsChoice(entry, addressAt, env.addressScript, req, w.order, w.blindings);
    ChosenAreOffered(entry.unspent, req, w.order);
    BitcoinIsConserved(entry, addressAt, env.addressScript, req, w.order, w.blindings);
    InputsCarryNoAsset(entry, addressAt, env.addressScript, req, w.order, w.blindings);
    SpentIsPicked(entry.unspent, d.picked);
    SeqSumIsSum(d.picked, ValueOf);
    TxTotal(d.outputs);
    forall o, a | o in TxInputs(d.picked) && a in entry.unspent && a != BITCOIN
      ensures o !in OutpointsOf(entry.unspent[a])
    {
      assert o in Elements(TxInputs(d.picked));
      var u :| u in d.picked && u.Outpoint() == o;
      forall v | v in entry.unspent[a]
        ensures v.Outpoint() != o
      {
        assert v.value > 0;
      }
    }
  }

  /** A prepared bitcoin transfer pays the receiver the requested value in its first
      output, and any change to the wallet's next unused address, which it marks. */
  lemma ReceiverIsPaid(env: Env, s: State, req: TransferRequest, w: TransferWorld)
    requires ReachableExactly(env, s) && Possible(s, ComposeTransfer(req, w))
    requires req.info.Bitcoin? && Step(env, s, ComposeTransfer(req, w)).1.PreparedTransfer?
    ensures var (s', reply) := Step(env, s, ComposeTransfer(req, w));
            var used := Entry(s.cache, req.payFrom).used;
            var own := env.addressOf(s.contracts[req.payFrom].policy, NextUnused(used), false);
            var worth := Sum(Spent(Entry(s.cache, req.payFrom).unspent, reply.psbt.inputs), ValueOf);
            var change := worth - req.assetValue - req.bitcoinFee;
      if change == 0
      then reply.psbt.outputs == [TxOut(req.assetValue, req.info.script)] && s'.cache == s.cache
      else change > 0 && own.Some? &&
           |reply.psbt.outputs| == 2 &&
           reply.psbt.outputs[0] == TxOut(req.assetValue, req.info.script) &&
           reply.psbt.outputs[1].value == change &&
           reply.psbt.outputs[1].script == env.addressScript(own.value) &&
           Entry(s'.cache, req.payFrom).used == used[own.value := NextUnused(used)]
  {
    BitcoinTransfersConserve(env, s, req, w);
    var entry := Entry(s.cache, req.payFrom);
    var addressAt := AddressesOf(env, s.contracts[req.payFrom].policy);
    var d := PlanFor(env, s, req, w).value;
    FinishEffect(env, s, req, d, w);
    BitcoinOutputs(entry, addressAt, env.addressScript, req,
                   ChooseCoins(entry.unspent, req, w.order).value, w.blindings);
  }

  /** The outputs of a bitcoin draft: the payment, then the change if there is any. */
  lemma BitcoinOutputs(entry: ContractCache, addressAt: AddressAt, addressScript: AddressScript,
                       req: TransferRequest, choice: Choice, blindings: Blindings)
    requires req.info.Bitcoin?
    requires Settle(entry, addressAt, addressScript, req, choice, blindings).Success?
    ensures var d := Settle(entry, addressAt, addressScript, req, choice, blindings).value;
            var next := NextUnused(entry.used);
            var paid := TxOut(req.assetValue, req.info.script);
      && SeqSum(TxOutputs(d.outputs), TxValue) == req.assetValue + d.bitcoinChange
      && if d.bitcoinChange == 0 then TxOutputs(d.outputs) == [paid] && d.reserved == None
         else addressAt(next, false).Some? &&
              d.reserved == Some((addressAt(next, false).value, next)) &&
              TxOutputs(d.outputs) == [paid, TxOut(d.bitcoinChange, addressScript(addressAt(next, false).value))]
  {
    var d := Settle(entry, addressAt, addressScript, req, choice, blindings).value;
    ChangeIsOwn(entry, addressAt, addressScript, req, choice, blindings);
    PaidTotal(req);
    ChangeTotal(entry.used, addressAt, addressScript, PaidOutputs(req), d.bitcoinInput,
                BitcoinValue(req) + req.bitcoinFee);
    TxTotal(d.outputs);
  }

  /** In every run, an RGB transfer that is composed moves exactly the asset value; the
      rest stays on the wallet's unspent coins or on its own change output. */
  lemma RgbTransfersConserve(env: Env, s: State, req: TransferRequest, w: TransferWorld)
    requires ReachableExactly(env, s) && Possible(s, ComposeTransfer(req, w))
    requires req.info.Rgb? && req.payFrom in s.contracts && PlanFor(env, s, req, w).Success?
    ensures var d := PlanFor(env, s, req, w).value;
            var entry := Entry(s.cache, req.payFrom);
            var held := Candidates(entry.unspent, req.info).value;
            var addressAt := AddressesOf(env, s.contracts[req.payFrom].policy);
      && req.assetValue + SealTotal(d.rgbChange) == SeqSum(d.picked, ValueOf)
      && (forall u | u in d.picked :: u in held)
      && (forall seal | seal in d.rgbChange ::
            SafeSeal(seal, d, held, NextUnused(entry.used), addressAt, env.addressScript))
  {
    ReachableIsExact(env, s);
    var entry := Entry(s.cache, req.payFrom);
    var addressAt := AddressesOf(env, s.contracts[req.payFrom].policy);
    var d := PlanFor(env, s, req, w).value;
    DraftFollowsChoice(entry, addressAt, env.addressScript, req, w.order, w.blindings);
    ChosenAreOffered(entry.unspent, req, w.order);
    assert forall u | u in d.picked :: u in Elements(d.picked);
    AssetIsConserved(entry, addressAt, env.addressScript, req, w.order, w.blindings);
    forall seal | seal in d.rgbChange
      ensures SafeSeal(seal, d, Candidates(entry.unspent, req.info).value, NextUnused(entry.used),
                       addressAt, env.addressScript)
    {
      AssetChangeIsSafe(entry, addressAt, env.addressScript, req, w.order, w.blindings, seal);
    }
  }

  // ----- errors -----

  predicate External(e: Error) {
    e in {ElectrumFailure, RgbNodeFailure, MalformedWitness}
  }

  /** A transfer refused for a reason of its own changes nothing; one that fails
      outside, on the bitcoin branch, leaves behind exactly the reserved address. */
  lemma RefusalsAreAtomic(env: Env, s: State, req: TransferRequest, w: TransferWorld)
    requires Compose(env, s, req, w).1.Refused?
    ensures var (s', reply) := Compose(env, s, req, w);
      && (!External(reply.error) ==> s' == s)
      && (External(reply.error) && req.info.Bitcoin? ==>
            && req.payFrom in s.contracts && PlanFor(env, s, req, w).Success?
            && var d := PlanFor(env, s, req, w).value;
               s' == Reserve(s, req.payFrom, d.reserved) &&
               (d.reserved.Some? <==> d.bitcoinChange > 0))
  {
    if req.payFrom in s.contracts && PlanFor(env, s, req, w).Success? {
      PlanReserves(env, s, req, w);
      var d := PlanFor(env, s, req, w).value;
      FinishEffect(env, s, req, d, w);
      assert s.contracts[req.payFrom := s.contracts[req.payFrom]] == s.contracts;
    }
  }

  /** Contracts have their own ids, and an address reveals its index. */
  ghost predicate Injective(env: Env) {
    && (forall p, q | env.policyId(p) == env.policyId(q) :: p == q)
    && (forall p, i: Index, j: Index, l, m |
          env.addressOf(p, i, l).Some? && env.addressOf(p, i, l) == env.addressOf(p, j, m) :: i == j)
  }

  /** With injective derivation, an address is never met under another index, so no
      request is ever refused for a wrong derivation. */
  lemma NeverWrongDerivation(env: Env, s: State, e: Event)
    requires Injective(env) && Reachable(env, s) && Possible(s, e)
    ensures Step(env, s, e).1 != Refused(WrongDerivation)
  {
    match e
    case ComposeTransfer(req, w) => ComposeNeverClashes(env, s, req, w);
    case SyncContract(id, depth, w) => SyncErrors(env, s, id, depth, w);
    case _ =>
  }

  lemma ComposeNeverClashes(env: Env, s: State, req: TransferRequest, w: TransferWorld)
    requires Injective(env) && Reachable(env, s)
    ensures Compose(env, s, req, w).1 != Refused(WrongDerivation)
  {
    ReachableIsSound(env, s);
    if req.payFrom in s.contracts {
      var entry := Entry(s.cache, req.payFrom);
      var chosen := ChooseCoins(entry.unspent, req, w.order);
      if chosen.Success? {
        NoClash(env, s, req.payFrom, NextUnused(entry.used), false);
        SettleErrors(entry, AddressesOf(env, s.contracts[req.payFrom].policy), env.addressScript, req,
                     chosen.value, w.blindings);
      }
      if PlanFor(env, s, req, w).Success? {
        FinishEffect(env, s, req, PlanFor(env, s, req, w).value, w);
      }
    }
  }

  /** A requested address is refused only when it cannot be derived: marking it as
      used never fails. */
  lemma AddressesAreRefusedExactly(env: Env, s: State, id: ContractId, index: Option<Index>,
                                   legacy: bool, markUsed: bool)
    requires Injective(env) && Reachable(env, s) && id in s.contracts
    ensures var i := match index case None => NextUnused(Entry(s.cache, id).used) case Some(given) => given;
      Derive(env, s, id, index, legacy, markUsed).1 ==
      match env.addressOf(s.contracts[id].policy, i, legacy)
      case None => Refused(NoAddress)
      case Some(address) => DerivedAddress(address, i)
  {
    ReachableIsSound(env, s);
    var i := match index case None => NextUnused(Entry(s.cache, id).used) case Some(given) => given;
    NoClash(env, s, id, i, legacy);
  }

  lemma SyncErrors(env: Env, s: State, id: ContractId, depth: nat, w: SyncWorld)
    requires depth >= 1
    ensures var reply := Sync(env, s, id, depth, w).1;
      reply.Refused? ==> reply.error in {ElectrumFailure, ContractNotFound, RgbNodeFailure, Overflow}
  {
    if w.server.Some? && id in s.contracts {
      var l := Discovered(env, s, id, depth, w.server.value, w.tweakOrder);
      DiscoveredCoheres(env, s, id, depth, w.server.value, w.tweakOrder);
      CoherentPairs(l);
      MergeErrors(l.unspent, SortedOutpoints(l.outpoints), w.node, |l.unspent|);
    }
  }

  lemma {:induction false} MergeErrors(unspent: seq<Utxo>, partners: seq<OutPoint>, node: RgbNode, n: nat)
    requires n <= |unspent| == |partners|
    ensures Merge(unspent, partners, node, n).Failure? ==>
            Merge(unspent, partners, node, n).error in {RgbNodeFailure, Overflow}
  {
    if n > 0 {
      MergeErrors(unspent, partners, node, n - 1);
    }
  }

  lemma NoClash(env: Env, s: State, id: ContractId, i: Index, legacy: bool)
    requires Injective(env) && Sound(env, s) && id in s.contracts
    ensures var address := env.addressOf(s.contracts[id].policy, i, legacy);
            var used := Entry(s.cache, id).used;
      address.Some? && address.value in used ==> used[address.value] == i
  {
    var address := env.addressOf(s.contracts[id].policy, i, legacy);
    var used := Entry(s.cache, id).used;
    if address.Some? && address.value in used {
      assert Derives(env, id, address.value, used[address.value]);
      var policy, m :| env.policyId(policy) == id &&
        env.addressOf(policy, used[address.value], m) == Some(address.value);
      assert SoundContract(env, id, s.contracts[id]);
    }
  }

  /** The cache is inconsistent exactly for a transfer of nothing from a contract that
      was never synchronized. */
  lemma InconsistentExactly(env: Env, s: State, req: TransferRequest, w: TransferWorld)
    requires Reachable(env, s) && Possible(s, ComposeTransfer(req, w))
    requires req.info.Rgb? ==> !req.info.receiver.PsbtReceiver?
    ensures Compose(env, s, req, w).1 == Refused(CacheInconsistency) <==>
            req.payFrom in s.contracts && Entry(s.cache, req.payFrom).unspent == map[] && Target(req) == 0
  {
    ReachableIsSound(env, s);
    assert SoundEntry(Entry(s.cache, req.payFrom));
    if req.payFrom in s.contracts {
      var entry := Entry(s.cache, req.payFrom);
      var chosen := ChooseCoins(entry.unspent, req, w.order);
      if entry.unspent == map[] {
        NothingToChoose(req, w.order);
      }
      if chosen.Success? {
        SettleErrors(entry, AddressesOf(env, s.contracts[req.payFrom].policy), env.addressScript, req,
                     chosen.value, w.blindings);
      }
      if PlanFor(env, s, req, w).Success? {
        FinishEffect(env, s, req, PlanFor(env, s, req, w).value, w);
      }
    }
  }

  lemma NothingToChoose(req: TransferRequest, order: seq<Utxo>)
    requires Candidates(map[], req.info).Success? ==> Enumerates(order, Candidates(map[], req.info).value)
    ensures ChooseCoins(map[], req, order).Success? <==> Target(req) == 0
  {
    var unspent: Unspent := map[];
    assert AllOutpoints(unspent) == {};
    assert Candidates(unspent, req.info) == Success({});
    EmptyElements(order);
    assert LargestFirst(order) == [];
  }

  // ----- positions -----

  function BlockPosToTxid(cache: Cache, height: u32, offset: u16): Option<Txid> {
    var p := BlockPos(height, offset);
    if p in cache.mineInfo then Some(cache.mineInfo[p]) else None
  }

  /** In every run against one chain, the position of every cached output leads back
      to its transaction, for every contract and asset. */
  lemma PositionsLeadBack(env: Env, chain: Chain, s: State, id: ContractId, a: AssetId, u: Utxo)
    requires ReachableOn(env, chain, s)
    requires a in Entry(s.cache, id).unspent && u in Entry(s.cache, id).unspent[a]
    ensures BlockPosToTxid(s.cache, u.height, u.offset) == Some(u.txid)
  {
    ReachableIsPositioned(env, chain, s);
    assert Located(u, s.cache.mineInfo);
  }
}
