/** Whether bitcoin transfers keep away from outputs that hold an asset. The cache sees to
    it for the assets it has filed; whether those are the ones the node reported depends
    on the order in which the outputs were discovered. */
module WalletIsolation {
  import opened WalletTypes
  import opened Collections
  import opened CacheModel
  import opened CacheDriver
  import opened ChainScan
  import opened GapLimit
  import opened AssetMerge
  import opened TransferModel
  import opened TransferLaws
  import opened WalletModel
  import opened WalletInvariants
  import opened WalletProgress

  /** No output that counts as pure bitcoin holds an asset the node knows of. */
  ghost predicate FreeOfAssets(unspent: Unspent, node: RgbNode) {
    forall u, a | u in PureBitcoin(unspent) && a != BITCOIN :: NodeAmount(node, a)(u.Outpoint()) == 0
  }

  // ----- one synchronization -----

  lemma PairedIsFree(l: Ledger, node: RgbNode)
    requires Coherent(l) && PairsUp(l) && NoBitcoinAsset(node)
    requires MergedAssets(l, node).Success?
    ensures FreeOfAssets(Filed(MergedAssets(l, node).value), node)
  {
    var unspent := Filed(MergedAssets(l, node).value);
    forall u, a | u in PureBitcoin(unspent) && a != BITCOIN
      ensures NodeAmount(node, a)(u.Outpoint()) == 0
    {
      if NodeAmount(node, a)(u.Outpoint()) > 0 {
        var w := HolderIsFiled(l, node, u, a);
        CarrierIsNotPure(unspent, u, a, w);
      }
    }
  }

  lemma CarrierIsNotPure(unspent: Unspent, u: Utxo, a: AssetId, w: Utxo)
    requires a in unspent && a != BITCOIN && w in unspent[a] && w.Outpoint() == u.Outpoint() && w.value > 0
    ensures u !in PureBitcoin(unspent)
  {
  }

  /** In a paired ledger the asset on an output is filed under that output. */
  lemma HolderIsFiled(l: Ledger, node: RgbNode, u: Utxo, a: AssetId) returns (w: Utxo)
    requires Coherent(l) && PairsUp(l) && NoBitcoinAsset(node)
    requires MergedAssets(l, node).Success?
    requires u in Positive(Listed(MergedAssets(l, node).value, BITCOIN))
    requires NodeAmount(node, a)(u.Outpoint()) > 0
    ensures a in MergedAssets(l, node).value && w in Filed(MergedAssets(l, node).value)[a]
    ensures w.Outpoint() == u.Outpoint() && w.value > 0
  {
    var sorted := SortedOutpoints(l.outpoints);
    PairsUpIsPlaced(l);
    MergeShape(l.unspent, sorted, node, |l.unspent|, BITCOIN);
    var k :| 0 <= k < |l.unspent| && l.unspent[k] == u;
    assert OutpointList(l.unspent)[k] == u.Outpoint();
    PaidIsListed(l.unspent, sorted, node, |l.unspent|, a, k);
    w :| w in Listed(MergedAssets(l, node).value, a) && PaidAt(w, l.unspent, sorted, node, a, k);
  }

  /** Of everything filed, only this output counts as pure bitcoin, and the cache can tell. */
  ghost predicate OffersOnly(unspent: Unspent, coin: Utxo) {
    && Countable(unspent) && PureBitcoin(unspent) == {coin} && coin.value > 0
    && BITCOIN in unspent && UniqueOutpoints(unspent[BITCOIN])
  }

  /** In any other ledger one output holds an asset that is filed under another. The node
      that reports an asset on all outpoints, except on the partner of that output, makes
      it the only one that passes for pure bitcoin. */
  lemma MispairedIsTaken(l: Ledger) returns (node: RgbNode, a: AssetId, u: Utxo)
    requires Coherent(l) && !PairsUp(l)
    ensures NoBitcoinAsset(node) && a != BITCOIN && MergedAssets(l, node).Success?
    ensures OffersOnly(Filed(MergedAssets(l, node).value), u)
    ensures NodeAmount(node, a)(u.Outpoint()) > 0
  {
    PairsUpIsPlaced(l);
    var k :| 0 <= k < |l.unspent| && l.unspent[k].value > 0 &&
      SortedOutpoints(l.outpoints)[k] != OutpointList(l.unspent)[k];
    var empty := SortedOutpoints(l.outpoints)[k];
    a, u := AssetId(1), l.unspent[k];
    node := Paying(AllBut(empty), a);
    PayingReports(AllBut(empty), a, a, u.Outpoint());
    SparesOne(l, k, a);
  }

  function AllBut(empty: OutPoint): OutPoint -> u64 {
    (p: OutPoint) => if p == empty then 0 else 1
  }

  lemma SparesOne(l: Ledger, k: nat, a: AssetId)
    requires Coherent(l) && k < |l.unspent| == |SortedOutpoints(l.outpoints)|
    requires l.unspent[k].value > 0 && a != BITCOIN
    ensures var node := Paying(AllBut(SortedOutpoints(l.outpoints)[k]), a);
      NoBitcoinAsset(node) && MergedAssets(l, node).Success? &&
      OffersOnly(Filed(MergedAssets(l, node).value), l.unspent[k])
  {
    var amounts := AllBut(SortedOutpoints(l.outpoints)[k]);
    PayingFiles(l, amounts, a);
    var unspent := Filed(MergedAssets(l, Paying(amounts, a)).value);
    UniqueIsCountable(unspent, a);
    forall j | 0 <= j < |l.unspent| && j != k
      ensures Carries(unspent, a, l.unspent[j].Outpoint())
    {
      OthersCarry(l, k, a, j);
    }
    NothingIsFiledAt(l, k, a);
    OnlyOneIsPure(l, unspent, k, a);
  }

  ghost predicate Carries(unspent: Unspent, a: AssetId, o: OutPoint) {
    a in unspent && exists w :: w in unspent[a] && w.Outpoint() == o && w.value > 0
  }

  lemma OthersCarry(l: Ledger, k: nat, a: AssetId, j: nat)
    requires Coherent(l) && k < |l.unspent| == |SortedOutpoints(l.outpoints)| && a != BITCOIN
    requires j < |l.unspent| && j != k
    requires MergedAssets(l, Paying(AllBut(SortedOutpoints(l.outpoints)[k]), a)).Success?
    ensures Carries(Filed(MergedAssets(l, Paying(AllBut(SortedOutpoints(l.outpoints)[k]), a)).value), a,
                    l.unspent[j].Outpoint())
  {
    var sorted := SortedOutpoints(l.outpoints);
    SortedIsInOrder(l.outpoints);
    PayingReports(AllBut(sorted[k]), a, a, sorted[j]);
    var w := PaidIsFiled(l, Paying(AllBut(sorted[k]), a), a, j);
  }

  lemma NothingIsFiledAt(l: Ledger, k: nat, a: AssetId)
    requires Coherent(l) && k < |l.unspent| == |SortedOutpoints(l.outpoints)| && a != BITCOIN
    requires MergedAssets(l, Paying(AllBut(SortedOutpoints(l.outpoints)[k]), a)).Success?
    ensures !Carries(Filed(MergedAssets(l, Paying(AllBut(SortedOutpoints(l.outpoints)[k]), a)).value), a,
                     l.unspent[k].Outpoint())
  {
    var node := Paying(AllBut(SortedOutpoints(l.outpoints)[k]), a);
    var unspent: Unspent := Filed(MergedAssets(l, node).value);
    if a in unspent {
      forall w | w in unspent[a]
        ensures w.Outpoint() != l.unspent[k].Outpoint()
      {
        var j := FiledIsPaid(l, node, a, w);
        PayingReports(AllBut(SortedOutpoints(l.outpoints)[k]), a, a, SortedOutpoints(l.outpoints)[j]);
        assert OutpointList(l.unspent)[j] != OutpointList(l.unspent)[k];
      }
    }
  }

  lemma OnlyOneIsPure(l: Ledger, unspent: Unspent, k: nat, a: AssetId)
    requires k < |l.unspent| && l.unspent[k].value > 0 && a != BITCOIN
    requires BITCOIN in unspent && unspent[BITCOIN] == Positive(l.unspent)
    requires forall b, w | b in unspent && w in unspent[b] :: w.value > 0 && (b == a || b == BITCOIN)
    requires forall j | 0 <= j < |l.unspent| && j != k :: Carries(unspent, a, l.unspent[j].Outpoint())
    requires !Carries(unspent, a, l.unspent[k].Outpoint())
    ensures PureBitcoin(unspent) == {l.unspent[k]}
  {
    forall j | 0 <= j < |l.unspent| && j != k
      ensures l.unspent[j] !in PureBitcoin(unspent)
    {
      assert Carries(unspent, a, l.unspent[j].Outpoint());
      var w :| w in unspent[a] && w.Outpoint() == l.unspent[j].Outpoint() && w.value > 0;
      CarrierIsNotPure(unspent, l.unspent[j], a, w);
    }
    assert l.unspent[k] in l.unspent;
  }

  // ----- what a node's reports file -----

  /** What is filed under an asset was paid at some position. */
  lemma FiledIsPaid(l: Ledger, node: RgbNode, a: AssetId, w: Utxo) returns (k: nat)
    requires Coherent(l) && MergedAssets(l, node).Success? && a != BITCOIN
    requires a in MergedAssets(l, node).value && w in Filed(MergedAssets(l, node).value)[a]
    ensures k < |l.unspent| == |SortedOutpoints(l.outpoints)|
    ensures PaidAt(w, l.unspent, SortedOutpoints(l.outpoints), node, a, k)
  {
    CoherentPairs(l);
    k := ListedIsPaid(l.unspent, SortedOutpoints(l.outpoints), node, |l.unspent|, a, w);
  }

  /** What is paid at a position is filed under the asset. */
  lemma PaidIsFiled(l: Ledger, node: RgbNode, a: AssetId, k: nat) returns (w: Utxo)
    requires Coherent(l) && MergedAssets(l, node).Success? && k < |l.unspent| == |SortedOutpoints(l.outpoints)|
    requires NodeAmount(node, a)(SortedOutpoints(l.outpoints)[k]) > 0
    ensures a in MergedAssets(l, node).value && w in Filed(MergedAssets(l, node).value)[a]
    ensures PaidAt(w, l.unspent, SortedOutpoints(l.outpoints), node, a, k)
  {
    PaidIsListed(l.unspent, SortedOutpoints(l.outpoints), node, |l.unspent|, a, k);
    w :| w in Listed(MergedAssets(l, node).value, a) &&
         PaidAt(w, l.unspent, SortedOutpoints(l.outpoints), node, a, k);
  }

  /** A node that pays one asset only files nothing else besides the bitcoins. */
  lemma PayingFiles(l: Ledger, amounts: OutPoint -> u64, a: AssetId)
    requires Coherent(l) && a != BITCOIN
    ensures NoBitcoinAsset(Paying(amounts, a)) && MergedAssets(l, Paying(amounts, a)).Success?
    ensures var unspent := Filed(MergedAssets(l, Paying(amounts, a)).value);
      && BITCOIN in unspent && unspent[BITCOIN] == Positive(l.unspent)
      && UniquePerAsset(unspent)
      && forall b, w | b in unspent && w in unspent[b] :: w.value > 0 && (b == a || b == BITCOIN)
  {
    var node, sorted := Paying(amounts, a), SortedOutpoints(l.outpoints);
    CoherentPairs(l);
    forall k | 0 <= k < |l.unspent|
      ensures node(sorted[k]).Some? && ReportFits(node(sorted[k]).value)
    {
      PayingReports(amounts, a, a, sorted[k]);
    }
    MergeSucceeds(l.unspent, sorted, node, |l.unspent|);
    MergeFilesBitcoin(l.unspent, sorted, node, |l.unspent|);
    MergeShape(l.unspent, sorted, node, |l.unspent|, BITCOIN);
    var unspent := Filed(MergedAssets(l, node).value);
    forall b, w | b in unspent && w in unspent[b]
      ensures b == a || b == BITCOIN
    {
      if b != BITCOIN {
        var k := FiledIsPaid(l, node, b, w);
        PayingReports(amounts, a, b, sorted[k]);
      }
    }
    forall b | b in unspent
      ensures UniqueOutpoints(unspent[b])
    {
      MergedAreDistinct(l, node, b);
      PositiveIsUnique(MergedAssets(l, node).value[b]);
    }
  }

  lemma UniqueAmount(utxos: set<Utxo>, o: OutPoint)
    requires UniqueOutpoints(utxos)
    ensures AmountAt(utxos)(o) < U64_LIMIT
  {
    var at := AtOutpoint(utxos, o);
    if u :| u in at {
      assert at == {u};
      SumTake(at, ValueOf, u);
      assert at - {u} == {};
    }
  }

  /** With unique outpoints and one asset besides bitcoin nothing overflows. */
  lemma UniqueIsCountable(unspent: Unspent, a: AssetId)
    requires a != BITCOIN && UniquePerAsset(unspent)
    requires forall b | b in unspent && unspent[b] != {} :: b == a || b == BITCOIN
    ensures Countable(unspent)
  {
    forall b, o | b in unspent
      ensures AmountAt(unspent[b])(o) < U64_LIMIT
    {
      UniqueAmount(unspent[b], o);
    }
    forall o
      ensures RgbTotal(unspent, o) < U64_LIMIT
    {
      var m := AssetsAt(unspent, o) - {BITCOIN};
      if a in m {
        assert m.Keys == {a};
        SumTake(m.Keys, AmountIn(m), a);
        assert m.Keys - {a} == {};
      } else {
        assert m.Keys == {};
      }
    }
  }

  lemma HoldingFiled(l: Ledger, i: nat, o: OutPoint, a: AssetId, amount: u64)
    requires Coherent(l) && a != BITCOIN && amount > 0 && i < |l.unspent|
    requires |SortedOutpoints(l.outpoints)| == |l.unspent| && NoDuplicates(SortedOutpoints(l.outpoints))
    requires SortedOutpoints(l.outpoints)[i] == o
    ensures MergedAssets(l, Holding(o, a, amount)).Success?
    ensures Filed(MergedAssets(l, Holding(o, a, amount)).value) ==
            map[BITCOIN := Positive(l.unspent), a := {l.unspent[i].(value := amount)}]
  {
    var filed := l.unspent[i].(value := amount);
    var assets: AssetLists := map[BITCOIN := l.unspent, a := [filed]];
    assert MergedAssets(l, Holding(o, a, amount)) == Success(assets) by {
      MergeHolding(l.unspent, SortedOutpoints(l.outpoints), i, a, amount, |l.unspent|);
    }
    FiledPair(l.unspent, filed, a);
  }

  lemma FiledPair(unspent: seq<Utxo>, filed: Utxo, a: AssetId)
    requires a != BITCOIN && filed.value > 0
    ensures Filed(map[BITCOIN := unspent, a := [filed]]) == map[BITCOIN := Positive(unspent), a := {filed}]
  {
    var assets: AssetLists := map[BITCOIN := unspent, a := [filed]];
    assert Positive([filed]) == {filed};
    assert assets.Keys == {BITCOIN, a};
    assert Filed(assets).Keys == {BITCOIN, a};
  }

  /** The search of a synchronization is carried out to its end. */
  ghost predicate Searches(env: Env, s: State, id: ContractId, depth: nat, w: SyncWorld) {
    && depth >= 1 && w.server.Some? && id in s.contracts
    && Answered(w.server.value, |Queries(env, s, id, depth, w.server.value, w.tweakOrder)|)
  }

  lemma SyncFiles(env: Env, s: State, id: ContractId, depth: nat, w: SyncWorld)
    requires Searches(env, s, id, depth, w)
    ensures var l := Discovered(env, s, id, depth, w.server.value, w.tweakOrder);
            var (s', reply) := Sync(env, s, id, depth, w);
      && Coherent(l)
      && (reply.SyncedAssets? <==> MergedAssets(l, w.node).Success?)
      && (reply.SyncedAssets? ==> Entry(s'.cache, id).unspent == Filed(MergedAssets(l, w.node).value))
  {
    SyncEffect(env, s, id, depth, w);
    DiscoveredCoheres(env, s, id, depth, w.server.value, w.tweakOrder);
  }

  /** After a synchronization no output that passes for pure bitcoin holds an asset the
      node reported, whatever it reported, exactly when the discovered outputs pair up. */
  lemma PureCoinsAreFreeExactly(env: Env, s: State, id: ContractId, depth: nat, w: SyncWorld)
    requires Searches(env, s, id, depth, w)
    ensures (forall node: RgbNode |
               NoBitcoinAsset(node) && Sync(env, s, id, depth, w.(node := node)).1.SyncedAssets? ::
               FreeOfAssets(Entry(Sync(env, s, id, depth, w.(node := node)).0.cache, id).unspent, node))
            <==> PairsUp(Discovered(env, s, id, depth, w.server.value, w.tweakOrder))
  {
    var l := Discovered(env, s, id, depth, w.server.value, w.tweakOrder);
    DiscoveredCoheres(env, s, id, depth, w.server.value, w.tweakOrder);
    if PairsUp(l) {
      forall node: RgbNode | NoBitcoinAsset(node) && Sync(env, s, id, depth, w.(node := node)).1.SyncedAssets?
        ensures FreeOfAssets(Entry(Sync(env, s, id, depth, w.(node := node)).0.cache, id).unspent, node)
      {
        SyncFiles(env, s, id, depth, w.(node := node));
        PairedIsFree(l, node);
      }
    } else {
      var node, a, u := MispairedIsTaken(l);
      SyncFiles(env, s, id, depth, w.(node := node));
      assert u in PureBitcoin(Filed(MergedAssets(l, node).value));
      assert !FreeOfAssets(Filed(MergedAssets(l, node).value), node);
    }
  }

  // ----- transfers until the next synchronization -----

  ghost predicate HoldsAsset(node: RgbNode, o: OutPoint) {
    exists a :: a != BITCOIN && NodeAmount(node, a)(o) > 0
  }

  /** With this node the contract is synchronized, other requests follow, and then a
      transfer from it is prepared. */
  ghost predicate Prepares(env: Env, s: State, id: ContractId, depth: nat, w: SyncWorld,
                           node: RgbNode, events: seq<Event>, req: TransferRequest, tw: TransferWorld)
    requires depth >= 1
  {
    var (synced, reply) := Sync(env, s, id, depth, w.(node := node));
    && reply.SyncedAssets?
    && PossibleRun(env, synced, events) && (forall e | e in events :: !(e.SyncContract? && e.id == id))
    && req.payFrom == id && Possible(Run(env, synced, events), ComposeTransfer(req, tw))
    && Step(env, Run(env, synced, events), ComposeTransfer(req, tw)).1.PreparedTransfer?
  }

  /** The state in which the transfer is prepared. */
  ghost function Before(env: Env, s: State, id: ContractId, depth: nat, w: SyncWorld,
                        node: RgbNode, events: seq<Event>): State
    requires depth >= 1 && PossibleRun(env, Sync(env, s, id, depth, w.(node := node)).0, events)
  {
    Run(env, Sync(env, s, id, depth, w.(node := node)).0, events)
  }

  /** It is still what the synchronization filed that the transfer is prepared from. */
  lemma FiledUntilThen(env: Env, s: State, id: ContractId, depth: nat, w: SyncWorld,
                       node: RgbNode, events: seq<Event>, req: TransferRequest, tw: TransferWorld)
    requires Searches(env, s, id, depth, w) && Prepares(env, s, id, depth, w, node, events, req, tw)
    ensures var l := Discovered(env, s, id, depth, w.server.value, w.tweakOrder);
      && Coherent(l) && MergedAssets(l, node).Success?
      && Entry(Before(env, s, id, depth, w, node, events).cache, id).unspent == Filed(MergedAssets(l, node).value)
  {
    ReadingIsStable(env, Sync(env, s, id, depth, w.(node := node)).0, events, id);
    SyncFiles(env, s, id, depth, w.(node := node));
  }

  /** The transfer is one of bitcoins and spends an output holding an asset. */
  ghost predicate SpendsAsset(env: Env, s: State, id: ContractId, depth: nat, w: SyncWorld,
                              node: RgbNode, events: seq<Event>, req: TransferRequest, tw: TransferWorld)
    requires depth >= 1
  {
    && NoBitcoinAsset(node) && Prepares(env, s, id, depth, w, node, events, req, tw) && req.info.Bitcoin?
    && exists o :: o in Step(env, Before(env, s, id, depth, w, node, events), ComposeTransfer(req, tw)).1.psbt.inputs &&
                   HoldsAsset(node, o)
  }

  lemma InputsArePure(env: Env, s: State, req: TransferRequest, w: TransferWorld, o: OutPoint)
    requires Possible(s, ComposeTransfer(req, w)) && req.info.Bitcoin?
    requires Step(env, s, ComposeTransfer(req, w)).1.PreparedTransfer?
    requires o in Step(env, s, ComposeTransfer(req, w)).1.psbt.inputs
    ensures o in OutpointsOf(PureBitcoin(Entry(s.cache, req.payFrom).unspent))
  {
    var entry := Entry(s.cache, req.payFrom);
    var addressAt := AddressesOf(env, s.contracts[req.payFrom].policy);
    var d := PlanFor(env, s, req, w).value;
    FinishEffect(env, s, req, d, w);
    DraftFollowsChoice(entry, addressAt, env.addressScript, req, w.order, w.blindings);
    InputsCarryNoAsset(entry, addressAt, env.addressScript, req, w.order, w.blindings);
    var i :| 0 <= i < |d.picked| && TxInputs(d.picked)[i] == o;
    assert d.picked[i] in d.picked;
  }

  lemma SpendingIsMispaired(env: Env, s: State, id: ContractId, depth: nat, w: SyncWorld,
                            node: RgbNode, events: seq<Event>, req: TransferRequest, tw: TransferWorld)
    requires Searches(env, s, id, depth, w)
    requires SpendsAsset(env, s, id, depth, w, node, events, req, tw)
    ensures !PairsUp(Discovered(env, s, id, depth, w.server.value, w.tweakOrder))
  {
    var before := Before(env, s, id, depth, w, node, events);
    var out := Step(env, before, ComposeTransfer(req, tw)).1;
    var o :| o in out.psbt.inputs && HoldsAsset(node, o);
    var a :| a != BITCOIN && NodeAmount(node, a)(o) > 0;
    InputsArePure(env, before, req, tw, o);
    FiledUntilThen(env, s, id, depth, w, node, events, req, tw);
    var l := Discovered(env, s, id, depth, w.server.value, w.tweakOrder);
    if PairsUp(l) {
      PairedIsFree(l, node);
    }
  }

  /** Bitcoin transfers keep away from outputs holding assets, whatever the node reported
      and whatever happens until the next synchronization, exactly when the discovered
      outputs pair up. */
  lemma TransfersSpareAssetsExactly(env: Env, s: State, id: ContractId, depth: nat, w: SyncWorld)
    requires Searches(env, s, id, depth, w)
    ensures (exists node, events, req, tw :: SpendsAsset(env, s, id, depth, w, node, events, req, tw))
            <==> !PairsUp(Discovered(env, s, id, depth, w.server.value, w.tweakOrder))
  {
    var l := Discovered(env, s, id, depth, w.server.value, w.tweakOrder);
    if node, events, req, tw :| SpendsAsset(env, s, id, depth, w, node, events, req, tw) {
      SpendingIsMispaired(env, s, id, depth, w, node, events, req, tw);
    }
    if !PairsUp(l) {
      var node, req, tw := MispairedIsSpent(env, s, id, depth, w);
      assert SpendsAsset(env, s, id, depth, w, node, [], req, tw);
    }
  }

  lemma MispairedIsSpent(env: Env, s: State, id: ContractId, depth: nat, w: SyncWorld)
    returns (node: RgbNode, req: TransferRequest, tw: TransferWorld)
    requires Searches(env, s, id, depth, w)
    requires !PairsUp(Discovered(env, s, id, depth, w.server.value, w.tweakOrder))
    ensures SpendsAsset(env, s, id, depth, w, node, [], req, tw)
  {
    var l := Discovered(env, s, id, depth, w.server.value, w.tweakOrder);
    DiscoveredCoheres(env, s, id, depth, w.server.value, w.tweakOrder);
    var a, u;
    node, a, u := MispairedIsTaken(l);
    SyncFiles(env, s, id, depth, w.(node := node));
    SyncEffect(env, s, id, depth, w.(node := node));
    var synced := Sync(env, s, id, depth, w.(node := node)).0;
    req, tw := SpendTheOnly(env, synced, id, u);
    assert HoldsAsset(node, u.Outpoint());
    assert Run(env, synced, []) == synced;
  }

  /** A request for what is on offer spends it. */
  lemma SpendTheOnly(env: Env, s: State, id: ContractId, u: Utxo) returns (req: TransferRequest, tw: TransferWorld)
    requires id in s.contracts && OffersOnly(Entry(s.cache, id).unspent, u)
    ensures req.payFrom == id && req.info.Bitcoin? && Possible(s, ComposeTransfer(req, tw))
    ensures var out := Step(env, s, ComposeTransfer(req, tw)).1;
      out.PreparedTransfer? && u.Outpoint() in out.psbt.inputs
  {
    req := TransferRequest(id, u.value, 0, Bitcoin(Script("")), Invoice(""));
    tw := TransferWorld([u], Blindings(0, 0), true, None, true);
    OneCoinDrafts(Entry(s.cache, id), AddressesOf(env, s.contracts[id].policy), env.addressScript, req, u,
                  Blindings(0, 0));
    DraftIsPrepared(env, s, req, tw, u);
  }

  lemma OneCoinDrafts(entry: ContractCache, addressAt: AddressAt, addressScript: AddressScript,
                      req: TransferRequest, coin: Utxo, blindings: Blindings)
    requires req.info.Bitcoin? && req.bitcoinFee == 0 && req.assetValue == coin.value
    requires OffersOnly(entry.unspent, coin)
    ensures Offered(entry, req, [coin])
    ensures var plan := Plan(entry, addressAt, addressScript, req, [coin], blindings);
      plan.Success? && coin in plan.value.picked
  {
    OneCoinChosen(entry.unspent, req, coin);
    assert coin in PureBitcoin(entry.unspent);
    MatchingIsPicked(entry.unspent[BITCOIN], [coin]);
    assert Elements([coin]) == {coin} && {coin} - {coin} == {};
    SumTake({coin}, ValueOf, coin);
    SettleSweep(entry, addressAt, addressScript, req, ChooseCoins(entry.unspent, req, [coin]).value, blindings);
  }

  lemma DraftIsPrepared(env: Env, s: State, req: TransferRequest, w: TransferWorld, u: Utxo)
    requires req.payFrom in s.contracts && req.info.Bitcoin? && w.connected
    requires PlanFor(env, s, req, w).Success? && u in PlanFor(env, s, req, w).value.picked
    ensures var out := Compose(env, s, req, w).1;
      out.PreparedTransfer? && u.Outpoint() in out.psbt.inputs
  {
    var picked := PlanFor(env, s, req, w).value.picked;
    var i :| 0 <= i < |picked| && picked[i] == u;
    assert TxInputs(picked)[i] == u.Outpoint();
  }

  lemma SettleSweep(entry: ContractCache, addressAt: AddressAt, addressScript: AddressScript,
                    req: TransferRequest, choice: Choice, blindings: Blindings)
    requires req.info.Bitcoin? && req.bitcoinFee == 0 && BITCOIN in entry.unspent
    requires BitcoinInput(entry.unspent[BITCOIN], SpentOutpoints(choice.selection.picked)) == req.assetValue
    requires choice.selection.total < U64_LIMIT
    ensures var r := Settle(entry, addressAt, addressScript, req, choice, blindings);
      r.Success? && r.value.picked == choice.selection.picked
  {
  }

  /** The same in terms of the order of discovery, for outputs that are worth something. */
  lemma AscendingSparesAssetsExactly(env: Env, s: State, id: ContractId, depth: nat, w: SyncWorld)
    requires Searches(env, s, id, depth, w)
    ensures var found := Discovered(env, s, id, depth, w.server.value, w.tweakOrder).unspent;
            var ascending := InOutpointOrder(OutpointList(found));
            var spent := exists node, events, req, tw :: SpendsAsset(env, s, id, depth, w, node, events, req, tw);
      && (ascending ==> !spent)
      && ((forall u | u in found :: u.value > 0) ==> (ascending <==> !spent))
  {
    TransfersSpareAssetsExactly(env, s, id, depth, w);
    DiscoveredCoheres(env, s, id, depth, w.server.value, w.tweakOrder);
    AscendingPairsUp(Discovered(env, s, id, depth, w.server.value, w.tweakOrder));
  }
}
