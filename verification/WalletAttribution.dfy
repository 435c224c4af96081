/** Whether RGB transfers move what the node reported. They move what the cache has filed;
    whether that agrees depends on the order in which the outputs were discovered. */
module WalletAttribution {
  import opened WalletTypes
  import opened Collections
  import opened CacheModel
  import opened CacheDriver
  import opened StorageModel
  import opened ChainScan
  import opened AssetMerge
  import opened CoinSelection
  import opened TransferModel
  import opened TransferLaws
  import opened WalletModel
  import opened WalletInvariants
  import opened WalletIsolation

  // ----- the three promises -----

  /** The transfer is one of an asset, and is drafted like this. */
  ghost predicate DraftsRgb(env: Env, s: State, id: ContractId, depth: nat, w: SyncWorld, node: RgbNode,
                            events: seq<Event>, req: TransferRequest, tw: TransferWorld, d: Draft)
    requires depth >= 1
  {
    && Prepares(env, s, id, depth, w, node, events, req, tw) && req.info.Rgb? && req.info.asset != BITCOIN
    && var before := Before(env, s, id, depth, w, node, events);
       id in before.contracts && PlanFor(env, before, req, tw) == Success(d)
  }

  /** It spends a coin that is worth something else than the node reported. */
  ghost predicate SpendsMisfiled(env: Env, s: State, id: ContractId, depth: nat, w: SyncWorld, node: RgbNode,
                                 events: seq<Event>, req: TransferRequest, tw: TransferWorld, d: Draft)
    requires depth >= 1
  {
    && DraftsRgb(env, s, id, depth, w, node, events, req, tw, d)
    && exists u :: u in d.picked && u.value != NodeAmount(node, req.info.asset)(u.Outpoint())
  }

  /** It leaves the rest of the asset on a coin worth something else than the node reported. */
  ghost predicate SealsMisfiled(env: Env, s: State, id: ContractId, depth: nat, w: SyncWorld, node: RgbNode,
                                events: seq<Event>, req: TransferRequest, tw: TransferWorld, d: Draft)
    requires depth >= 1
  {
    && DraftsRgb(env, s, id, depth, w, node, events, req, tw, d)
    && exists v :: v in Held(Entry(Before(env, s, id, depth, w, node, events).cache, id).unspent, req.info.asset) &&
                   SealedTo(d, v.Outpoint()) && v.value != NodeAmount(node, req.info.asset)(v.Outpoint())
  }

  /** It leaves the rest of the asset on an outpoint that holds nothing of it. */
  ghost predicate SealsElsewhere(env: Env, s: State, id: ContractId, depth: nat, w: SyncWorld, node: RgbNode,
                                 events: seq<Event>, req: TransferRequest, tw: TransferWorld, d: Draft)
    requires depth >= 1
  {
    && DraftsRgb(env, s, id, depth, w, node, events, req, tw, d)
    && exists o :: SealedTo(d, o) && NodeAmount(node, req.info.asset)(o) == 0
  }

  function Held(unspent: Unspent, a: AssetId): set<Utxo> {
    if a in unspent then unspent[a] else {}
  }

  ghost predicate SealedTo(d: Draft, o: OutPoint) {
    exists blinding :: OutpointSeal(o, blinding) in d.rgbChange
  }

  // ----- ascending discovery keeps them -----

  /** The coin is worth what the node reported on its own outpoint. */
  ghost predicate Genuine(node: RgbNode, a: AssetId, u: Utxo) {
    u.value == NodeAmount(node, a)(u.Outpoint()) > 0
  }

  lemma AscendingFilesGenuine(l: Ledger, node: RgbNode, a: AssetId, w: Utxo)
    requires Coherent(l) && InOutpointOrder(OutpointList(l.unspent))
    requires MergedAssets(l, node).Success? && a != BITCOIN && w in Held(Filed(MergedAssets(l, node).value), a)
    ensures Genuine(node, a, w)
  {
    var k := FiledIsPaid(l, node, a, w);
    SortedIsInOrder(l.outpoints);
    OrderIsSorted(OutpointList(l.unspent), l.outpoints);
    assert OutpointList(l.unspent)[k] == w.Outpoint();
  }

  /** The spent coins are held, and an outpoint seal is that of another coin held. */
  lemma DraftUsesHeld(entry: ContractCache, addressAt: AddressAt, addressScript: AddressScript,
                      req: TransferRequest, order: seq<Utxo>, blindings: Blindings)
    requires req.info.Rgb? && Offered(entry, req, order)
    requires Plan(entry, addressAt, addressScript, req, order, blindings).Success?
    ensures var d := Plan(entry, addressAt, addressScript, req, order, blindings).value;
            var held := Held(entry.unspent, req.info.asset);
      && (forall u | u in d.picked :: u in held)
      && (forall o | SealedTo(d, o) :: TwoHeld(held, o))
  {
    var d := Plan(entry, addressAt, addressScript, req, order, blindings).value;
    DraftFollowsChoice(entry, addressAt, addressScript, req, order, blindings);
    ChosenAreOffered(entry.unspent, req, order);
    assert forall u | u in d.picked :: u in Elements(d.picked);
    forall o | SealedTo(d, o)
      ensures TwoHeld(Held(entry.unspent, req.info.asset), o)
    {
      SealIsSpare(entry, addressAt, addressScript, req, order, blindings, o);
      SpareIsTwo(LargestFirst(order), Held(entry.unspent, req.info.asset), Target(req), o);
    }
  }

  lemma SealIsSpare(entry: ContractCache, addressAt: AddressAt, addressScript: AddressScript,
                    req: TransferRequest, order: seq<Utxo>, blindings: Blindings, o: OutPoint)
    requires Plan(entry, addressAt, addressScript, req, order, blindings).Success?
    requires SealedTo(Plan(entry, addressAt, addressScript, req, order, blindings).value, o)
    ensures var sel := Select(LargestFirst(order), Target(req));
      sel.spare == Some(o) && sel.picked != []
  {
    var d := Plan(entry, addressAt, addressScript, req, order, blindings).value;
    DraftFollowsChoice(entry, addressAt, addressScript, req, order, blindings);
    var choice := ChooseCoins(entry.unspent, req, order).value;
    ChangeIsOwn(entry, addressAt, addressScript, req, choice, blindings);
    AssetChangeTotal(AssetRest(req, d.assetInput), choice.selection.spare, d.changeVout, blindings.change);
  }

  /** Two coins are held, one of them on this outpoint. */
  ghost predicate TwoHeld(held: set<Utxo>, o: OutPoint) {
    exists v, u :: v in held && u in held && v != u && v.Outpoint() == o
  }

  lemma SpareIsTwo(coins: seq<Utxo>, held: set<Utxo>, target: nat, o: OutPoint)
    requires Enumerates(coins, held)
    requires Select(coins, target).spare == Some(o) && Select(coins, target).picked != []
    ensures TwoHeld(held, o)
  {
    var n := |Select(coins, target).picked|;
    assert coins[n] in Elements(coins) && coins[0] in Elements(coins);
  }

  lemma DraftIsFromHeld(env: Env, s: State, id: ContractId, depth: nat, w: SyncWorld, node: RgbNode,
                        events: seq<Event>, req: TransferRequest, tw: TransferWorld, d: Draft)
    requires Searches(env, s, id, depth, w) && DraftsRgb(env, s, id, depth, w, node, events, req, tw, d)
    ensures var l := Discovered(env, s, id, depth, w.server.value, w.tweakOrder);
      && Coherent(l) && MergedAssets(l, node).Success?
      && var held := Held(Filed(MergedAssets(l, node).value), req.info.asset);
         && held == Held(Entry(Before(env, s, id, depth, w, node, events).cache, id).unspent, req.info.asset)
         && (forall u | u in d.picked :: u in held)
         && (forall o | SealedTo(d, o) :: TwoHeld(held, o))
  {
    FiledUntilThen(env, s, id, depth, w, node, events, req, tw);
    var before := Before(env, s, id, depth, w, node, events);
    DraftUsesHeld(Entry(before.cache, id), AddressesOf(env, before.contracts[id].policy), env.addressScript,
                  req, tw.order, tw.blindings);
  }

  lemma AscendingKeeps(env: Env, s: State, id: ContractId, depth: nat, w: SyncWorld, node: RgbNode,
                       events: seq<Event>, req: TransferRequest, tw: TransferWorld, d: Draft)
    requires Searches(env, s, id, depth, w) && DraftsRgb(env, s, id, depth, w, node, events, req, tw, d)
    requires InOutpointOrder(OutpointList(Discovered(env, s, id, depth, w.server.value, w.tweakOrder).unspent))
    ensures !SpendsMisfiled(env, s, id, depth, w, node, events, req, tw, d)
    ensures !SealsMisfiled(env, s, id, depth, w, node, events, req, tw, d)
    ensures !SealsElsewhere(env, s, id, depth, w, node, events, req, tw, d)
  {
    var l := Discovered(env, s, id, depth, w.server.value, w.tweakOrder);
    DraftIsFromHeld(env, s, id, depth, w, node, events, req, tw, d);
    forall u | u in Held(Filed(MergedAssets(l, node).value), req.info.asset)
      ensures Genuine(node, req.info.asset, u)
    {
      AscendingFilesGenuine(l, node, req.info.asset, u);
    }
  }

  // ----- with two outputs, a seal is never left on an empty one -----

  lemma TwoAreBothHolders(l: Ledger, node: RgbNode, a: AssetId, v: Utxo, u: Utxo)
    requires Coherent(l) && |l.unspent| <= 2 && MergedAssets(l, node).Success? && a != BITCOIN
    requires v in Held(Filed(MergedAssets(l, node).value), a) && u in Held(Filed(MergedAssets(l, node).value), a)
    requires v != u
    ensures NodeAmount(node, a)(v.Outpoint()) > 0
  {
    var k := FiledIsPaid(l, node, a, v);
    var m := FiledIsPaid(l, node, a, u);
    assert k != m;
    var p := PlaceOf(l, k);
    assert p == k || p == m;
  }

  /** The place of a discovered output in the sorted order. */
  lemma PlaceOf(l: Ledger, k: nat) returns (p: nat)
    requires Coherent(l) && k < |l.unspent|
    ensures p < |SortedOutpoints(l.outpoints)| == |l.unspent|
    ensures SortedOutpoints(l.outpoints)[p] == l.unspent[k].Outpoint()
  {
    CoherentPairs(l);
    var own, sorted := OutpointList(l.unspent), SortedOutpoints(l.outpoints);
    SortedIsInOrder(l.outpoints);
    assert own[k] in Elements(own);
    assert own[k] in Elements(sorted);
    p :| 0 <= p < |sorted| && sorted[p] == own[k];
  }

  // ----- any other discovery breaks them -----

  function OneAndTwo(o: OutPoint, two: OutPoint): OutPoint -> u64 {
    (p: OutPoint) => if p == o then 1 else if p == two then 2 else 0
  }

  const TOKEN := AssetId(1)

  lemma PaidIsOneOfTwo(l: Ledger, i: nat, j: nat, k: nat, w: Utxo)
    requires |l.unspent| == |SortedOutpoints(l.outpoints)| && NoDuplicates(SortedOutpoints(l.outpoints))
    requires i < |l.unspent| && j < |l.unspent| && i != j && k < |l.unspent|
    requires var sorted := SortedOutpoints(l.outpoints);
      PaidAt(w, l.unspent, sorted, Paying(OneAndTwo(sorted[i], sorted[j]), TOKEN), TOKEN, k)
    ensures (k == i && w == l.unspent[i].(value := 1)) || (k == j && w == l.unspent[j].(value := 2))
  {
    var sorted := SortedOutpoints(l.outpoints);
    PayingReports(OneAndTwo(sorted[i], sorted[j]), TOKEN, TOKEN, sorted[k]);
  }

  /** A node that reports one unit on the partner of output i and two on that of output j
      files a coin of one unit and one of two. */
  lemma TwoFiled(l: Ledger, i: nat, j: nat)
    requires Coherent(l) && i < |l.unspent| == |SortedOutpoints(l.outpoints)| && j < |l.unspent| && i != j
    ensures var node := Paying(OneAndTwo(SortedOutpoints(l.outpoints)[i], SortedOutpoints(l.outpoints)[j]), TOKEN);
      && MergedAssets(l, node).Success?
      && var unspent := Filed(MergedAssets(l, node).value);
         && BITCOIN in unspent && unspent[BITCOIN] == Positive(l.unspent) && TOKEN in unspent
         && unspent[TOKEN] == {l.unspent[i].(value := 1), l.unspent[j].(value := 2)}
  {
    var sorted := SortedOutpoints(l.outpoints);
    SortedIsInOrder(l.outpoints);
    PayingFiles(l, OneAndTwo(sorted[i], sorted[j]), TOKEN);
    FilesOne(l, i, j, i);
    FilesOne(l, i, j, j);
    FilesNoOther(l, i, j);
    var node := Paying(OneAndTwo(sorted[i], sorted[j]), TOKEN);
    PairOnly(Held(Filed(MergedAssets(l, node).value), TOKEN), l.unspent[i].(value := 1), l.unspent[j].(value := 2));
  }

  lemma PairOnly(held: set<Utxo>, one: Utxo, two: Utxo)
    requires one in held && two in held && forall w | w in held :: w == one || w == two
    ensures held == {one, two}
  {
  }

  lemma FilesNoOther(l: Ledger, i: nat, j: nat)
    requires Coherent(l) && |l.unspent| == |SortedOutpoints(l.outpoints)| && NoDuplicates(SortedOutpoints(l.outpoints))
    requires i < |l.unspent| && j < |l.unspent| && i != j
    requires var node := Paying(OneAndTwo(SortedOutpoints(l.outpoints)[i], SortedOutpoints(l.outpoints)[j]), TOKEN);
      MergedAssets(l, node).Success?
    ensures var node := Paying(OneAndTwo(SortedOutpoints(l.outpoints)[i], SortedOutpoints(l.outpoints)[j]), TOKEN);
      forall w | w in Held(Filed(MergedAssets(l, node).value), TOKEN) ::
        w == l.unspent[i].(value := 1) || w == l.unspent[j].(value := 2)
  {
    var sorted := SortedOutpoints(l.outpoints);
    var node := Paying(OneAndTwo(sorted[i], sorted[j]), TOKEN);
    forall w | w in Held(Filed(MergedAssets(l, node).value), TOKEN)
      ensures w == l.unspent[i].(value := 1) || w == l.unspent[j].(value := 2)
    {
      var k := FiledIsPaid(l, node, TOKEN, w);
      PaidIsOneOfTwo(l, i, j, k, w);
    }
  }

  lemma FilesOne(l: Ledger, i: nat, j: nat, k: nat)
    requires Coherent(l) && |l.unspent| == |SortedOutpoints(l.outpoints)| && NoDuplicates(SortedOutpoints(l.outpoints))
    requires i < |l.unspent| && j < |l.unspent| && i != j && (k == i || k == j)
    requires var node := Paying(OneAndTwo(SortedOutpoints(l.outpoints)[i], SortedOutpoints(l.outpoints)[j]), TOKEN);
      MergedAssets(l, node).Success?
    ensures var node := Paying(OneAndTwo(SortedOutpoints(l.outpoints)[i], SortedOutpoints(l.outpoints)[j]), TOKEN);
      l.unspent[k].(value := if k == i then 1 else 2) in Held(Filed(MergedAssets(l, node).value), TOKEN)
  {
    var sorted := SortedOutpoints(l.outpoints);
    PayingReports(OneAndTwo(sorted[i], sorted[j]), TOKEN, TOKEN, sorted[k]);
    var w := PaidIsFiled(l, Paying(OneAndTwo(sorted[i], sorted[j]), TOKEN), TOKEN, k);
    PaidIsOneOfTwo(l, i, j, k, w);
  }

  /** One unit to a concealed outpoint, with a fee that leaves no bitcoin change. */
  function PayOne(id: ContractId, fee: u64): TransferRequest {
    TransferRequest(id, 1, fee, Rgb(TOKEN, BlindUtxo(OutpointHash(0))), Invoice(""))
  }

  lemma PairDrafts(entry: ContractCache, addressAt: AddressAt, addressScript: AddressScript, id: ContractId,
                   fee: u64, one: Utxo, two: Utxo) returns (order: seq<Utxo>, d: Draft)
    requires BITCOIN in entry.unspent && TOKEN in entry.unspent && entry.unspent[TOKEN] == {one, two}
    requires one.value == 1 && two.value == 2 && one.Outpoint() != two.Outpoint()
    requires BitcoinInput(entry.unspent[BITCOIN], {two.Outpoint()}) == fee
    ensures Offered(entry, PayOne(id, fee), order)
    ensures Plan(entry, addressAt, addressScript, PayOne(id, fee), order, Blindings(0, 0)) == Success(d)
    ensures two in d.picked && SealedTo(d, one.Outpoint())
  {
    order := PairOrder(one, two);
    PairChosen(entry.unspent, id, fee, one, two, order);
    var choice := ChooseCoins(entry.unspent, PayOne(id, fee), order).value;
    d := SettlePair(entry, addressAt, addressScript, id, fee, choice, one.Outpoint());
  }

  /** The larger coin is picked, and the other one is spare. */
  lemma PairOrder(one: Utxo, two: Utxo) returns (order: seq<Utxo>)
    requires one.value == 1 && two.value == 2 && one.Outpoint() != two.Outpoint()
    ensures Enumerates(order, {one, two})
    ensures var sel := Select(LargestFirst(order), 1);
      Elements(sel.picked) == {two} && sel.total == 2 && sel.spare == Some(one.Outpoint())
    ensures Sum({one, two}, ValueOf) == 3
  {
    var held := {one, two};
    PairSum(one, two);
    order := LeadingIsPicked({two}, held, 1);
    var sel := Select(LargestFirst(order), 1);
    LargestFirstSorts(order, held);
    PickedIsDistinct(LargestFirst(order), 1);
    SeqSumIsSum(sel.picked, ValueOf);
    WholeIsPicked(order, held, 1);
    SpareIsHeld(LargestFirst(order), held, 1);
    SpareIsOther(sel, one, two);
  }

  lemma PairSum(one: Utxo, two: Utxo)
    requires one.value == 1 && two.value == 2
    ensures Sum({one, two}, ValueOf) == 3 && Sum({two}, ValueOf) == 2
  {
    SumTake({one, two}, ValueOf, one);
    SumTake({two}, ValueOf, two);
    assert {one, two} - {one} == {two} && {two} - {two} == {};
  }

  lemma SpareIsOther(sel: Selection, one: Utxo, two: Utxo)
    requires Elements(sel.picked) == {two} && sel.spare.Some?
    requires LargestLeft(sel.spare.value, sel.picked, {one, two})
    ensures sel.spare.value == one.Outpoint()
  {
    assert two in Elements(sel.picked);
  }

  lemma PickedIsDistinct(coins: seq<Utxo>, target: nat)
    requires NoDuplicates(coins)
    ensures NoDuplicates(Select(coins, target).picked)
  {
  }

  lemma PairChosen(unspent: Unspent, id: ContractId, fee: u64, one: Utxo, two: Utxo, order: seq<Utxo>)
    requires TOKEN in unspent && unspent[TOKEN] == {one, two}
    requires Enumerates(order, {one, two}) && Sum({one, two}, ValueOf) == 3
    requires var sel := Select(LargestFirst(order), 1);
      Elements(sel.picked) == {two} && sel.total == 2 && sel.spare == Some(one.Outpoint())
    ensures ChooseCoins(unspent, PayOne(id, fee), order).Success?
    ensures var sel := ChooseCoins(unspent, PayOne(id, fee), order).value.selection;
      && sel.total == 2 && sel.spare == Some(one.Outpoint())
      && two in sel.picked && SpentOutpoints(sel.picked) == {two.Outpoint()}
  {
    InsufficientExactly(unspent, PayOne(id, fee), order);
    var picked := Select(LargestFirst(order), 1).picked;
    assert two in Elements(picked);
    SpentAreOutpoints(picked);
    assert OutpointsOf({two}) == {two.Outpoint()};
  }

  lemma SettlePair(entry: ContractCache, addressAt: AddressAt, addressScript: AddressScript, id: ContractId,
                   fee: u64, choice: Choice, o: OutPoint) returns (d: Draft)
    requires BITCOIN in entry.unspent && choice.selection.total == 2 && choice.selection.spare == Some(o)
    requires BitcoinInput(entry.unspent[BITCOIN], SpentOutpoints(choice.selection.picked)) == fee
    ensures Settle(entry, addressAt, addressScript, PayOne(id, fee), choice, Blindings(0, 0)) == Success(d)
    ensures d.picked == choice.selection.picked && SealedTo(d, o)
  {
    d := Settle(entry, addressAt, addressScript, PayOne(id, fee), choice, Blindings(0, 0)).value;
    assert OutpointSeal(o, 0) in d.rgbChange;
  }

  lemma BitcoinsUnder(l: Ledger, j: nat)
    requires Coherent(l) && j < |l.unspent|
    ensures BitcoinInput(Positive(l.unspent), {l.unspent[j].Outpoint()}) == l.unspent[j].value
  {
    var u := l.unspent[j];
    var under := Matching(Positive(l.unspent), {u.Outpoint()});
    forall v | v in under
      ensures v == u
    {
      var k :| 0 <= k < |l.unspent| && l.unspent[k] == v;
      assert OutpointList(l.unspent)[k] == OutpointList(l.unspent)[j];
    }
    assert u in l.unspent;
    assert under == if u.value > 0 then {u} else {};
    if u.value > 0 {
      SumTake(under, ValueOf, u);
      assert under - {u} == {};
    }
  }

  lemma RgbIsPrepared(env: Env, s: State, req: TransferRequest, w: TransferWorld)
    requires req.payFrom in s.contracts && req.info.Rgb? && w.connected && w.enclosed
    requires w.answer.Some? && w.answer.value.outs == []
    requires PlanFor(env, s, req, w).Success?
    ensures Compose(env, s, req, w).1.PreparedTransfer?
  {
  }

  /** With that node a transfer is prepared that spends the coin of two units and leaves
      the rest on that of one. */
  lemma PairIsTransferred(env: Env, s: State, id: ContractId, depth: nat, w: SyncWorld, i: nat, j: nat)
    returns (node: RgbNode, req: TransferRequest, tw: TransferWorld, d: Draft)
    requires Searches(env, s, id, depth, w)
    requires var l := Discovered(env, s, id, depth, w.server.value, w.tweakOrder);
      i < |l.unspent| == |SortedOutpoints(l.outpoints)| && j < |l.unspent| && i != j
    ensures var l := Discovered(env, s, id, depth, w.server.value, w.tweakOrder);
            var one, two := l.unspent[i].(value := 1), l.unspent[j].(value := 2);
      && node == Paying(OneAndTwo(SortedOutpoints(l.outpoints)[i], SortedOutpoints(l.outpoints)[j]), TOKEN)
      && DraftsRgb(env, s, id, depth, w, node, [], req, tw, d) && req.info.asset == TOKEN
      && one in Held(Entry(Before(env, s, id, depth, w, node, []).cache, id).unspent, TOKEN)
      && two in d.picked && SealedTo(d, one.Outpoint())
  {
    var l := Discovered(env, s, id, depth, w.server.value, w.tweakOrder);
    var one, two := l.unspent[i].(value := 1), l.unspent[j].(value := 2);
    DiscoveredCoheres(env, s, id, depth, w.server.value, w.tweakOrder);
    node := Paying(OneAndTwo(SortedOutpoints(l.outpoints)[i], SortedOutpoints(l.outpoints)[j]), TOKEN);
    TwoFiled(l, i, j);
    SyncFiles(env, s, id, depth, w.(node := node));
    SyncEffect(env, s, id, depth, w.(node := node));
    var synced := Sync(env, s, id, depth, w.(node := node)).0;
    assert Run(env, synced, []) == synced;
    BitcoinsUnder(l, j);
    assert OutpointList(l.unspent)[i] != OutpointList(l.unspent)[j];
    req, tw, d := PairIsPrepared(env, synced, id, l.unspent[j].value, one, two);
  }

  lemma PairIsPrepared(env: Env, s: State, id: ContractId, fee: u64, one: Utxo, two: Utxo)
    returns (req: TransferRequest, tw: TransferWorld, d: Draft)
    requires id in s.contracts
    requires var unspent := Entry(s.cache, id).unspent;
      && BITCOIN in unspent && TOKEN in unspent && unspent[TOKEN] == {one, two}
      && BitcoinInput(unspent[BITCOIN], {two.Outpoint()}) == fee
    requires one.value == 1 && two.value == 2 && one.Outpoint() != two.Outpoint()
    ensures req.payFrom == id && req.info.Rgb? && req.info.asset == TOKEN
    ensures Possible(s, ComposeTransfer(req, tw)) && PlanFor(env, s, req, tw) == Success(d)
    ensures Step(env, s, ComposeTransfer(req, tw)).1.PreparedTransfer?
    ensures two in d.picked && SealedTo(d, one.Outpoint())
  {
    var order;
    order, d := PairDrafts(Entry(s.cache, id), AddressesOf(env, s.contracts[id].policy), env.addressScript,
                           id, fee, one, two);
    req := PayOne(id, fee);
    tw := TransferWorld(order, Blindings(0, 0), true, Some(Witness(PsbtOf(d), [])), true);
    RgbIsPrepared(env, s, req, tw);
  }

  /** Where the order of discovery departs from the sorted one, and where the outpoint
      found there has its place. */
  lemma Departs(l: Ledger) returns (i: nat, m: nat)
    requires Coherent(l) && !InOutpointOrder(OutpointList(l.unspent))
    ensures i < |l.unspent| == |SortedOutpoints(l.outpoints)| && m < |l.unspent| && i != m
    ensures SortedOutpoints(l.outpoints)[m] == l.unspent[i].Outpoint()
    ensures NoDuplicates(SortedOutpoints(l.outpoints)) && NoDuplicates(OutpointList(l.unspent))
  {
    CoherentPairs(l);
    var own, sorted := OutpointList(l.unspent), SortedOutpoints(l.outpoints);
    SortedIsInOrder(l.outpoints);
    assert own != sorted;
    i :| 0 <= i < |own| && own[i] != sorted[i];
    m := PlaceOf(l, i);
  }

  // ----- exactly -----

  /** Every coin an RGB transfer spends is worth what the node reported on its outpoint,
      whatever it reported and whatever happens until the next synchronization, exactly
      when the outputs were discovered in ascending order of their outpoints. */
  lemma RgbSpendsAsReportedExactly(env: Env, s: State, id: ContractId, depth: nat, w: SyncWorld)
    requires Searches(env, s, id, depth, w)
    ensures (exists node, events, req, tw, d :: SpendsMisfiled(env, s, id, depth, w, node, events, req, tw, d)) <==>
            !InOutpointOrder(OutpointList(Discovered(env, s, id, depth, w.server.value, w.tweakOrder).unspent))
  {
    var l := Discovered(env, s, id, depth, w.server.value, w.tweakOrder);
    DiscoveredCoheres(env, s, id, depth, w.server.value, w.tweakOrder);
    if InOutpointOrder(OutpointList(l.unspent)) {
      forall node, events, req, tw, d
        ensures !SpendsMisfiled(env, s, id, depth, w, node, events, req, tw, d)
      {
        if DraftsRgb(env, s, id, depth, w, node, events, req, tw, d) {
          AscendingKeeps(env, s, id, depth, w, node, events, req, tw, d);
        }
      }
    } else {
      var i, m := Departs(l);
      var node, req, tw, d := PairIsTransferred(env, s, id, depth, w, i, m);
      PayingReports(OneAndTwo(SortedOutpoints(l.outpoints)[i], SortedOutpoints(l.outpoints)[m]), TOKEN, TOKEN,
                    l.unspent[m].Outpoint());
      assert OutpointList(l.unspent)[i] != OutpointList(l.unspent)[m];
      assert SpendsMisfiled(env, s, id, depth, w, node, [], req, tw, d);
    }
  }

  /** The same for the coin on which an RGB transfer leaves the rest of the asset. */
  lemma RgbSealsAsReportedExactly(env: Env, s: State, id: ContractId, depth: nat, w: SyncWorld)
    requires Searches(env, s, id, depth, w)
    ensures (exists node, events, req, tw, d :: SealsMisfiled(env, s, id, depth, w, node, events, req, tw, d)) <==>
            !InOutpointOrder(OutpointList(Discovered(env, s, id, depth, w.server.value, w.tweakOrder).unspent))
  {
    var l := Discovered(env, s, id, depth, w.server.value, w.tweakOrder);
    DiscoveredCoheres(env, s, id, depth, w.server.value, w.tweakOrder);
    if InOutpointOrder(OutpointList(l.unspent)) {
      forall node, events, req, tw, d
        ensures !SealsMisfiled(env, s, id, depth, w, node, events, req, tw, d)
      {
        if DraftsRgb(env, s, id, depth, w, node, events, req, tw, d) {
          AscendingKeeps(env, s, id, depth, w, node, events, req, tw, d);
        }
      }
    } else {
      var i, m := Departs(l);
      var node, req, tw, d := PairIsTransferred(env, s, id, depth, w, i, m);
      PayingReports(OneAndTwo(SortedOutpoints(l.outpoints)[i], SortedOutpoints(l.outpoints)[m]), TOKEN, TOKEN,
                    l.unspent[i].Outpoint());
      assert SealsMisfiled(env, s, id, depth, w, node, [], req, tw, d);
    }
  }

  /** The rest of an asset is left on an outpoint that holds nothing of it, for some node,
      exactly when at least three outputs were discovered and not in ascending order. */
  lemma RgbSealsOnHoldersExactly(env: Env, s: State, id: ContractId, depth: nat, w: SyncWorld)
    requires Searches(env, s, id, depth, w)
    ensures var found := OutpointList(Discovered(env, s, id, depth, w.server.value, w.tweakOrder).unspent);
      (exists node, events, req, tw, d :: SealsElsewhere(env, s, id, depth, w, node, events, req, tw, d)) <==>
      |found| >= 3 && !InOutpointOrder(found)
  {
    var l := Discovered(env, s, id, depth, w.server.value, w.tweakOrder);
    DiscoveredCoheres(env, s, id, depth, w.server.value, w.tweakOrder);
    if InOutpointOrder(OutpointList(l.unspent)) || |l.unspent| <= 2 {
      forall node, events, req, tw, d
        ensures !SealsElsewhere(env, s, id, depth, w, node, events, req, tw, d)
      {
        if DraftsRgb(env, s, id, depth, w, node, events, req, tw, d) {
          NeverElsewhere(env, s, id, depth, w, node, events, req, tw, d);
        }
      }
    } else {
      var node, req, tw, d := ThirdIsElsewhere(env, s, id, depth, w);
      assert SealsElsewhere(env, s, id, depth, w, node, [], req, tw, d);
    }
  }

  lemma ThirdIsElsewhere(env: Env, s: State, id: ContractId, depth: nat, w: SyncWorld)
    returns (node: RgbNode, req: TransferRequest, tw: TransferWorld, d: Draft)
    requires Searches(env, s, id, depth, w)
    requires var found := OutpointList(Discovered(env, s, id, depth, w.server.value, w.tweakOrder).unspent);
      |found| >= 3 && !InOutpointOrder(found)
    ensures SealsElsewhere(env, s, id, depth, w, node, [], req, tw, d)
  {
    var l := Discovered(env, s, id, depth, w.server.value, w.tweakOrder);
    DiscoveredCoheres(env, s, id, depth, w.server.value, w.tweakOrder);
    var i, m := Departs(l);
    var j: nat := if i != 0 && m != 0 then 0 else if i != 1 && m != 1 then 1 else 2;
    node, req, tw, d := PairIsTransferred(env, s, id, depth, w, i, j);
    PayingReports(OneAndTwo(SortedOutpoints(l.outpoints)[i], SortedOutpoints(l.outpoints)[j]), TOKEN, TOKEN,
                  l.unspent[i].Outpoint());
  }

  lemma NeverElsewhere(env: Env, s: State, id: ContractId, depth: nat, w: SyncWorld, node: RgbNode,
                       events: seq<Event>, req: TransferRequest, tw: TransferWorld, d: Draft)
    requires Searches(env, s, id, depth, w) && DraftsRgb(env, s, id, depth, w, node, events, req, tw, d)
    requires var found := OutpointList(Discovered(env, s, id, depth, w.server.value, w.tweakOrder).unspent);
      InOutpointOrder(found) || |found| <= 2
    ensures !SealsElsewhere(env, s, id, depth, w, node, events, req, tw, d)
  {
    var l := Discovered(env, s, id, depth, w.server.value, w.tweakOrder);
    if InOutpointOrder(OutpointList(l.unspent)) {
      AscendingKeeps(env, s, id, depth, w, node, events, req, tw, d);
    } else {
      DraftIsFromHeld(env, s, id, depth, w, node, events, req, tw, d);
      var held := Held(Filed(MergedAssets(l, node).value), req.info.asset);
      forall o | SealedTo(d, o)
        ensures NodeAmount(node, req.info.asset)(o) > 0
      {
        assert TwoHeld(held, o);
        var v, u :| v in held && u in held && v != u && v.Outpoint() == o;
        TwoAreBothHolders(l, node, req.info.asset, v, u);
      }
    }
  }
}
