/** Concrete runs from the initial state in which an expected promise fails. */
module WalletExamples {
  import opened WalletTypes
  import opened Collections
  import opened CacheModel
  import opened CacheDriver
  import opened StorageModel
  import opened ChainScan
  import opened GapLimit
  import opened ChainSync
  import opened AssetMerge
  import opened CoinSelection
  import opened TransferModel
  import opened TransferLaws
  import opened WalletModel
  import opened WalletInvariants
  import opened WalletRuns
  import opened WalletProgress
  import opened WalletIsolation
  import opened WalletAttribution

  // ----- a fresh contract and a server that funds one of its addresses -----

  function Fresh(env: Env, policy: Policy): State {
    State(map[env.policyId(policy) := NewContract(env.policyId(policy), "", policy)], EMPTY_CACHE, 0)
  }

  lemma RunFirst(env: Env, s: State, e: Event, rest: seq<Event>)
    requires Possible(s, e) && PossibleRun(env, Step(env, s, e).0, rest)
    ensures PossibleRun(env, s, [e] + rest)
    ensures Run(env, s, [e] + rest) == Run(env, Step(env, s, e).0, rest)
  {
    assert ([e] + rest)[1..] == rest;
  }

  lemma RunOfTwo(env: Env, s: State, e: Event, f: Event)
    requires Possible(s, e) && Possible(Step(env, s, e).0, f)
    ensures PossibleRun(env, s, [e, f])
    ensures Run(env, s, [e, f]) == Step(env, Step(env, s, e).0, f).0
  {
    RunFirst(env, Step(env, s, e).0, f, []);
    assert [f] + [] == [f] && [e] + [f] == [e, f];
    RunFirst(env, s, e, [f]);
  }

  /** One output of a transaction in block 1. */
  function Line(txid: Txid, vout: u16, value: u64): Item {
    Item(1, txid, vout, value)
  }

  /** A server that lists outputs for one address only, places every transaction at the
      head of its block and answers every request. */
  function Funding(env: Env, policy: Policy, at: Index, items: seq<Item>): Server {
    Server(s => if s == env.scriptOf(policy, at) then items else [], (t, h) => Some(0), n => true)
  }

  function World(env: Env, policy: Policy, at: Index, items: seq<Item>, node: RgbNode): SyncWorld {
    SyncWorld(Some(Funding(env, policy, at, items)), node, [], [])
  }

  function At(env: Env, policy: Policy, i: Index): Probe {
    Probe(i, env.scriptOf(policy, i), None)
  }

  function Coin(env: Env, policy: Policy, txid: Txid, vout: u16, value: u64): Utxo {
    Utxo(value, 1, 0, txid, vout, 0, None, env.readAddress(env.scriptOf(policy, 0)))
  }

  predicate Apart(env: Env, policy: Policy) {
    env.scriptOf(policy, 0) != env.scriptOf(policy, 1)
  }

  lemma HitsOfOne(server: Server, p: Probe)
    ensures Hits(server, [p]) == HitsOf(p, server.list(p.script))
  {
    assert [p][..0] == [];
    assert Hits(server, []) + HitsOf(p, server.list(p.script)) == HitsOf(p, server.list(p.script));
  }

  lemma OneIsQuiet(server: Server, p: Probe)
    ensures Quiet(server, [p]) <==> server.list(p.script) == []
  {
    HitsOfOne(server, p);
    HitsOfAreItems(p, server.list(p.script));
  }

  lemma OneIndex(scriptAt: ScriptAt, i: Index, j: Index)
    requires j == i + 1
    ensures IndexBatch(scriptAt, i, j) == [Probe(i, scriptAt(i), None)]
  {
  }

  /** With the first address funded, depth one searches the first two. */
  lemma FirstFunded(env: Env, policy: Policy, items: seq<Item>)
    requires Apart(env, policy) && items != []
    ensures Batches(Funding(env, policy, 0, items), ScriptsOf(env, policy), 1, 0, 0, []) ==
            [[], [At(env, policy, 0)], [At(env, policy, 1)]]
  {
    var server, scriptAt := Funding(env, policy, 0, items), ScriptsOf(env, policy);
    var first, second := [At(env, policy, 0)], [At(env, policy, 1)];
    OneIndex(scriptAt, 0, 1);
    OneIndex(scriptAt, 1, 2);
    OneIsQuiet(server, At(env, policy, 0));
    OneIsQuiet(server, At(env, policy, 1));
    assert Batches(server, scriptAt, 1, 0, 2, second) == [second];
    assert Batches(server, scriptAt, 1, 0, 1, first) == [first] + [second];
    assert Batches(server, scriptAt, 1, 0, 0, []) == [[]] + ([first] + [second]);
  }

  /** With the second address funded, depth one searches only the first. */
  lemma SecondFunded(env: Env, policy: Policy, items: seq<Item>)
    requires Apart(env, policy)
    ensures Batches(Funding(env, policy, 1, items), ScriptsOf(env, policy), 1, 0, 0, []) ==
            [[], [At(env, policy, 0)]]
  {
    var server, scriptAt := Funding(env, policy, 1, items), ScriptsOf(env, policy);
    var first := [At(env, policy, 0)];
    OneIndex(scriptAt, 0, 1);
    OneIsQuiet(server, At(env, policy, 0));
    assert Batches(server, scriptAt, 1, 0, 1, first) == [first];
    assert Batches(server, scriptAt, 1, 0, 0, []) == [[]] + [first];
  }

  // ----- what such a search finds -----

  lemma AbsorbQuiet(l: Ledger, server: Server, probes: seq<Probe>, readAddress: Script -> Option<Address>)
    requires Quiet(server, probes)
    ensures Absorb(l, server, probes, readAddress) == l
  {
    var groups := Group(Hits(server, probes));
    SortedKeysAreKeys(groups);
    EmptyElements(SortedKeys(groups));
    assert SortedKeys(groups) == [];
  }

  lemma OneKey(groups: map<TxKey, seq<Found>>, k: TxKey)
    requires groups.Keys == {k}
    ensures SortedKeys(groups) == [k]
  {
    var keys := SortedKeys(groups);
    KeyRanksApart(groups.Keys);
    AscendingIsDistinct(keys, KeyRank);
    assert |keys| == 1 && keys[0] in Elements(keys);
  }

  /** A batch that hears of one transaction only. */
  lemma AbsorbOne(server: Server, p: Probe, k: TxKey, outs: seq<Found>, readAddress: Script -> Option<Address>)
    requires Group(Hits(server, [p])) == map[k := outs] && server.merkle(k.txid, k.height) == Some(0)
    ensures Absorb(EMPTY_LEDGER, server, [p], readAddress) ==
            AddOutputs(EMPTY_LEDGER.(mineInfo := map[BlockPos(k.height, 0) := k.txid]), k, 0, outs, readAddress)
  {
    var groups: map<TxKey, seq<Found>> := map[k := outs];
    OneKey(groups, k);
    SortedKeysAreKeys(groups);
    assert [k][..0] == [];
    assert AddTransactions(EMPTY_LEDGER, server, groups, [], readAddress) == EMPTY_LEDGER;
  }

  function Key(txid: Txid): TxKey {
    TxKey(1, txid)
  }

  function FoundAt(env: Env, policy: Policy, vout: u16, value: u64): Found {
    Found(vout, value, 0, env.scriptOf(policy, 0), None)
  }

  lemma HitsOfItem(p: Probe, item: Item)
    ensures HitsOf(p, [item]) == [HitOf(p, item)]
  {
    HitsOfStep(p, [item], 0);
    assert [item][..0] == [] && [item][..1] == [item];
  }

  lemma GroupOfHit(h: Hit)
    ensures Group([h]) == map[h.key := [h.found]]
  {
    GroupPush([], h);
    assert [] + [h] == [h] && [] + [h.found] == [h.found];
  }

  lemma OneHit(env: Env, policy: Policy, txid: Txid, vout: u16, value: u64)
    ensures HitsOf(At(env, policy, 0), [Line(txid, vout, value)]) == [Hit(Key(txid), FoundAt(env, policy, vout, value))]
    ensures Group(HitsOf(At(env, policy, 0), [Line(txid, vout, value)])) ==
            map[Key(txid) := [FoundAt(env, policy, vout, value)]]
  {
    HitsOfItem(At(env, policy, 0), Line(txid, vout, value));
    GroupOfHit(Hit(Key(txid), FoundAt(env, policy, vout, value)));
  }

  lemma TwoHits(env: Env, policy: Policy, value: u64)
    ensures Group(HitsOf(At(env, policy, 0), [Line(7, 1, value), Line(7, 0, value)])) ==
            map[Key(7) := [FoundAt(env, policy, 1, value), FoundAt(env, policy, 0, value)]]
  {
    var p, items := At(env, policy, 0), [Line(7, 1, value), Line(7, 0, value)];
    var f, g := FoundAt(env, policy, 1, value), FoundAt(env, policy, 0, value);
    OneHit(env, policy, 7, 1, value);
    HitsOfStep(p, items, 1);
    assert items[..1] == [Line(7, 1, value)] && items[..2] == items;
    GroupPush([Hit(Key(7), f)], Hit(Key(7), g));
    assert [f] + [g] == [f, g];
  }

  lemma OutputsPush(l: Ledger, key: TxKey, pos: nat, outs: seq<Found>, f: Found, readAddress: Script -> Option<Address>)
    ensures AddOutputs(l, key, pos, outs + [f], readAddress) ==
            AddOutput(AddOutputs(l, key, pos, outs, readAddress), key, pos, f, readAddress)
  {
    assert (outs + [f])[..|outs + [f]| - 1] == outs;
  }

  function Ledger1(env: Env, policy: Policy, txid: Txid, value: u64): Ledger {
    Ledger([Coin(env, policy, txid, 0, value)], {OutPoint(txid, 0)}, map[BlockPos(1, 0) := txid])
  }

  function Ledger2(env: Env, policy: Policy, value: u64): Ledger {
    Ledger([Coin(env, policy, 7, 1, value), Coin(env, policy, 7, 0, value)], {OutPoint(7, 1), OutPoint(7, 0)},
           map[BlockPos(1, 0) := 7])
  }

  lemma AbsorbThree(server: Server, a: seq<Probe>, b: seq<Probe>, c: seq<Probe>,
                    readAddress: Script -> Option<Address>)
    requires Quiet(server, a) && Quiet(server, c)
    ensures AbsorbAll(server, [a, b, c], readAddress) == Absorb(EMPTY_LEDGER, server, b, readAddress)
  {
    AbsorbStep(server, [], a, readAddress);
    AbsorbStep(server, [a], b, readAddress);
    AbsorbStep(server, [a, b], c, readAddress);
    assert [] + [a] == [a] && [a] + [b] == [a, b] && [a, b] + [c] == [a, b, c];
    AbsorbQuiet(EMPTY_LEDGER, server, a, readAddress);
    AbsorbQuiet(Absorb(EMPTY_LEDGER, server, b, readAddress), server, c, readAddress);
  }

  function Started(txid: Txid): Ledger {
    EMPTY_LEDGER.(mineInfo := map[BlockPos(1, 0) := txid])
  }

  lemma OneAdded(env: Env, policy: Policy, txid: Txid, vout: u16, value: u64)
    ensures AddOutputs(Started(txid), Key(txid), 0, [FoundAt(env, policy, vout, value)], env.readAddress) ==
            Started(txid).(unspent := [Coin(env, policy, txid, vout, value)], outpoints := {OutPoint(txid, vout)})
  {
    var f := FoundAt(env, policy, vout, value);
    OutputsPush(Started(txid), Key(txid), 0, [], f, env.readAddress);
    assert [] + [f] == [f];
  }

  lemma TwoAdded(env: Env, policy: Policy, value: u64)
    ensures AddOutputs(Started(7), Key(7), 0, [FoundAt(env, policy, 1, value), FoundAt(env, policy, 0, value)],
                       env.readAddress) == Ledger2(env, policy, value)
  {
    var f, g := FoundAt(env, policy, 1, value), FoundAt(env, policy, 0, value);
    OneAdded(env, policy, 7, 1, value);
    OutputsPush(Started(7), Key(7), 0, [f], g, env.readAddress);
    assert [f] + [g] == [f, g];
  }

  lemma OneFound(env: Env, policy: Policy, txid: Txid, value: u64)
    requires Apart(env, policy)
    ensures AbsorbAll(Funding(env, policy, 0, [Line(txid, 0, value)]), [[], [At(env, policy, 0)], [At(env, policy, 1)]],
                      env.readAddress) == Ledger1(env, policy, txid, value)
  {
    var server := Funding(env, policy, 0, [Line(txid, 0, value)]);
    OneIsQuiet(server, At(env, policy, 1));
    AbsorbThree(server, [], [At(env, policy, 0)], [At(env, policy, 1)], env.readAddress);
    HitsOfOne(server, At(env, policy, 0));
    OneHit(env, policy, txid, 0, value);
    AbsorbOne(server, At(env, policy, 0), Key(txid), [FoundAt(env, policy, 0, value)], env.readAddress);
    OneAdded(env, policy, txid, 0, value);
  }

  lemma TwoFound(env: Env, policy: Policy, value: u64)
    requires Apart(env, policy)
    ensures AbsorbAll(Funding(env, policy, 0, [Line(7, 1, value), Line(7, 0, value)]),
                      [[], [At(env, policy, 0)], [At(env, policy, 1)]], env.readAddress) ==
            Ledger2(env, policy, value)
  {
    var server := Funding(env, policy, 0, [Line(7, 1, value), Line(7, 0, value)]);
    OneIsQuiet(server, At(env, policy, 1));
    AbsorbThree(server, [], [At(env, policy, 0)], [At(env, policy, 1)], env.readAddress);
    HitsOfOne(server, At(env, policy, 0));
    TwoHits(env, policy, value);
    AbsorbOne(server, At(env, policy, 0), Key(7), [FoundAt(env, policy, 1, value), FoundAt(env, policy, 0, value)],
              env.readAddress);
    TwoAdded(env, policy, value);
  }

  // ----- synchronizing the fresh contract -----

  function Synchronize(env: Env, policy: Policy, at: Index, items: seq<Item>, node: RgbNode): Event {
    SyncContract(env.policyId(policy), 1, World(env, policy, at, items, node))
  }

  /** The contract is stored, but was never used or synchronized. */
  predicate Untouched(env: Env, policy: Policy, s: State) {
    var id := env.policyId(policy);
    && id in s.contracts && s.contracts[id] == NewContract(id, "", policy)
    && Entry(s.cache, id) == EMPTY_ENTRY && s.knownHeight == 0
  }

  lemma SyncsUntouched(env: Env, policy: Policy, s: State, at: Index, items: seq<Item>, node: RgbNode, l: Ledger)
    requires Untouched(env, policy, s)
    requires Discovered(env, s, env.policyId(policy), 1, Funding(env, policy, at, items), []) == l
    requires Coherent(l) ==> MergedAssets(l, node).Success?
    ensures var id := env.policyId(policy);
      && Coherent(l) && Possible(s, Synchronize(env, policy, at, items, node))
      && Searches(env, s, id, 1, World(env, policy, at, items, node))
      && var (s', reply) := Sync(env, s, id, 1, World(env, policy, at, items, node));
         reply == SyncedAssets(MergedAssets(l, node).value) && s'.contracts == s.contracts && s'.knownHeight == 0 &&
         s'.cache.mineInfo == s.cache.mineInfo + l.mineInfo &&
         s'.cache.descriptors == s.cache.descriptors[id :=
           ContractCache(0, map[], l.outpoints, Filed(MergedAssets(l, node).value))]
  {
    var id := env.policyId(policy);
    var w := World(env, policy, at, items, node);
    var server := Funding(env, policy, at, items);
    var queries := Queries(env, s, id, 1, server, []);
    AnsweredEach(server, |queries|);
    DiscoveredCoheres(env, s, id, 1, server, []);
    SyncEffect(env, s, id, 1, w);
    SyncFiles(env, s, id, 1, w);
  }

  lemma DiscoversFirst(env: Env, policy: Policy, s: State, items: seq<Item>)
    requires Untouched(env, policy, s) && Apart(env, policy) && items != []
    ensures Discovered(env, s, env.policyId(policy), 1, Funding(env, policy, 0, items), []) ==
            AbsorbAll(Funding(env, policy, 0, items), [[], [At(env, policy, 0)], [At(env, policy, 1)]], env.readAddress)
  {
    FirstFunded(env, policy, items);
    assert TweakProbes([]) == [];
  }

  /** One coin is found and holds five units of the token. */
  lemma OneCoinSyncs(env: Env, policy: Policy, s: State, txid: Txid, value: u64)
    requires Untouched(env, policy, s) && Apart(env, policy) && value > 0
    ensures var id := env.policyId(policy);
            var items, node := [Line(txid, 0, value)], Holding(OutPoint(txid, 0), TOKEN, 5);
      && Possible(s, Synchronize(env, policy, 0, items, node))
      && var s' := Sync(env, s, id, 1, World(env, policy, 0, items, node)).0;
         s'.contracts == s.contracts && s'.knownHeight == 0 &&
         s'.cache.mineInfo == s.cache.mineInfo + map[BlockPos(1, 0) := txid] &&
         s'.cache.descriptors == s.cache.descriptors[id := ContractCache(0, map[], {OutPoint(txid, 0)},
           map[BITCOIN := {Coin(env, policy, txid, 0, value)}, TOKEN := {Coin(env, policy, txid, 0, 5)}])]
  {
    OneDiscovered(env, policy, s, txid, value);
    OneFiled(env, policy, txid, value);
    SyncsUntouched(env, policy, s, 0, [Line(txid, 0, value)], Holding(OutPoint(txid, 0), TOKEN, 5),
                   Ledger1(env, policy, txid, value));
  }

  lemma OneDiscovered(env: Env, policy: Policy, s: State, txid: Txid, value: u64)
    requires Untouched(env, policy, s) && Apart(env, policy)
    ensures Discovered(env, s, env.policyId(policy), 1, Funding(env, policy, 0, [Line(txid, 0, value)]), []) ==
            Ledger1(env, policy, txid, value)
    ensures Coherent(Ledger1(env, policy, txid, value))
  {
    DiscoversFirst(env, policy, s, [Line(txid, 0, value)]);
    OneFound(env, policy, txid, value);
    DiscoveredCoheres(env, s, env.policyId(policy), 1, Funding(env, policy, 0, [Line(txid, 0, value)]), []);
  }

  lemma OneFiled(env: Env, policy: Policy, txid: Txid, value: u64)
    requires Coherent(Ledger1(env, policy, txid, value)) && value > 0
    ensures var l, node := Ledger1(env, policy, txid, value), Holding(OutPoint(txid, 0), TOKEN, 5);
      && MergedAssets(l, node).Success?
      && Filed(MergedAssets(l, node).value) ==
         map[BITCOIN := {Coin(env, policy, txid, 0, value)}, TOKEN := {Coin(env, policy, txid, 0, 5)}]
  {
    var l := Ledger1(env, policy, txid, value);
    SortedOne(OutPoint(txid, 0));
    HoldingFiled(l, 0, OutPoint(txid, 0), TOKEN, 5);
    assert Positive(l.unspent) == {Coin(env, policy, txid, 0, value)};
  }

  lemma SortedOne(o: OutPoint)
    ensures SortedOutpoints({o}) == [o]
  {
    var sorted := SortedOutpoints({o});
    SortedIsInOrder({o});
    assert |sorted| == 1 && sorted[0] in Elements(sorted);
  }

  lemma SortedPair()
    ensures SortedOutpoints({OutPoint(7, 1), OutPoint(7, 0)}) == [OutPoint(7, 0), OutPoint(7, 1)]
  {
    var pair := [OutPoint(7, 0), OutPoint(7, 1)];
    assert Elements(pair) == {OutPoint(7, 1), OutPoint(7, 0)};
    OrderIsSorted(pair, {OutPoint(7, 1), OutPoint(7, 0)});
  }

  // ----- an asset is filed under the wrong output, and spent as bitcoin -----

  const TWO_LINES := [Line(7, 1, 10), Line(7, 0, 10)]
  const ON_ZERO := Holding(OutPoint(7, 0), TOKEN, 5)

  /** The server lists output 1 before output 0, and output 0 holds an asset: the asset is
      filed under output 1. */
  lemma AmountIsMisfiled(env: Env, policy: Policy)
    requires Apart(env, policy)
    ensures var l := Ledger2(env, policy, 10);
      && Discovered(env, Fresh(env, policy), env.policyId(policy), 1, Funding(env, policy, 0, TWO_LINES), []) == l
      && Coherent(l) && MergedAssets(l, ON_ZERO).Success?
      && !InOutpointOrder(OutpointList(l.unspent))
      && NodeAmount(ON_ZERO, TOKEN)(OutPoint(7, 0)) == 5
      && Filed(MergedAssets(l, ON_ZERO).value) ==
         map[BITCOIN := {Coin(env, policy, 7, 0, 10), Coin(env, policy, 7, 1, 10)},
             TOKEN := {Coin(env, policy, 7, 1, 5)}]
  {
    TwoDiscovered(env, policy);
    TwoFiled(env, policy);
    HoldingReports(OutPoint(7, 0), TOKEN, 5);
    var own := OutpointList(Ledger2(env, policy, 10).unspent);
    assert !OutpointBefore(own[0], own[1]);
  }

  lemma TwoDiscovered(env: Env, policy: Policy)
    requires Apart(env, policy)
    ensures Discovered(env, Fresh(env, policy), env.policyId(policy), 1, Funding(env, policy, 0, TWO_LINES), []) ==
            Ledger2(env, policy, 10)
    ensures Coherent(Ledger2(env, policy, 10))
  {
    DiscoversFirst(env, policy, Fresh(env, policy), TWO_LINES);
    TwoFound(env, policy, 10);
    DiscoveredCoheres(env, Fresh(env, policy), env.policyId(policy), 1, Funding(env, policy, 0, TWO_LINES), []);
  }

  lemma TwoFiled(env: Env, policy: Policy)
    requires Coherent(Ledger2(env, policy, 10))
    ensures var l := Ledger2(env, policy, 10);
      && MergedAssets(l, ON_ZERO).Success?
      && Filed(MergedAssets(l, ON_ZERO).value) ==
         map[BITCOIN := {Coin(env, policy, 7, 0, 10), Coin(env, policy, 7, 1, 10)},
             TOKEN := {Coin(env, policy, 7, 1, 5)}]
  {
    var l := Ledger2(env, policy, 10);
    SortedPair();
    HoldingFiled(l, 0, OutPoint(7, 0), TOKEN, 5);
    assert Positive(l.unspent) == {Coin(env, policy, 7, 0, 10), Coin(env, policy, 7, 1, 10)};
  }

  const SWEEP := TransferWorld([], Blindings(0, 0), true, None, true)

  function PayTen(id: ContractId): TransferRequest {
    TransferRequest(id, 10, 0, Bitcoin(Script("")), Invoice(""))
  }

  function Misfiled(env: Env, policy: Policy): State {
    Sync(env, Fresh(env, policy), env.policyId(policy), 1, World(env, policy, 0, TWO_LINES, ON_ZERO)).0
  }

  lemma MisfiledOffers(env: Env, policy: Policy)
    requires Apart(env, policy)
    ensures var id, coin := env.policyId(policy), Coin(env, policy, 7, 0, 10);
      && Possible(Fresh(env, policy), Synchronize(env, policy, 0, TWO_LINES, ON_ZERO))
      && id in Misfiled(env, policy).contracts
      && OffersOnly(Entry(Misfiled(env, policy).cache, id).unspent, coin)
  {
    AmountIsMisfiled(env, policy);
    SyncsUntouched(env, policy, Fresh(env, policy), 0, TWO_LINES, ON_ZERO, Ledger2(env, policy, 10));
    OnlyZeroIsPure(Entry(Misfiled(env, policy).cache, env.policyId(policy)).unspent,
                   Coin(env, policy, 7, 0, 10), Coin(env, policy, 7, 1, 10), Coin(env, policy, 7, 1, 5));
  }

  /** The contract is created and synchronized; then a bitcoin payment spends output 0,
      which holds the asset. */
  lemma AssetIsSpentAsBitcoin(env: Env, policy: Policy)
    requires Apart(env, policy)
    ensures var id := env.policyId(policy);
            var events := [CreateContract(policy, ""), Synchronize(env, policy, 0, TWO_LINES, ON_ZERO)];
            var pay := ComposeTransfer(PayTen(id), SWEEP.(order := [Coin(env, policy, 7, 0, 10)]));
      && PossibleRun(env, INITIAL, events) && Run(env, INITIAL, events) == Misfiled(env, policy)
      && Possible(Misfiled(env, policy), pay)
      && var out := Step(env, Misfiled(env, policy), pay).1;
         out.PreparedTransfer? && OutPoint(7, 0) in out.psbt.inputs && HoldsAsset(ON_ZERO, OutPoint(7, 0))
  {
    var id, coin := env.policyId(policy), Coin(env, policy, 7, 0, 10);
    MisfiledOffers(env, policy);
    RunOfTwo(env, INITIAL, CreateContract(policy, ""), Synchronize(env, policy, 0, TWO_LINES, ON_ZERO));
    PayingTenSpends(env, Misfiled(env, policy), id, coin);
    HoldingReports(OutPoint(7, 0), TOKEN, 5);
  }

  lemma PayingTenSpends(env: Env, s: State, id: ContractId, coin: Utxo)
    requires id in s.contracts && coin.value == 10
    requires OffersOnly(Entry(s.cache, id).unspent, coin)
    ensures var pay := ComposeTransfer(PayTen(id), SWEEP.(order := [coin]));
      Possible(s, pay) && var out := Step(env, s, pay).1;
         out.PreparedTransfer? && coin.Outpoint() in out.psbt.inputs
  {
    OneCoinDrafts(Entry(s.cache, id), AddressesOf(env, s.contracts[id].policy), env.addressScript, PayTen(id), coin,
                  SWEEP.blindings);
    DraftIsPrepared(env, s, PayTen(id), SWEEP.(order := [coin]), coin);
  }

  lemma OnlyZeroIsPure(unspent: Unspent, zero: Utxo, one: Utxo, token: Utxo)
    requires unspent == map[BITCOIN := {zero, one}, TOKEN := {token}]
    requires zero.Outpoint() != one.Outpoint() == token.Outpoint() && token.value > 0 && zero.value > 0
    ensures OffersOnly(unspent, zero)
  {
    UniqueIsCountable(unspent, TOKEN);
    CarrierIsNotPure(unspent, one, TOKEN, token);
    assert PureBitcoin(unspent) == {zero};
  }

  // ----- an RGB transfer spends an output that holds nothing of the asset -----

  /** All five units to a concealed outpoint, with the bitcoins under them as the fee. */
  function PayFive(id: ContractId): TransferRequest {
    TransferRequest(id, 5, 10, Rgb(TOKEN, BlindUtxo(OutpointHash(0))), Invoice(""))
  }

  function AnsweredEmpty(token: Utxo): TransferWorld {
    TransferWorld([token], Blindings(0, 0), true, Some(Witness(Psbt([token.Outpoint()], []), [])), true)
  }

  lemma MisfiledHolds(env: Env, policy: Policy)
    requires Apart(env, policy)
    ensures env.policyId(policy) in Misfiled(env, policy).contracts
    ensures Entry(Misfiled(env, policy).cache, env.policyId(policy)).unspent ==
            map[BITCOIN := {Coin(env, policy, 7, 0, 10), Coin(env, policy, 7, 1, 10)},
                TOKEN := {Coin(env, policy, 7, 1, 5)}]
  {
    AmountIsMisfiled(env, policy);
    SyncsUntouched(env, policy, Fresh(env, policy), 0, TWO_LINES, ON_ZERO, Ledger2(env, policy, 10));
  }

  /** The contract is created and synchronized; then an RGB transfer spends output 1, on
      which the node reported nothing, for the five units that are on output 0. */
  lemma EmptyOutputIsTransferred(env: Env, policy: Policy)
    requires Apart(env, policy)
    ensures var id, token := env.policyId(policy), Coin(env, policy, 7, 1, 5);
            var events := [CreateContract(policy, ""), Synchronize(env, policy, 0, TWO_LINES, ON_ZERO)];
            var s, pay := Misfiled(env, policy), ComposeTransfer(PayFive(id), AnsweredEmpty(token));
      && PossibleRun(env, INITIAL, events) && Run(env, INITIAL, events) == s
      && Possible(s, pay) && Step(env, s, pay).1.PreparedTransfer?
      && var plan := PlanFor(env, s, PayFive(id), AnsweredEmpty(token));
         plan.Success? && plan.value.picked == [token] && token.Outpoint() == OutPoint(7, 1) &&
         NodeAmount(ON_ZERO, TOKEN)(OutPoint(7, 1)) == 0
  {
    var id, token, s := env.policyId(policy), Coin(env, policy, 7, 1, 5), Misfiled(env, policy);
    MisfiledOffers(env, policy);
    MisfiledHolds(env, policy);
    RunOfTwo(env, INITIAL, CreateContract(policy, ""), Synchronize(env, policy, 0, TWO_LINES, ON_ZERO));
    TokenDrafts(Entry(s.cache, id), AddressesOf(env, s.contracts[id].policy), env.addressScript, id,
                Coin(env, policy, 7, 0, 10), Coin(env, policy, 7, 1, 10), token);
    RgbIsPrepared(env, s, PayFive(id), AnsweredEmpty(token));
  }

  lemma TokenDrafts(entry: ContractCache, addressAt: AddressAt, addressScript: AddressScript, id: ContractId,
                    zero: Utxo, one: Utxo, token: Utxo)
    requires entry.unspent == map[BITCOIN := {zero, one}, TOKEN := {token}]
    requires zero.Outpoint() != one.Outpoint() && one.value == 10 && token == one.(value := 5)
    ensures Offered(entry, PayFive(id), [token])
    ensures var plan := Plan(entry, addressAt, addressScript, PayFive(id), [token], Blindings(0, 0));
      plan.Success? && plan.value.picked == [token]
  {
    var req := PayFive(id);
    assert Candidates(entry.unspent, req.info) == Success({token});
    OneCoinChosen(entry.unspent, req, token);
    assert Enumerates([token], {token});
    SpentAreOutpoints([token]);
    assert Elements([token]) == {token};
    assert Matching({zero, one}, SpentOutpoints([token])) == {one} by {
      assert OutpointsOf({token}) == {one.Outpoint()};
    }
    SumTake({one}, ValueOf, one);
    assert {one} - {one} == {};
  }

  // ----- an RGB transfer pays out more bitcoins than it spends -----

  const ONE_LINE := [Line(7, 0, 1)]

  function Poor(env: Env, policy: Policy): State {
    Sync(env, Fresh(env, policy), env.policyId(policy), 1, World(env, policy, 0, ONE_LINE, ON_ZERO)).0
  }

  lemma PoorHolds(env: Env, policy: Policy)
    requires Apart(env, policy)
    ensures var id := env.policyId(policy);
      && Possible(Fresh(env, policy), Synchronize(env, policy, 0, ONE_LINE, ON_ZERO))
      && id in Poor(env, policy).contracts
      && Entry(Poor(env, policy).cache, id) == ContractCache(0, map[], {OutPoint(7, 0)},
           map[BITCOIN := {Coin(env, policy, 7, 0, 1)}, TOKEN := {Coin(env, policy, 7, 0, 5)}])
  {
    OneCoinSyncs(env, policy, Fresh(env, policy), 7, 1);
  }

  /** Five units of the asset to a receiver who is promised ten bitcoin units with them. */
  function GiveTen(id: ContractId): TransferRequest {
    TransferRequest(id, 5, 0, Rgb(TOKEN, Descriptor(Script(""), 10)), Invoice(""))
  }

  function Answered5(token: Utxo): TransferWorld {
    TransferWorld([token], Blindings(0, 0), true,
                  Some(Witness(Psbt([OutPoint(7, 0)], [TxOut(10, Script(""))]), [])), true)
  }

  /** The contract is created and synchronized; then a transfer is prepared that spends one
      bitcoin unit and pays out ten. */
  lemma RgbMayOverspend(env: Env, policy: Policy)
    requires Apart(env, policy)
    ensures var id, token := env.policyId(policy), Coin(env, policy, 7, 0, 5);
            var events := [CreateContract(policy, ""), Synchronize(env, policy, 0, ONE_LINE, ON_ZERO)];
            var s := Poor(env, policy);
      && PossibleRun(env, INITIAL, events) && Run(env, INITIAL, events) == s
      && Possible(s, ComposeTransfer(GiveTen(id), Answered5(token)))
      && Step(env, s, ComposeTransfer(GiveTen(id), Answered5(token))).1.PreparedTransfer?
      && var plan := PlanFor(env, s, GiveTen(id), Answered5(token));
         plan.Success? && plan.value.bitcoinInput == 1 && OutputTotal(plan.value.outputs) == 10
  {
    var id, sats, token := env.policyId(policy), Coin(env, policy, 7, 0, 1), Coin(env, policy, 7, 0, 5);
    PoorHolds(env, policy);
    RunOfTwo(env, INITIAL, CreateContract(policy, ""), Synchronize(env, policy, 0, ONE_LINE, ON_ZERO));
    var s := Poor(env, policy);
    OverspendDrafts(Entry(s.cache, id), AddressesOf(env, s.contracts[id].policy), env.addressScript,
                    GiveTen(id), sats, token);
    RgbIsPrepared(env, s, GiveTen(id), Answered5(token));
  }

  lemma OverspendDrafts(entry: ContractCache, addressAt: AddressAt, addressScript: AddressScript,
                        req: TransferRequest, sats: Utxo, token: Utxo)
    requires entry.unspent == map[BITCOIN := {sats}, TOKEN := {token}]
    requires sats.value == 1 && token == sats.(value := 5)
    requires req == GiveTen(req.payFrom)
    ensures Offered(entry, req, [token])
    ensures var plan := Plan(entry, addressAt, addressScript, req, [token], Blindings(0, 0));
      plan.Success? && plan.value.bitcoinInput == 1 && OutputTotal(plan.value.outputs) == 10
  {
    assert Candidates(entry.unspent, req.info) == Success({token});
    OneCoinChosen(entry.unspent, req, token);
    assert Matching({sats}, SpentOutpoints([token])) == {sats} by {
      assert token in [token] && token.Outpoint() in SpentOutpoints([token]);
    }
    SumTake({sats}, ValueOf, sats);
    assert {sats} - {sats} == {};
    assert Enumerates([token], {token});
    PaidTotal(req);
  }

  // ----- a gap hides funds -----

  /** Only the second address is funded: depth one stops before it, and nothing is cached. */
  lemma GapHidesFunds(env: Env, policy: Policy)
    requires Apart(env, policy)
    ensures var id, items := env.policyId(policy), [Line(7, 0, 10)];
            var server := Funding(env, policy, 1, items);
            var events := [CreateContract(policy, ""), Synchronize(env, policy, 1, items, ON_ZERO)];
      && Funded(server, ScriptsOf(env, policy), 1)
      && StopPoint(server, ScriptsOf(env, policy), 1, 0, 1)
      && !NoGap(server, ScriptsOf(env, policy), 1, 0)
      && FinalOffset(server, ScriptsOf(env, policy), 1, 0, 0, []) == 1
      && PossibleRun(env, INITIAL, events)
      && Entry(Run(env, INITIAL, events).cache, id).utxo == {}
  {
    var items := [Line(7, 0, 10)];
    var server, scriptAt := Funding(env, policy, 1, items), ScriptsOf(env, policy);
    SecondFunded(env, policy, items);
    OneIndex(scriptAt, 0, 1);
    OneIsQuiet(server, At(env, policy, 0));
    SearchedExactly(server, scriptAt, 1, 0, [], 1);
    assert StopPoint(server, scriptAt, 1, 0, 1);
    assert FinalOffset(server, scriptAt, 1, 0, 0, []) == 1;
    if NoGap(server, scriptAt, 1, 0) {
      NoGapReaches(server, scriptAt, 1, 0, [], 1);
    }
    NothingDiscovered(env, policy, items);
    SyncsUntouched(env, policy, Fresh(env, policy), 1, items, ON_ZERO, EMPTY_LEDGER);
    RunOfTwo(env, INITIAL, CreateContract(policy, ""), Synchronize(env, policy, 1, items, ON_ZERO));
  }

  lemma NothingDiscovered(env: Env, policy: Policy, items: seq<Item>)
    requires Apart(env, policy)
    ensures Discovered(env, Fresh(env, policy), env.policyId(policy), 1, Funding(env, policy, 1, items), []) ==
            EMPTY_LEDGER
  {
    var server := Funding(env, policy, 1, items);
    SecondFunded(env, policy, items);
    assert TweakProbes([]) == [];
    OneIsQuiet(server, At(env, policy, 0));
    AbsorbTwo(server, [], [At(env, policy, 0)], env.readAddress);
  }

  lemma AbsorbTwo(server: Server, a: seq<Probe>, b: seq<Probe>, readAddress: Script -> Option<Address>)
    requires Quiet(server, a) && Quiet(server, b)
    ensures AbsorbAll(server, [a, b], readAddress) == EMPTY_LEDGER
  {
    AbsorbStep(server, [], a, readAddress);
    AbsorbStep(server, [a], b, readAddress);
    assert [] + [a] == [a] && [a] + [b] == [a, b];
    AbsorbQuiet(EMPTY_LEDGER, server, a, readAddress);
    AbsorbQuiet(EMPTY_LEDGER, server, b, readAddress);
  }

  // ----- the largest index -----

  predicate Addresses(env: Env, policy: Policy, i: Index, address: Address) {
    env.addressOf(policy, i, false) == Some(address)
  }

  function Marked(env: Env, policy: Policy, used: map<Address, Index>): State {
    Fresh(env, policy).(cache := EMPTY_CACHE.(descriptors :=
      map[env.policyId(policy) := EMPTY_ENTRY.(used := used)]))
  }

  lemma MarksNext(env: Env, policy: Policy, s: State, used: map<Address, Index>, index: Option<Index>,
                  i: Index, address: Address)
    requires s == Marked(env, policy, used) || (s == Fresh(env, policy) && used == map[])
    requires i == match index case None => NextUnused(used) case Some(given) => given
    requires Addresses(env, policy, i, address) && (address in used ==> used[address] == i)
    ensures Step(env, s, NextAddress(env.policyId(policy), index, false, true)) ==
            (Marked(env, policy, used[address := i]), DerivedAddress(address, i))
  {
    var id := env.policyId(policy);
    assert Entry(s.cache, id).used == used;
    var (cache, marked) := OnContract(s.cache, id, UseAddress(address, i));
    assert marked.Success?;
    assert cache.descriptors == map[id := EMPTY_ENTRY.(used := used[address := i])];
  }

  function MarkAt(env: Env, policy: Policy, index: Option<Index>): Event {
    NextAddress(env.policyId(policy), index, false, true)
  }

  /** The contract is created and the largest index marked: then the same address is handed
      out twice. */
  lemma AddressIsHandedOutTwice(env: Env, policy: Policy, top: Address, first: Address)
    requires Addresses(env, policy, LARGEST_INDEX, top) && Addresses(env, policy, 0, first) && top != first
    ensures var events := [CreateContract(policy, ""), MarkAt(env, policy, Some(LARGEST_INDEX))];
            var next := MarkAt(env, policy, None);
      && PossibleRun(env, INITIAL, events)
      && var (s, reply) := Step(env, Run(env, INITIAL, events), next);
         reply == DerivedAddress(first, 0) && Step(env, s, next) == (s, DerivedAddress(first, 0))
  {
    var used: map<Address, Index> := map[top := LARGEST_INDEX];
    MarksNext(env, policy, Fresh(env, policy), map[], Some(LARGEST_INDEX), LARGEST_INDEX, top);
    NextIsFresh(used);
    assert used.Values == {LARGEST_INDEX};
    MarksNext(env, policy, Marked(env, policy, used), used, None, 0, first);
    var more := used[first := 0];
    assert more[top] == LARGEST_INDEX && LARGEST_INDEX in more.Values;
    MarksNext(env, policy, Marked(env, policy, more), more, None, 0, first);
    assert more[first := 0] == more;
    RunOfTwo(env, INITIAL, CreateContract(policy, ""), MarkAt(env, policy, Some(LARGEST_INDEX)));
  }

  /** The contract is created and the index below the largest marked: the address that is
      handed out next is never searched. */
  lemma LastAddressIsNeverSearched(env: Env, policy: Policy, below: Address, top: Address, depth: nat, server: Server)
    requires Addresses(env, policy, LARGEST_INDEX - 1, below) && Addresses(env, policy, LARGEST_INDEX, top)
    requires below != top && depth >= 1
    ensures var events := [CreateContract(policy, ""), MarkAt(env, policy, Some(LARGEST_INDEX - 1))];
      && PossibleRun(env, INITIAL, events)
      && var (s, reply) := Step(env, Run(env, INITIAL, events), MarkAt(env, policy, None));
         reply == DerivedAddress(top, LARGEST_INDEX) && env.policyId(policy) in s.contracts &&
         Probe(LARGEST_INDEX, env.scriptOf(policy, LARGEST_INDEX), None) !in
           Flatten(Queries(env, s, env.policyId(policy), depth, server, []))
  {
    var id := env.policyId(policy);
    var used: map<Address, Index> := map[below := LARGEST_INDEX - 1];
    MarksNext(env, policy, Fresh(env, policy), map[], Some(LARGEST_INDEX - 1), LARGEST_INDEX - 1, below);
    RunOfTwo(env, INITIAL, CreateContract(policy, ""), MarkAt(env, policy, Some(LARGEST_INDEX - 1)));
    assert used.Values == {LARGEST_INDEX - 1};
    assert NextUnused(used) == LARGEST_INDEX;
    var s := Marked(env, policy, used);
    MarksNext(env, policy, s, used, None, LARGEST_INDEX, top);
    var later := Step(env, s, MarkAt(env, policy, None)).0;
    assert Run(env, later, []) == later;
    TakenIsSearchedExactly(env, s, MarkAt(env, policy, None), [], id, depth, server, []);
  }

  // ----- a reorganization misleads the position index -----

  function Both(env: Env, p: Policy, q: Policy): State {
    State(map[env.policyId(p) := NewContract(env.policyId(p), "", p),
              env.policyId(q) := NewContract(env.policyId(q), "", q)], EMPTY_CACHE, 0)
  }

  function Mined7(env: Env, p: Policy): Event {
    Synchronize(env, p, 0, [Line(7, 0, 10)], Holding(OutPoint(7, 0), TOKEN, 5))
  }

  function Mined8(env: Env, q: Policy): Event {
    Synchronize(env, q, 0, [Line(8, 0, 10)], Holding(OutPoint(8, 0), TOKEN, 5))
  }

  /** One contract is synchronized while transaction 7 heads block 1, another when it is
      transaction 8: the coin of the first is then looked up under the wrong one. */
  lemma ReorganizationMisleads(env: Env, p: Policy, q: Policy)
    requires Apart(env, p) && Apart(env, q) && env.policyId(p) != env.policyId(q)
    ensures var events := [CreateContract(p, ""), CreateContract(q, ""), Mined7(env, p), Mined8(env, q)];
      && PossibleRun(env, INITIAL, events)
      && var s := Run(env, INITIAL, events);
         var unspent := Entry(s.cache, env.policyId(p)).unspent;
         BITCOIN in unspent && Coin(env, p, 7, 0, 10) in unspent[BITCOIN] && BlockPosToTxid(s.cache, 1, 0) == Some(8)
  {
    var two := Both(env, p, q);
    SecondDisplacesFirst(env, p, q);
    RunOfTwo(env, two, Mined7(env, p), Mined8(env, q));
    RunOfTwo(env, INITIAL, CreateContract(p, ""), CreateContract(q, ""));
    RunJoins(env, INITIAL, [CreateContract(p, ""), CreateContract(q, "")], [Mined7(env, p), Mined8(env, q)]);
    assert [CreateContract(p, ""), CreateContract(q, "")] + [Mined7(env, p), Mined8(env, q)] ==
           [CreateContract(p, ""), CreateContract(q, ""), Mined7(env, p), Mined8(env, q)];
  }

  lemma SecondDisplacesFirst(env: Env, p: Policy, q: Policy)
    requires Apart(env, p) && Apart(env, q) && env.policyId(p) != env.policyId(q)
    ensures Possible(Both(env, p, q), Mined7(env, p))
    ensures Possible(Step(env, Both(env, p, q), Mined7(env, p)).0, Mined8(env, q))
    ensures var s := Step(env, Step(env, Both(env, p, q), Mined7(env, p)).0, Mined8(env, q)).0;
            var unspent := Entry(s.cache, env.policyId(p)).unspent;
      BITCOIN in unspent && Coin(env, p, 7, 0, 10) in unspent[BITCOIN] && BlockPosToTxid(s.cache, 1, 0) == Some(8)
  {
    var two := Both(env, p, q);
    OneCoinSyncs(env, p, two, 7, 10);
    OneCoinSyncs(env, q, Step(env, two, Mined7(env, p)).0, 8, 10);
  }

  lemma {:induction false} RunJoins(env: Env, s: State, first: seq<Event>, rest: seq<Event>)
    requires PossibleRun(env, s, first) && PossibleRun(env, Run(env, s, first), rest)
    ensures PossibleRun(env, s, first + rest)
    ensures Run(env, s, first + rest) == Run(env, Run(env, s, first), rest)
    decreases |first|
  {
    if first == [] {
      assert first + rest == rest;
    } else {
      assert (first + rest)[1..] == first[1..] + rest;
      RunJoins(env, Step(env, s, first[0]).0, first[1..], rest);
    }
  }

  // ----- storage -----

  function Invoiced(env: Env, policy: Policy, invoice: Invoice): State {
    var id := env.policyId(policy);
    Fresh(env, policy).(contracts := map[id := NewContract(id, "", policy).(sentInvoices := [invoice])])
  }

  lemma InvoiceIsAdded(env: Env, policy: Policy, invoice: Invoice, sources: map<ContractId, Option<OutpointReveal>>)
    requires var id := env.policyId(policy);
      id in sources && sources[id] == None && forall other | other in sources :: IdRank(other) >= IdRank(id)
    ensures SpreadInvoice(env, Fresh(env, policy), invoice, sources).0 == Invoiced(env, policy, invoice)
  {
    var id := env.policyId(policy);
    assert Reached(Fresh(env, policy).contracts, sources, id);
    assert [] + [invoice] == [invoice];
  }

  /** Creating the same contract again loses the invoice it had sent. */
  lemma CreatingAgainLosesInvoices(env: Env, policy: Policy, invoice: Invoice)
    ensures var id := env.policyId(policy);
            var events := [CreateContract(policy, ""), AddInvoiceTo(invoice, map[id := None])];
      && PossibleRun(env, INITIAL, events) && Run(env, INITIAL, events) == Invoiced(env, policy, invoice)
      && Invoiced(env, policy, invoice).contracts[id].sentInvoices == [invoice]
      && Step(env, Invoiced(env, policy, invoice), CreateContract(policy, "")).0.contracts[id].sentInvoices == []
  {
    var id := env.policyId(policy);
    InvoiceIsAdded(env, policy, invoice, map[id := None]);
    RunOfTwo(env, INITIAL, CreateContract(policy, ""), AddInvoiceTo(invoice, map[id := None]));
  }

  /** An invoice naming an unknown contract is refused, and has been recorded all the same. */
  lemma RefusedInvoiceIsRecorded(env: Env, policy: Policy, invoice: Invoice)
    ensures var id := env.policyId(policy);
            var unknown := ContractId(id.digest + 1);
            var (s, reply) := SpreadInvoice(env, Fresh(env, policy), invoice, map[id := None, unknown := None]);
      && Step(env, INITIAL, CreateContract(policy, "")).0 == Fresh(env, policy)
      && reply == Refused(ContractNotFound)
      && s == Invoiced(env, policy, invoice) && invoice in s.contracts[id].sentInvoices
  {
    var id := env.policyId(policy);
    var unknown := ContractId(id.digest + 1);
    var sources: map<ContractId, Option<OutpointReveal>> := map[id := None, unknown := None];
    InvoiceIsAdded(env, policy, invoice, sources);
    assert unknown in sources.Keys && unknown !in Fresh(env, policy).contracts.Keys;
  }
}
