/** The gap-limit search for unspent outputs: batches of derived scripts are
    queried until one comes back empty behind the last used index. */
module ChainScan {
  import opened WalletTypes
  import opened Collections

  /** One line of the server's list of unspent outputs for a script. */
  datatype Item = Item(height: nat, txid: Txid, pos: nat, value: u64)

  /** What the server answers: the unspent outputs of a script, the place of a
      transaction in its block when it can prove one, and whether it answers the
      request for the n-th batch at all. */
  datatype Server = Server(
    list: Script -> seq<Item>,
    merkle: (Txid, u32) -> Option<nat>,
    answers: nat -> bool)

  datatype Probe = Probe(index: Index, script: Script, tweak: Option<TweakedOutput>)

  datatype TxKey = TxKey(height: u32, txid: Txid)
  datatype Found = Found(vout: u16, value: u64, index: Index, script: Script, tweak: Option<TweakedOutput>)
  datatype Hit = Hit(key: TxKey, found: Found)

  /** What the search has collected so far. */
  datatype Ledger = Ledger(unspent: seq<Utxo>, outpoints: set<OutPoint>, mineInfo: map<BlockPos, Txid>)

  const EMPTY_LEDGER := Ledger([], {}, map[])

  function KeyRank(k: TxKey): int {
    k.height * HASH_LIMIT + k.txid
  }

  lemma KeyRanksApart(s: set<TxKey>)
    ensures RanksApart(s, KeyRank)
  {
  }

  // ----- one batch: collecting hits -----

  /** Heights and output numbers are cut to the width of their fields. */
  function HitOf(p: Probe, item: Item): Hit {
    Hit(TxKey(item.height % U32_LIMIT, item.txid),
        Found(item.pos % U16_LIMIT, item.value, p.index, p.script, p.tweak))
  }

  function HitsOf(p: Probe, items: seq<Item>): seq<Hit> {
    if items == [] then []
    else HitsOf(p, items[..|items| - 1]) + [HitOf(p, items[|items| - 1])]
  }

  function Hits(server: Server, probes: seq<Probe>): seq<Hit> {
    if probes == [] then [] else
      var p := probes[|probes| - 1];
      Hits(server, probes[..|probes| - 1]) + HitsOf(p, server.list(p.script))
  }

  function Push(m: map<TxKey, seq<Found>>, h: Hit): map<TxKey, seq<Found>> {
    m[h.key := (if h.key in m then m[h.key] else []) + [h.found]]
  }

  function Group(hits: seq<Hit>): map<TxKey, seq<Found>> {
    if hits == [] then map[] else Push(Group(hits[..|hits| - 1]), hits[|hits| - 1])
  }

  // ----- one batch: resolving transactions -----

  function UtxoOf(key: TxKey, pos: nat, f: Found, readAddress: Script -> Option<Address>): Utxo {
    Utxo(f.value, key.height, pos % U16_LIMIT, key.txid, f.vout, f.index,
         (match f.tweak case None => None case Some(t) => Some((t.tweak, t.pubkey))),
         readAddress(f.script))
  }

  function AddOutput(l: Ledger, key: TxKey, pos: nat, f: Found,
                     readAddress: Script -> Option<Address>): Ledger {
    var o := OutPoint(key.txid, f.vout);
    if o in l.outpoints then l
    else l.(unspent := l.unspent + [UtxoOf(key, pos, f, readAddress)], outpoints := l.outpoints + {o})
  }

  function AddOutputs(l: Ledger, key: TxKey, pos: nat, outs: seq<Found>,
                      readAddress: Script -> Option<Address>): Ledger {
    if outs == [] then l else
      AddOutput(AddOutputs(l, key, pos, outs[..|outs| - 1], readAddress),
                key, pos, outs[|outs| - 1], readAddress)
  }

  /** A transaction whose place in the chain cannot be proved is passed over. */
  function AddTransaction(l: Ledger, server: Server, key: TxKey, outs: seq<Found>,
                          readAddress: Script -> Option<Address>): Ledger {
    match server.merkle(key.txid, key.height)
    case None => l
    case Some(pos) =>
      AddOutputs(l.(mineInfo := l.mineInfo[BlockPos(key.height, pos % U16_LIMIT) := key.txid]),
                 key, pos, outs, readAddress)
  }

  function AddTransactions(l: Ledger, server: Server, groups: map<TxKey, seq<Found>>, keys: seq<TxKey>,
                           readAddress: Script -> Option<Address>): Ledger
    requires forall k | k in keys :: k in groups
  {
    if keys == [] then l else
      var k := keys[|keys| - 1];
      AddTransaction(AddTransactions(l, server, groups, keys[..|keys| - 1], readAddress),
                     server, k, groups[k], readAddress)
  }

  function SortedKeys(groups: map<TxKey, seq<Found>>): seq<TxKey> {
    KeyRanksApart(groups.Keys);
    Ascending(groups.Keys, KeyRank)
  }

  lemma SortedKeysAreKeys(groups: map<TxKey, seq<Found>>)
    ensures forall k :: k in SortedKeys(groups) <==> k in groups
  {
    KeyRanksApart(groups.Keys);
    assert forall k :: k in SortedKeys(groups) <==> k in Elements(SortedKeys(groups));
  }

  function Absorb(l: Ledger, server: Server, probes: seq<Probe>,
                  readAddress: Script -> Option<Address>): Ledger {
    var groups := Group(Hits(server, probes));
    SortedKeysAreKeys(groups);
    AddTransactions(l, server, groups, SortedKeys(groups), readAddress)
  }

  function AbsorbAll(server: Server, batches: seq<seq<Probe>>,
                     readAddress: Script -> Option<Address>): Ledger {
    if batches == [] then EMPTY_LEDGER
    else Absorb(AbsorbAll(server, batches[..|batches| - 1], readAddress),
                server, batches[|batches| - 1], readAddress)
  }

  // ----- what a batch contributes -----

  /** A hit whose transaction has a proved place. */
  predicate Mined(server: Server, h: Hit) {
    server.merkle(h.key.txid, h.key.height).Some?
  }

  function OutpointOf(h: Hit): OutPoint {
    OutPoint(h.key.txid, h.found.vout)
  }

  lemma {:induction false} GroupKeepsHits(hits: seq<Hit>)
    ensures forall k, f :: k in Group(hits) && f in Group(hits)[k] <==> Hit(k, f) in hits
    ensures forall k | k in Group(hits) :: Group(hits)[k] != []
  {
    if hits != [] {
      var init, h := hits[..|hits| - 1], hits[|hits| - 1];
      GroupKeepsHits(init);
      assert hits == init + [h];
      var g, g' := Group(init), Group(hits);
      forall k, f
        ensures k in g' && f in g'[k] <==> Hit(k, f) in hits
      {
        assert Hit(k, f) in hits <==> Hit(k, f) in init || Hit(k, f) == h;
      }
    }
  }

  function OutpointList(utxos: seq<Utxo>): seq<OutPoint> {
    seq(|utxos|, i requires 0 <= i < |utxos| => utxos[i].Outpoint())
  }

  /** The ledger lists each of its outpoints once. */
  ghost predicate Coherent(l: Ledger) {
    NoDuplicates(OutpointList(l.unspent)) && Elements(OutpointList(l.unspent)) == l.outpoints
  }

  /** The outpoints the server lists for some scripts and can place in the chain. */
  function Discoverable(server: Server, probes: seq<Probe>): set<OutPoint> {
    set h | h in Hits(server, probes) && Mined(server, h) :: OutpointOf(h)
  }

  /** The output is what the search makes of this hit. */
  ghost predicate TracedTo(u: Utxo, server: Server, h: Hit, readAddress: Script -> Option<Address>) {
    Mined(server, h) &&
    u == UtxoOf(h.key, server.merkle(h.key.txid, h.key.height).value, h.found, readAddress)
  }

  lemma AddOutputEffect(l: Ledger, key: TxKey, pos: nat, f: Found, readAddress: Script -> Option<Address>)
    requires Coherent(l)
    ensures var l' := AddOutput(l, key, pos, f, readAddress);
      Coherent(l') && l'.outpoints == l.outpoints + {OutPoint(key.txid, f.vout)}
  {
    var o := OutPoint(key.txid, f.vout);
    if o !in l.outpoints {
      var before := OutpointList(l.unspent);
      var after := OutpointList(l.unspent + [UtxoOf(key, pos, f, readAddress)]);
      assert after == before + [o];
      assert o !in Elements(before);
      assert Elements(before + [o]) == Elements(before) + {o};
    }
  }

  function OutpointsOfTx(key: TxKey, outs: seq<Found>): set<OutPoint> {
    set f | f in outs :: OutPoint(key.txid, f.vout)
  }

  lemma {:induction false} AddOutputsEffect(l: Ledger, key: TxKey, pos: nat, outs: seq<Found>,
                                            readAddress: Script -> Option<Address>)
    requires Coherent(l)
    ensures var l' := AddOutputs(l, key, pos, outs, readAddress);
      Coherent(l') && l'.outpoints == l.outpoints + OutpointsOfTx(key, outs)
  {
    if outs != [] {
      var init, f := outs[..|outs| - 1], outs[|outs| - 1];
      AddOutputsEffect(l, key, pos, init, readAddress);
      AddOutputEffect(AddOutputs(l, key, pos, init, readAddress), key, pos, f, readAddress);
      assert OutpointsOfTx(key, outs) == OutpointsOfTx(key, init) + {OutPoint(key.txid, f.vout)} by {
        assert outs == init + [f];
      }
    }
  }

  lemma {:induction false} AddOutputsTrace(l: Ledger, key: TxKey, pos: nat, outs: seq<Found>,
                                           readAddress: Script -> Option<Address>, u: Utxo)
    requires u in AddOutputs(l, key, pos, outs, readAddress).unspent
    ensures u in l.unspent || exists f :: f in outs && u == UtxoOf(key, pos, f, readAddress)
  {
    if outs != [] {
      var init, f := outs[..|outs| - 1], outs[|outs| - 1];
      if u in AddOutputs(l, key, pos, init, readAddress).unspent {
        AddOutputsTrace(l, key, pos, init, readAddress, u);
      } else {
        assert f in outs && u == UtxoOf(key, pos, f, readAddress);
      }
    }
  }

  /** What a list of keys contributes. */
  function Placed(server: Server, groups: map<TxKey, seq<Found>>, keys: seq<TxKey>): set<OutPoint>
    requires forall k | k in keys :: k in groups
  {
    set k, f | k in keys && f in groups[k] && Mined(server, Hit(k, f)) :: OutpointOf(Hit(k, f))
  }

  function PlacedOne(server: Server, k: TxKey, outs: seq<Found>): set<OutPoint> {
    if server.merkle(k.txid, k.height).Some? then OutpointsOfTx(k, outs) else {}
  }

  lemma PlacedStep(server: Server, groups: map<TxKey, seq<Found>>, keys: seq<TxKey>, k: TxKey)
    requires k in groups && forall x | x in keys :: x in groups
    ensures Placed(server, groups, keys + [k]) == Placed(server, groups, keys) + PlacedOne(server, k, groups[k])
  {
    forall o | o in PlacedOne(server, k, groups[k])
      ensures o in Placed(server, groups, keys + [k])
    {
      var f :| f in groups[k] && o == OutPoint(k.txid, f.vout);
      assert k in keys + [k] && Mined(server, Hit(k, f)) && o == OutpointOf(Hit(k, f));
    }
    forall o | o in Placed(server, groups, keys)
      ensures o in Placed(server, groups, keys + [k])
    {
      var x, f :| x in keys && f in groups[x] && Mined(server, Hit(x, f)) && o == OutpointOf(Hit(x, f));
      assert x in keys + [k];
    }
  }

  lemma AddTransactionEffect(l: Ledger, server: Server, k: TxKey, outs: seq<Found>,
                             readAddress: Script -> Option<Address>)
    requires Coherent(l)
    ensures var l' := AddTransaction(l, server, k, outs, readAddress);
      Coherent(l') && l'.outpoints == l.outpoints + PlacedOne(server, k, outs)
  {
    match server.merkle(k.txid, k.height)
    case None =>
    case Some(pos) =>
      var indexed := l.(mineInfo := l.mineInfo[BlockPos(k.height, pos % U16_LIMIT) := k.txid]);
      assert Coherent(indexed);
      AddOutputsEffect(indexed, k, pos, outs, readAddress);
  }

  lemma {:induction false} AddTransactionsEffect(l: Ledger, server: Server, groups: map<TxKey, seq<Found>>,
                                                 keys: seq<TxKey>, readAddress: Script -> Option<Address>)
    requires Coherent(l) && forall k | k in keys :: k in groups
    ensures var l' := AddTransactions(l, server, groups, keys, readAddress);
      Coherent(l') && l'.outpoints == l.outpoints + Placed(server, groups, keys)
  {
    if keys != [] {
      var init, k := keys[..|keys| - 1], keys[|keys| - 1];
      AddTransactionsEffect(l, server, groups, init, readAddress);
      AddTransactionEffect(AddTransactions(l, server, groups, init, readAddress), server, k, groups[k], readAddress);
      assert keys == init + [k];
      PlacedStep(server, groups, init, k);
    }
  }

  lemma {:induction false} AddTransactionsTrace(l: Ledger, server: Server, groups: map<TxKey, seq<Found>>,
                                                keys: seq<TxKey>, readAddress: Script -> Option<Address>, u: Utxo)
    requires forall k | k in keys :: k in groups
    requires u in AddTransactions(l, server, groups, keys, readAddress).unspent
    ensures u in l.unspent ||
      exists k, f :: k in keys && f in groups[k] && TracedTo(u, server, Hit(k, f), readAddress)
  {
    if keys != [] {
      var init, k := keys[..|keys| - 1], keys[|keys| - 1];
      var before := AddTransactions(l, server, groups, init, readAddress);
      if u in before.unspent {
        AddTransactionsTrace(l, server, groups, init, readAddress, u);
      } else {
        var pos := server.merkle(k.txid, k.height).value;
        var indexed := before.(mineInfo := before.mineInfo[BlockPos(k.height, pos % U16_LIMIT) := k.txid]);
        AddOutputsTrace(indexed, k, pos, groups[k], readAddress, u);
        var f :| f in groups[k] && u == UtxoOf(k, pos, f, readAddress);
        assert k in keys && TracedTo(u, server, Hit(k, f), readAddress);
      }
    }
  }

  /** One batch adds exactly the outpoints it can discover, each once. */
  lemma AbsorbEffect(l: Ledger, server: Server, probes: seq<Probe>, readAddress: Script -> Option<Address>)
    requires Coherent(l)
    ensures var l' := Absorb(l, server, probes, readAddress);
      Coherent(l') && l'.outpoints == l.outpoints + Discoverable(server, probes)
  {
    var groups := Group(Hits(server, probes));
    GroupKeepsHits(Hits(server, probes));
    SortedKeysAreKeys(groups);
    AddTransactionsEffect(l, server, groups, SortedKeys(groups), readAddress);
    var placed := Placed(server, groups, SortedKeys(groups));
    assert placed == Discoverable(server, probes) by {
      forall h | h in Hits(server, probes) && Mined(server, h)
        ensures OutpointOf(h) in placed
      {
        assert h == Hit(h.key, h.found);
        assert h.key in groups && h.found in groups[h.key];
      }
    }
  }

  lemma AbsorbTrace(l: Ledger, server: Server, probes: seq<Probe>, readAddress: Script -> Option<Address>, u: Utxo)
    requires u in Absorb(l, server, probes, readAddress).unspent
    ensures u in l.unspent || exists h :: h in Hits(server, probes) && TracedTo(u, server, h, readAddress)
  {
    if u !in l.unspent {
      var groups := Group(Hits(server, probes));
      GroupKeepsHits(Hits(server, probes));
      SortedKeysAreKeys(groups);
      AddTransactionsTrace(l, server, groups, SortedKeys(groups), readAddress, u);
      var k, f :| k in SortedKeys(groups) && f in groups[k] && TracedTo(u, server, Hit(k, f), readAddress);
      assert Hit(k, f) in Hits(server, probes);
    }
  }

  // ----- all batches -----

  function Flatten(batches: seq<seq<Probe>>): seq<Probe> {
    if batches == [] then [] else Flatten(batches[..|batches| - 1]) + batches[|batches| - 1]
  }

  lemma {:induction false} HitsAppend(server: Server, a: seq<Probe>, b: seq<Probe>)
    ensures Hits(server, a + b) == Hits(server, a) + Hits(server, b)
  {
    if b == [] {
      assert a + b == a;
    } else {
      var init := b[..|b| - 1];
      HitsAppend(server, a, init);
      assert (a + b)[..|a + b| - 1] == a + init;
    }
  }

  /** The whole search finds exactly what the server lists and can place for the
      scripts it queried, and lists each outpoint once. */
  lemma {:induction false} AbsorbAllEffect(server: Server, batches: seq<seq<Probe>>,
                                           readAddress: Script -> Option<Address>)
    ensures var l := AbsorbAll(server, batches, readAddress);
      Coherent(l) && l.outpoints == Discoverable(server, Flatten(batches))
  {
    if batches != [] {
      var init, last := batches[..|batches| - 1], batches[|batches| - 1];
      AbsorbAllEffect(server, init, readAddress);
      AbsorbEffect(AbsorbAll(server, init, readAddress), server, last, readAddress);
      HitsAppend(server, Flatten(init), last);
    }
  }

  /** Every output it lists comes from one line of the server's answers. */
  lemma {:induction false} AbsorbAllTrace(server: Server, batches: seq<seq<Probe>>,
                                          readAddress: Script -> Option<Address>, u: Utxo)
    requires u in AbsorbAll(server, batches, readAddress).unspent
    ensures exists h :: h in Hits(server, Flatten(batches)) && TracedTo(u, server, h, readAddress)
  {
    var init, last := batches[..|batches| - 1], batches[|batches| - 1];
    HitsAppend(server, Flatten(init), last);
    AbsorbTrace(AbsorbAll(server, init, readAddress), server, last, readAddress, u);
    if u in AbsorbAll(server, init, readAddress).unspent {
      AbsorbAllTrace(server, init, readAddress, u);
    }
  }

  /** A hit is a line of the server's answer for a queried script. */
  lemma {:induction false} HitsAreListed(server: Server, probes: seq<Probe>)
    ensures forall h :: h in Hits(server, probes) <==>
      exists p, item :: p in probes && item in server.list(p.script) && h == HitOf(p, item)
  {
    if probes != [] {
      var init, p := probes[..|probes| - 1], probes[|probes| - 1];
      HitsAreListed(server, init);
      HitsOfAreItems(p, server.list(p.script));
      assert probes == init + [p];
      forall h | h in Hits(server, probes)
        ensures exists q, item :: q in probes && item in server.list(q.script) && h == HitOf(q, item)
      {
        if h in Hits(server, init) {
          var q, item :| q in init && item in server.list(q.script) && h == HitOf(q, item);
          assert q in probes;
        } else {
          var item :| item in server.list(p.script) && h == HitOf(p, item);
          assert p in probes;
        }
      }
    }
  }

  lemma {:induction false} HitsOfAreItems(p: Probe, items: seq<Item>)
    ensures |HitsOf(p, items)| == |items|
    ensures forall h :: h in HitsOf(p, items) <==> exists item :: item in items && h == HitOf(p, item)
  {
    if items != [] {
      var init, last := items[..|items| - 1], items[|items| - 1];
      HitsOfAreItems(p, init);
      assert items == init + [last];
    }
  }

  /** The output repeats one line of the server's answer for a queried script, with
      numbers cut to the width of their fields and the place the server proved. */
  ghost predicate AsListed(u: Utxo, server: Server, p: Probe, item: Item,
                           readAddress: Script -> Option<Address>) {
    && item in server.list(p.script)
    && u.value == item.value && u.txid == item.txid && u.index == p.index
    && u.vout == item.pos % U16_LIMIT && u.height == item.height % U32_LIMIT
    && server.merkle(u.txid, u.height).Some?
    && u.offset == server.merkle(u.txid, u.height).value % U16_LIMIT
    && u.address == readAddress(p.script)
    && u.tweak == match p.tweak case None => None case Some(t) => Some((t.tweak, t.pubkey))
  }

  /** Nothing is invented: every output found repeats a line of the server's answers. */
  lemma FoundAsListed(server: Server, batches: seq<seq<Probe>>, readAddress: Script -> Option<Address>, u: Utxo)
    requires u in AbsorbAll(server, batches, readAddress).unspent
    ensures exists p, item :: p in Flatten(batches) && AsListed(u, server, p, item, readAddress)
  {
    AbsorbAllTrace(server, batches, readAddress, u);
    var h :| h in Hits(server, Flatten(batches)) && TracedTo(u, server, h, readAddress);
    HitsAreListed(server, Flatten(batches));
    var p, item :| p in Flatten(batches) && item in server.list(p.script) && h == HitOf(p, item);
    assert AsListed(u, server, p, item, readAddress);
  }

  ghost predicate Lists(l: Ledger, o: OutPoint) {
    exists u :: u in l.unspent && u.Outpoint() == o
  }

  /** Nothing is missed: a coherent ledger of what is discoverable lists every line the
      server can place, at its real outpoint when its output number fits the field. */
  lemma ListedIsFound(l: Ledger, server: Server, probes: seq<Probe>, p: Probe, item: Item)
    requires Coherent(l) && l.outpoints == Discoverable(server, probes)
    requires p in probes && item in server.list(p.script)
    requires server.merkle(item.txid, item.height % U32_LIMIT).Some?
    ensures Lists(l, OutPoint(item.txid, item.pos % U16_LIMIT))
    ensures item.pos < U16_LIMIT ==> Lists(l, OutPoint(item.txid, item.pos))
  {
    ListedIsDiscoverable(server, probes, p, item);
    OutpointHasOutput(l, OutPoint(item.txid, item.pos % U16_LIMIT));
  }

  lemma ListedIsDiscoverable(server: Server, probes: seq<Probe>, p: Probe, item: Item)
    requires p in probes && item in server.list(p.script)
    requires server.merkle(item.txid, item.height % U32_LIMIT).Some?
    ensures OutPoint(item.txid, item.pos % U16_LIMIT) in Discoverable(server, probes)
  {
    HitsAreListed(server, probes);
    var h := HitOf(p, item);
    assert h in Hits(server, probes) && Mined(server, h);
    assert OutpointOf(h) == OutPoint(item.txid, item.pos % U16_LIMIT);
  }

  lemma OutpointHasOutput(l: Ledger, o: OutPoint)
    requires Coherent(l) && o in l.outpoints
    ensures Lists(l, o)
  {
    var i :| 0 <= i < |OutpointList(l.unspent)| && OutpointList(l.unspent)[i] == o;
    assert l.unspent[i] in l.unspent && l.unspent[i].Outpoint() == o;
  }

  // ----- the position index -----

  /** A chain without reorganizations: which transaction sits at which place. */
  type Chain = BlockPos -> Option<Txid>

  ghost predicate Agrees(server: Server, chain: Chain) {
    forall txid: Txid, height: u32 | server.merkle(txid, height).Some? ::
      chain(BlockPos(height, server.merkle(txid, height).value % U16_LIMIT)) == Some(txid)
  }

  ghost predicate OnChain(mineInfo: map<BlockPos, Txid>, chain: Chain) {
    forall p | p in mineInfo :: chain(p) == Some(mineInfo[p])
  }

  ghost predicate Located(u: Utxo, mineInfo: map<BlockPos, Txid>) {
    u.Position() in mineInfo && mineInfo[u.Position()] == u.txid
  }

  ghost predicate Indexed(l: Ledger, chain: Chain) {
    OnChain(l.mineInfo, chain) && forall u | u in l.unspent :: Located(u, l.mineInfo)
  }

  lemma {:induction false} AddOutputsIndexed(l: Ledger, key: TxKey, pos: nat, outs: seq<Found>,
                                             readAddress: Script -> Option<Address>, chain: Chain)
    requires Indexed(l, chain)
    requires BlockPos(key.height, pos % U16_LIMIT) in l.mineInfo
    requires l.mineInfo[BlockPos(key.height, pos % U16_LIMIT)] == key.txid
    ensures Indexed(AddOutputs(l, key, pos, outs, readAddress), chain)
    ensures AddOutputs(l, key, pos, outs, readAddress).mineInfo == l.mineInfo
  {
    if outs != [] {
      AddOutputsIndexed(l, key, pos, outs[..|outs| - 1], readAddress, chain);
    }
  }

  lemma {:induction false} AddTransactionsIndexed(l: Ledger, server: Server, groups: map<TxKey, seq<Found>>,
                                                  keys: seq<TxKey>, readAddress: Script -> Option<Address>,
                                                  chain: Chain)
    requires Indexed(l, chain) && Agrees(server, chain)
    requires forall k | k in keys :: k in groups
    ensures Indexed(AddTransactions(l, server, groups, keys, readAddress), chain)
  {
    if keys != [] {
      var init, k := keys[..|keys| - 1], keys[|keys| - 1];
      AddTransactionsIndexed(l, server, groups, init, readAddress, chain);
      var before := AddTransactions(l, server, groups, init, readAddress);
      match server.merkle(k.txid, k.height) {
        case None =>
        case Some(pos) =>
          var place := BlockPos(k.height, pos % U16_LIMIT);
          var after := before.(mineInfo := before.mineInfo[place := k.txid]);
          assert Indexed(after, chain);
          AddOutputsIndexed(after, k, pos, groups[k], readAddress, chain);
      }
    }
  }

  /** Against a server that agrees with one chain, the position of every output
      found is indexed under its own transaction. */
  lemma {:induction false} AbsorbAllIndexed(server: Server, batches: seq<seq<Probe>>,
                                            readAddress: Script -> Option<Address>, chain: Chain)
    requires Agrees(server, chain)
    ensures Indexed(AbsorbAll(server, batches, readAddress), chain)
  {
    if batches != [] {
      var init, last := batches[..|batches| - 1], batches[|batches| - 1];
      AbsorbAllIndexed(server, init, readAddress, chain);
      var groups := Group(Hits(server, last));
      SortedKeysAreKeys(groups);
      AddTransactionsIndexed(AbsorbAll(server, init, readAddress), server, groups, SortedKeys(groups),
                             readAddress, chain);
    }
  }

  // ----- positions, whatever the server proves -----

  ghost predicate AllPlaced(l: Ledger) {
    forall u | u in l.unspent :: u.Position() in l.mineInfo
  }

  lemma {:induction false} AddOutputsPlaced(l: Ledger, key: TxKey, pos: nat, outs: seq<Found>,
                                            readAddress: Script -> Option<Address>)
    requires AllPlaced(l) && BlockPos(key.height, pos % U16_LIMIT) in l.mineInfo
    ensures AllPlaced(AddOutputs(l, key, pos, outs, readAddress))
    ensures AddOutputs(l, key, pos, outs, readAddress).mineInfo == l.mineInfo
  {
    if outs != [] {
      AddOutputsPlaced(l, key, pos, outs[..|outs| - 1], readAddress);
    }
  }

  lemma {:induction false} AddTransactionsPlaced(l: Ledger, server: Server, groups: map<TxKey, seq<Found>>,
                                                 keys: seq<TxKey>, readAddress: Script -> Option<Address>)
    requires AllPlaced(l) && forall k | k in keys :: k in groups
    ensures AllPlaced(AddTransactions(l, server, groups, keys, readAddress))
  {
    if keys != [] {
      var init, k := keys[..|keys| - 1], keys[|keys| - 1];
      AddTransactionsPlaced(l, server, groups, init, readAddress);
      var before := AddTransactions(l, server, groups, init, readAddress);
      match server.merkle(k.txid, k.height) {
        case None =>
        case Some(pos) =>
          var after := before.(mineInfo := before.mineInfo[BlockPos(k.height, pos % U16_LIMIT) := k.txid]);
          AddOutputsPlaced(after, k, pos, groups[k], readAddress);
      }
    }
  }

  lemma {:induction false} AbsorbAllPositions(server: Server, batches: seq<seq<Probe>>,
                                              readAddress: Script -> Option<Address>)
    ensures AllPlaced(AbsorbAll(server, batches, readAddress))
  {
    if batches != [] {
      var init, last := batches[..|batches| - 1], batches[|batches| - 1];
      AbsorbAllPositions(server, init, readAddress);
      var groups := Group(Hits(server, last));
      SortedKeysAreKeys(groups);
      AddTransactionsPlaced(AbsorbAll(server, init, readAddress), server, groups, SortedKeys(groups), readAddress);
    }
  }
}
