/** When the position index leads back to the transactions of the cached coins, whatever
    the servers prove. */
module WalletPositions {
  import opened WalletTypes
  import opened CacheModel
  import opened CacheDriver
  import opened ChainScan
  import opened AssetMerge
  import opened WalletModel
  import opened WalletInvariants

  /** Every cached coin is found under the transaction at its position. */
  ghost predicate LeadsBack(cache: Cache) {
    forall id, a, u | a in Entry(cache, id).unspent && u in Entry(cache, id).unspent[a] :: Located(u, cache.mineInfo)
  }

  /** What was found puts another transaction at the position of this coin. */
  predicate Displaces(found: map<BlockPos, Txid>, u: Utxo) {
    u.Position() in found && found[u.Position()] != u.txid
  }

  ghost predicate DisplacesNone(found: map<BlockPos, Txid>, unspent: Unspent) {
    forall a, u | a in unspent && u in unspent[a] :: !Displaces(found, u)
  }

  // ----- one synchronization -----

  lemma LeadsBackExactly(before: Cache, after: Cache, id: ContractId, found: map<BlockPos, Txid>)
    requires LeadsBack(before) && after.mineInfo == before.mineInfo + found
    requires forall c | c != id :: Entry(after, c) == Entry(before, c)
    requires forall a, u | a in Entry(after, id).unspent && u in Entry(after, id).unspent[a] :: u.Position() in found
    ensures LeadsBack(after) <==>
      && (forall c | c != id :: DisplacesNone(found, Entry(before, c).unspent))
      && DisplacesNone(found, Entry(after, id).unspent)
  {
    forall c, a, u | a in Entry(after, c).unspent && u in Entry(after, c).unspent[a]
      ensures Located(u, after.mineInfo) <==> !Displaces(found, u)
    {
      if c != id {
        assert a in Entry(before, c).unspent && u in Entry(before, c).unspent[a];
        assert Located(u, before.mineInfo);
      }
    }
    if LeadsBack(after) {
      forall c | c != id
        ensures DisplacesNone(found, Entry(before, c).unspent)
      {
        assert Entry(after, c) == Entry(before, c);
      }
    } else {
      var c, a, u :| a in Entry(after, c).unspent && u in Entry(after, c).unspent[a] && !Located(u, after.mineInfo);
      assert !DisplacesNone(found, Entry(after, c).unspent);
    }
  }

  /** The k-th output found is worth something, in bitcoins or in what is paid beside it. */
  ghost predicate Worth(l: Ledger, node: RgbNode, k: nat) {
    k < |l.unspent| == |SortedOutpoints(l.outpoints)| &&
    (l.unspent[k].value > 0 || exists a :: NodeAmount(node, a)(SortedOutpoints(l.outpoints)[k]) > 0)
  }

  lemma CachedIsWorth(l: Ledger, node: RgbNode, a: AssetId, u: Utxo) returns (k: nat)
    requires Coherent(l) && MergedAssets(l, node).Success?
    requires a in MergedAssets(l, node).value && u in Positive(MergedAssets(l, node).value[a])
    ensures Worth(l, node, k)
    ensures u.Position() == l.unspent[k].Position() && u.txid == l.unspent[k].txid
  {
    CoherentPairs(l);
    var sorted := SortedOutpoints(l.outpoints);
    k := ListedIsPaid(l.unspent, sorted, node, |l.unspent|, a, u);
    if a == BITCOIN && u in l.unspent {
      k :| k < |l.unspent| && l.unspent[k] == u;
    }
  }

  lemma WorthIsCached(l: Ledger, node: RgbNode, k: nat) returns (a: AssetId, u: Utxo)
    requires Coherent(l) && MergedAssets(l, node).Success? && Worth(l, node, k)
    ensures a in MergedAssets(l, node).value && u in Positive(MergedAssets(l, node).value[a])
    ensures u.Position() == l.unspent[k].Position() && u.txid == l.unspent[k].txid
  {
    var sorted := SortedOutpoints(l.outpoints);
    if l.unspent[k].value > 0 {
      MergeFilesBitcoin(l.unspent, sorted, node, |l.unspent|);
      a, u := BITCOIN, l.unspent[k];
    } else {
      a :| NodeAmount(node, a)(sorted[k]) > 0;
      PaidIsListed(l.unspent, sorted, node, |l.unspent|, a, k);
      u :| u in Listed(MergedAssets(l, node).value, a) && PaidAt(u, l.unspent, sorted, node, a, k);
    }
  }

  ghost predicate DisplacesNoneWorth(l: Ledger, node: RgbNode) {
    forall k: nat | Worth(l, node, k) :: !Displaces(l.mineInfo, l.unspent[k])
  }

  lemma OwnHalf(l: Ledger, node: RgbNode)
    requires Coherent(l) && MergedAssets(l, node).Success?
    ensures DisplacesNone(l.mineInfo, Filed(MergedAssets(l, node).value)) <==> DisplacesNoneWorth(l, node)
  {
    var unspent := Filed(MergedAssets(l, node).value);
    if DisplacesNone(l.mineInfo, unspent) {
      forall k: nat | Worth(l, node, k)
        ensures !Displaces(l.mineInfo, l.unspent[k])
      {
        var a, u := WorthIsCached(l, node, k);
        assert a in unspent && u in unspent[a];
        assert !Displaces(l.mineInfo, u);
      }
    }
    if DisplacesNoneWorth(l, node) {
      forall a, u | a in unspent && u in unspent[a]
        ensures !Displaces(l.mineInfo, u)
      {
        var k := CachedIsWorth(l, node, a, u);
      }
    }
  }

  /** Whatever the server proves, after a synchronization positions still lead back exactly
      when what it found displaces no coin cached for another contract and none of the
      outputs found that are worth something. */
  lemma PositionsSurviveExactly(env: Env, s: State, id: ContractId, depth: nat, w: SyncWorld)
    requires depth >= 1 && LeadsBack(s.cache) && Sync(env, s, id, depth, w).1.SyncedAssets?
    ensures var l := Discovered(env, s, id, depth, w.server.value, w.tweakOrder);
      LeadsBack(Sync(env, s, id, depth, w).0.cache) <==>
        && (forall c | c != id :: DisplacesNone(l.mineInfo, Entry(s.cache, c).unspent))
        && DisplacesNoneWorth(l, w.node)
  {
    SyncEffect(env, s, id, depth, w);
    var (s', reply) := Sync(env, s, id, depth, w);
    var l := Discovered(env, s, id, depth, w.server.value, w.tweakOrder);
    AbsorbAllPositions(w.server.value, Queries(env, s, id, depth, w.server.value, w.tweakOrder), env.readAddress);
    forall a, u | a in reply.assets && u in Positive(reply.assets[a])
      ensures u.Position() in l.mineInfo
    {
      var k := CachedIsWorth(l, w.node, a, u);
      assert l.unspent[k] in l.unspent;
    }
    LeadsBackExactly(s.cache, s'.cache, id, l.mineInfo);
    OwnHalf(l, w.node);
  }

  // ----- which answers displace -----

  function PlaceOf(server: Server, h: Hit): BlockPos
    requires Mined(server, h)
  {
    BlockPos(h.key.height, server.merkle(h.key.txid, h.key.height).value % U16_LIMIT)
  }

  /** Two lines of different transactions that the server places at one height and, cut to
      16 bits, at one position. */
  ghost predicate Collide(server: Server, h: Hit, g: Hit) {
    Mined(server, h) && Mined(server, g) && h.key.txid != g.key.txid && PlaceOf(server, h) == PlaceOf(server, g)
  }

  ghost predicate Collides(server: Server, probes: seq<Probe>) {
    exists h, g :: h in Hits(server, probes) && g in Hits(server, probes) && Collide(server, h, g)
  }

  /** No transaction is listed at two heights. */
  ghost predicate OneHeight(server: Server, probes: seq<Probe>) {
    forall h, g | h in Hits(server, probes) && g in Hits(server, probes) && h.key.txid == g.key.txid ::
      h.key.height == g.key.height
  }

  ghost predicate DisplacesOwn(l: Ledger) {
    exists u :: u in l.unspent && Displaces(l.mineInfo, u)
  }

  /** Every position recorded is that of a line the server placed there. */
  ghost predicate PositionsTraced(mineInfo: map<BlockPos, Txid>, server: Server, hits: seq<Hit>) {
    forall p | p in mineInfo ::
      exists h :: h in hits && Mined(server, h) && PlaceOf(server, h) == p && h.key.txid == mineInfo[p]
  }

  ghost predicate HeardOf(hits: seq<Hit>, k: TxKey) {
    exists f :: Hit(k, f) in hits
  }

  lemma {:induction false} TransactionsTraced(l: Ledger, server: Server, groups: map<TxKey, seq<Found>>,
                                              keys: seq<TxKey>, readAddress: Script -> Option<Address>,
                                              hits: seq<Hit>)
    requires PositionsTraced(l.mineInfo, server, hits)
    requires forall k | k in keys :: k in groups && HeardOf(hits, k)
    ensures PositionsTraced(AddTransactions(l, server, groups, keys, readAddress).mineInfo, server, hits)
  {
    if keys != [] {
      var init, k := keys[..|keys| - 1], keys[|keys| - 1];
      TransactionsTraced(l, server, groups, init, readAddress, hits);
      var before := AddTransactions(l, server, groups, init, readAddress);
      match server.merkle(k.txid, k.height) {
        case None =>
        case Some(pos) =>
          assert HeardOf(hits, k);
          var f :| Hit(k, f) in hits;
          var placed := before.(mineInfo := before.mineInfo[PlaceOf(server, Hit(k, f)) := k.txid]);
          OutputsKeepPositions(placed, k, pos, groups[k], readAddress);
          assert PositionsTraced(placed.mineInfo, server, hits);
      }
    }
  }

  lemma {:induction false} OutputsKeepPositions(l: Ledger, key: TxKey, pos: nat, outs: seq<Found>,
                                                readAddress: Script -> Option<Address>)
    ensures AddOutputs(l, key, pos, outs, readAddress).mineInfo == l.mineInfo
  {
    if outs != [] {
      OutputsKeepPositions(l, key, pos, outs[..|outs| - 1], readAddress);
    }
  }

  lemma {:induction false} AbsorbAllTraced(server: Server, batches: seq<seq<Probe>>,
                                           readAddress: Script -> Option<Address>)
    ensures PositionsTraced(AbsorbAll(server, batches, readAddress).mineInfo, server, Hits(server, Flatten(batches)))
  {
    if batches != [] {
      var init, last := batches[..|batches| - 1], batches[|batches| - 1];
      AbsorbAllTraced(server, init, readAddress);
      HitsAppend(server, Flatten(init), last);
      var groups := Group(Hits(server, last));
      GroupKeepsHits(Hits(server, last));
      SortedKeysAreKeys(groups);
      forall k | k in SortedKeys(groups)
        ensures HeardOf(Hits(server, Flatten(batches)), k)
      {
        assert groups[k][0] in groups[k];
        assert Hit(k, groups[k][0]) in Hits(server, last);
      }
      TransactionsTraced(AbsorbAll(server, init, readAddress), server, groups, SortedKeys(groups), readAddress,
                         Hits(server, Flatten(batches)));
    }
  }

  lemma DisplacedCollides(server: Server, batches: seq<seq<Probe>>, readAddress: Script -> Option<Address>)
    requires DisplacesOwn(AbsorbAll(server, batches, readAddress))
    ensures Collides(server, Flatten(batches))
  {
    var l := AbsorbAll(server, batches, readAddress);
    var u :| u in l.unspent && Displaces(l.mineInfo, u);
    AbsorbAllTrace(server, batches, readAddress, u);
    AbsorbAllTraced(server, batches, readAddress);
    var h :| h in Hits(server, Flatten(batches)) && TracedTo(u, server, h, readAddress);
    var g :| g in Hits(server, Flatten(batches)) && Mined(server, g) && PlaceOf(server, g) == u.Position() &&
             g.key.txid == l.mineInfo[u.Position()];
    assert Collide(server, h, g);
  }

  /** With one height per transaction, a placed line has an output found at its position. */
  lemma PlacedIsFound(server: Server, batches: seq<seq<Probe>>, readAddress: Script -> Option<Address>, h: Hit)
    returns (u: Utxo)
    requires OneHeight(server, Flatten(batches))
    requires h in Hits(server, Flatten(batches)) && Mined(server, h)
    ensures u in AbsorbAll(server, batches, readAddress).unspent
    ensures u.txid == h.key.txid && u.Position() == PlaceOf(server, h)
  {
    var l := AbsorbAll(server, batches, readAddress);
    AbsorbAllEffect(server, batches, readAddress);
    assert OutpointOf(h) in Discoverable(server, Flatten(batches));
    OutpointHasOutput(l, OutpointOf(h));
    u :| u in l.unspent && u.Outpoint() == OutpointOf(h);
    AbsorbAllTrace(server, batches, readAddress, u);
    var g :| g in Hits(server, Flatten(batches)) && TracedTo(u, server, g, readAddress);
  }

  /** A search displaces an output it found only if the server places two transactions
      together, and then always if it lists each transaction at one height. */
  lemma DisplacesExactly(server: Server, batches: seq<seq<Probe>>, readAddress: Script -> Option<Address>)
    ensures DisplacesOwn(AbsorbAll(server, batches, readAddress)) ==> Collides(server, Flatten(batches))
    ensures OneHeight(server, Flatten(batches)) ==>
      (DisplacesOwn(AbsorbAll(server, batches, readAddress)) <==> Collides(server, Flatten(batches)))
  {
    var l := AbsorbAll(server, batches, readAddress);
    if DisplacesOwn(l) {
      DisplacedCollides(server, batches, readAddress);
    }
    if OneHeight(server, Flatten(batches)) && Collides(server, Flatten(batches)) {
      var h, g :| h in Hits(server, Flatten(batches)) && g in Hits(server, Flatten(batches)) && Collide(server, h, g);
      var u := PlacedIsFound(server, batches, readAddress, h);
      var v := PlacedIsFound(server, batches, readAddress, g);
      AbsorbAllPositions(server, batches, readAddress);
      assert Displaces(l.mineInfo, u) || Displaces(l.mineInfo, v);
    }
  }
}
