/** In which order the search discovers outputs, and which line of the answers counts when
    an outpoint or a position is heard of more than once. */
module DiscoveryOrder {
  import opened WalletTypes
  import opened ChainScan

  // ----- the order, stated on the answers alone -----

  /** The transaction is mined lower, or at the same height and has the smaller id. */
  predicate KeyBefore(k: TxKey, m: TxKey) {
    k.height < m.height || (k.height == m.height && k.txid < m.txid)
  }

  /** Where an output of a transaction is first heard of; the number of lines if never. */
  function FirstHeard(hits: seq<Hit>, k: TxKey, vout: u16): nat {
    if hits == [] then 0 else
      var before := FirstHeard(hits[..|hits| - 1], k, vout);
      if before < |hits| - 1 then before
      else if Heard(hits[|hits| - 1], k, vout) then |hits| - 1
      else |hits|
  }

  predicate Heard(h: Hit, k: TxKey, vout: u16) {
    h.key == k && h.found.vout == vout
  }

  function KeyOf(u: Utxo): TxKey {
    TxKey(u.height, u.txid)
  }

  /** By height, then by transaction id, then by the order of the answers. */
  predicate DiscoveredBefore(hits: seq<Hit>, u: Utxo, v: Utxo) {
    || KeyBefore(KeyOf(u), KeyOf(v))
    || (KeyOf(u) == KeyOf(v) && FirstHeard(hits, KeyOf(u), u.vout) < FirstHeard(hits, KeyOf(v), v.vout))
  }

  /** The output is what the search makes of the first line it was heard of in. */
  predicate FromFirst(hits: seq<Hit>, server: Server, u: Utxo, readAddress: Script -> Option<Address>) {
    var p := FirstHeard(hits, KeyOf(u), u.vout);
    && p < |hits| && Heard(hits[p], KeyOf(u), u.vout)
    && server.merkle(u.txid, u.height).Some?
    && u == UtxoOf(KeyOf(u), server.merkle(u.txid, u.height).value, hits[p].found, readAddress)
  }

  ghost predicate InDiscoveryOrder(hits: seq<Hit>, server: Server, utxos: seq<Utxo>,
                                   readAddress: Script -> Option<Address>) {
    && (forall i, j | 0 <= i < j < |utxos| :: DiscoveredBefore(hits, utxos[i], utxos[j]))
    && (forall u | u in utxos :: FromFirst(hits, server, u, readAddress))
  }

  // ----- within one transaction -----

  function FirstIn(outs: seq<Found>, vout: u16): nat {
    if outs == [] then 0 else
      var before := FirstIn(outs[..|outs| - 1], vout);
      if before < |outs| - 1 then before
      else if outs[|outs| - 1].vout == vout then |outs| - 1
      else |outs|
  }

  lemma {:induction false} FirstInIsFirst(outs: seq<Found>, vout: u16)
    ensures var p := FirstIn(outs, vout);
      && p <= |outs| && (p < |outs| ==> outs[p].vout == vout)
      && forall q | 0 <= q < p :: outs[q].vout != vout
  {
    if outs != [] {
      FirstInIsFirst(outs[..|outs| - 1], vout);
    }
  }

  lemma {:induction false} FirstHeardIsFirst(hits: seq<Hit>, k: TxKey, vout: u16)
    ensures var p := FirstHeard(hits, k, vout);
      && p <= |hits| && (p < |hits| ==> Heard(hits[p], k, vout))
      && forall q | 0 <= q < p :: !Heard(hits[q], k, vout)
  {
    if hits != [] {
      FirstHeardIsFirst(hits[..|hits| - 1], k, vout);
    }
  }

  /** What one transaction adds stands in the order of its outputs, each from the first
      entry with its number. */
  ghost predicate AddsInOrder(key: TxKey, pos: nat, outs: seq<Found>, added: seq<Utxo>,
                              readAddress: Script -> Option<Address>) {
    && (forall i | 0 <= i < |added| ::
          var p := FirstIn(outs, added[i].vout);
          p < |outs| && added[i] == UtxoOf(key, pos, outs[p], readAddress))
    && (forall i, j | 0 <= i < j < |added| :: FirstIn(outs, added[i].vout) < FirstIn(outs, added[j].vout))
  }

  /** Every number among the outputs is a known outpoint by then. */
  ghost predicate AllKnown(l: Ledger, key: TxKey, outs: seq<Found>) {
    forall f | f in outs :: OutPoint(key.txid, f.vout) in l.outpoints
  }

  lemma {:induction false} OutputsAddInOrder(l: Ledger, key: TxKey, pos: nat, outs: seq<Found>,
                                             readAddress: Script -> Option<Address>)
    returns (added: seq<Utxo>)
    ensures AddOutputs(l, key, pos, outs, readAddress).unspent == l.unspent + added
    ensures AddsInOrder(key, pos, outs, added, readAddress)
    ensures AllKnown(AddOutputs(l, key, pos, outs, readAddress), key, outs)
  {
    if outs == [] {
      added := [];
      assert l.unspent + added == l.unspent;
    } else {
      var init, f := outs[..|outs| - 1], outs[|outs| - 1];
      var before := OutputsAddInOrder(l, key, pos, init, readAddress);
      var reached := AddOutputs(l, key, pos, init, readAddress);
      assert outs == init + [f];
      if OutPoint(key.txid, f.vout) in reached.outpoints {
        added := before;
      } else {
        var u := UtxoOf(key, pos, f, readAddress);
        added := before + [u];
        assert l.unspent + before + [u] == l.unspent + added;
        NewIsFirst(reached, key, init, f);
      }
    }
  }

  lemma NewIsFirst(l: Ledger, key: TxKey, init: seq<Found>, f: Found)
    requires AllKnown(l, key, init) && OutPoint(key.txid, f.vout) !in l.outpoints
    ensures FirstIn(init + [f], f.vout) == |init|
  {
    FirstInIsFirst(init, f.vout);
    forall i | 0 <= i < |init|
      ensures init[i].vout != f.vout
    {
      assert init[i] in init;
    }
    assert (init + [f])[..|init|] == init;
  }

  /** The outputs heard of one transaction keep the order of the answers. */
  lemma {:induction false} GroupKeepsOrder(hits: seq<Hit>, k: TxKey, a: u16, b: u16)
    requires k in Group(hits)
    requires FirstIn(Group(hits)[k], a) < |Group(hits)[k]|
    ensures var p := FirstHeard(hits, k, a);
      p < |hits| && Heard(hits[p], k, a) && hits[p].found == Group(hits)[k][FirstIn(Group(hits)[k], a)]
    ensures FirstIn(Group(hits)[k], a) < FirstIn(Group(hits)[k], b) < |Group(hits)[k]| ==>
              FirstHeard(hits, k, a) < FirstHeard(hits, k, b)
  {
    var init, h := hits[..|hits| - 1], hits[|hits| - 1];
    FirstHeardIsFirst(init, k, a);
    FirstHeardIsFirst(init, k, b);
    if h.key != k {
      GroupKeepsOrder(init, k, a, b);
    } else {
      var outs := if k in Group(init) then Group(init)[k] else [];
      assert Group(hits)[k] == outs + [h.found];
      assert (outs + [h.found])[..|outs|] == outs;
      if FirstIn(outs, a) < |outs| {
        GroupKeepsOrder(init, k, a, b);
      } else {
        UnheardIsUngrouped(init, k, a);
      }
      if FirstIn(outs, b) >= |outs| {
        UnheardIsUngrouped(init, k, b);
      }
    }
  }

  lemma UnheardIsUngrouped(hits: seq<Hit>, k: TxKey, vout: u16)
    requires k in Group(hits) ==> FirstIn(Group(hits)[k], vout) >= |Group(hits)[k]|
    ensures FirstHeard(hits, k, vout) == |hits|
  {
    FirstHeardIsFirst(hits, k, vout);
    GroupKeepsHits(hits);
    forall q | 0 <= q < |hits|
      ensures !Heard(hits[q], k, vout)
    {
      if hits[q].key == k {
        assert Hit(k, hits[q].found) in hits;
        var outs := Group(hits)[k];
        FirstInIsFirst(outs, vout);
        var r :| 0 <= r < |outs| && outs[r] == hits[q].found;
      }
    }
  }

  // ----- within one batch -----

  lemma KeysAreOrdered(groups: map<TxKey, seq<Found>>)
    ensures forall i, j | 0 <= i < j < |SortedKeys(groups)| ::
              KeyBefore(SortedKeys(groups)[i], SortedKeys(groups)[j])
  {
    KeyRanksApart(groups.Keys);
    var keys := SortedKeys(groups);
    forall i, j | 0 <= i < j < |keys|
      ensures KeyBefore(keys[i], keys[j])
    {
      assert KeyRank(keys[i]) < KeyRank(keys[j]);
      RankIsKeyOrder(keys[i], keys[j]);
    }
  }

  lemma RankIsKeyOrder(k: TxKey, m: TxKey)
    ensures KeyRank(k) < KeyRank(m) <==> KeyBefore(k, m)
  {
  }

  /** The transactions placed so far add their outputs in order, all of them of these
      transactions. */
  lemma {:induction false} TransactionsAddInOrder(l: Ledger, server: Server, hits: seq<Hit>, keys: seq<TxKey>,
                                                  readAddress: Script -> Option<Address>)
    returns (added: seq<Utxo>)
    requires forall k | k in keys :: k in Group(hits)
    requires forall i, j | 0 <= i < j < |keys| :: KeyBefore(keys[i], keys[j])
    ensures AddTransactions(l, server, Group(hits), keys, readAddress).unspent == l.unspent + added
    ensures InDiscoveryOrder(hits, server, added, readAddress)
    ensures forall u | u in added :: KeyOf(u) in keys
  {
    if keys == [] {
      added := [];
      assert l.unspent + added == l.unspent;
    } else {
      var init, k := keys[..|keys| - 1], keys[|keys| - 1];
      var before := TransactionsAddInOrder(l, server, hits, init, readAddress);
      var reached := AddTransactions(l, server, Group(hits), init, readAddress);
      var more := OneAddsInOrder(reached, server, hits, k, readAddress);
      added := before + more;
      assert l.unspent + before + more == l.unspent + added;
      assert keys == init + [k];
      forall u, v | u in before && v in more
        ensures DiscoveredBefore(hits, u, v)
      {
        var i :| 0 <= i < |init| && init[i] == KeyOf(u);
        assert KeyBefore(keys[i], keys[|keys| - 1]);
      }
    }
  }

  lemma OneAddsInOrder(l: Ledger, server: Server, hits: seq<Hit>, k: TxKey, readAddress: Script -> Option<Address>)
    returns (added: seq<Utxo>)
    requires k in Group(hits)
    ensures AddTransaction(l, server, k, Group(hits)[k], readAddress).unspent == l.unspent + added
    ensures InDiscoveryOrder(hits, server, added, readAddress)
    ensures forall u | u in added :: KeyOf(u) == k
  {
    match server.merkle(k.txid, k.height) {
      case None =>
        added := [];
        assert l.unspent + added == l.unspent;
      case Some(pos) =>
        var placed := l.(mineInfo := l.mineInfo[BlockPos(k.height, pos % U16_LIMIT) := k.txid]);
        var outs := Group(hits)[k];
        added := OutputsAddInOrder(placed, k, pos, outs, readAddress);
        forall i | 0 <= i < |added|
          ensures FromFirst(hits, server, added[i], readAddress) && KeyOf(added[i]) == k
        {
          GroupKeepsOrder(hits, k, added[i].vout, added[i].vout);
        }
        forall i, j | 0 <= i < j < |added|
          ensures DiscoveredBefore(hits, added[i], added[j])
        {
          GroupKeepsOrder(hits, k, added[i].vout, added[j].vout);
        }
    }
  }

  /** One batch appends its outputs: by height, then by transaction id, then in the order
      of the answers, each from the first line it was heard of in. */
  lemma BatchAddsInOrder(l: Ledger, server: Server, probes: seq<Probe>, readAddress: Script -> Option<Address>)
    returns (added: seq<Utxo>)
    ensures Absorb(l, server, probes, readAddress).unspent == l.unspent + added
    ensures InDiscoveryOrder(Hits(server, probes), server, added, readAddress)
  {
    var groups := Group(Hits(server, probes));
    SortedKeysAreKeys(groups);
    KeysAreOrdered(groups);
    added := TransactionsAddInOrder(l, server, Hits(server, probes), SortedKeys(groups), readAddress);
  }

  // ----- all batches -----

  function FoundBy(server: Server, batches: seq<seq<Probe>>, n: nat, readAddress: Script -> Option<Address>): seq<Utxo>
    requires n <= |batches|
  {
    AbsorbAll(server, batches[..n], readAddress).unspent
  }

  /** Earlier batches come first, and what batch k adds stands in its own order. */
  lemma {:induction false} SearchFindsInOrder(server: Server, batches: seq<seq<Probe>>, k: nat,
                                              readAddress: Script -> Option<Address>)
    requires k < |batches|
    ensures var before, after := FoundBy(server, batches, k, readAddress), FoundBy(server, batches, k + 1, readAddress);
      && before <= after <= AbsorbAll(server, batches, readAddress).unspent
      && InDiscoveryOrder(Hits(server, batches[k]), server, after[|before|..], readAddress)
    decreases |batches|
  {
    var init := batches[..|batches| - 1];
    LastAddsInOrder(server, batches, readAddress);
    if k == |batches| - 1 {
      assert batches[..k] == init && batches[..k + 1] == batches;
    } else {
      SearchFindsInOrder(server, init, k, readAddress);
      assert init[..k] == batches[..k] && init[..k + 1] == batches[..k + 1] && init[k] == batches[k];
    }
  }

  lemma LastAddsInOrder(server: Server, batches: seq<seq<Probe>>, readAddress: Script -> Option<Address>)
    requires batches != []
    ensures var before := AbsorbAll(server, batches[..|batches| - 1], readAddress).unspent;
            var after := AbsorbAll(server, batches, readAddress).unspent;
      && before <= after
      && InDiscoveryOrder(Hits(server, batches[|batches| - 1]), server, after[|before|..], readAddress)
  {
    var before := AbsorbAll(server, batches[..|batches| - 1], readAddress);
    var added := BatchAddsInOrder(before, server, batches[|batches| - 1], readAddress);
    assert (before.unspent + added)[|before.unspent|..] == added;
  }

  // ----- positions heard of more than once -----

  /** A line of this batch that the server places at p. */
  predicate PlacedAt(server: Server, h: Hit, p: BlockPos) {
    && server.merkle(h.key.txid, h.key.height).Some? && h.key.height == p.height
    && server.merkle(h.key.txid, h.key.height).value % U16_LIMIT == p.offset
  }

  predicate KeyPlacedAt(server: Server, k: TxKey, p: BlockPos) {
    && server.merkle(k.txid, k.height).Some? && k.height == p.height
    && server.merkle(k.txid, k.height).value % U16_LIMIT == p.offset
  }

  /** The last of these transactions placed at p. */
  function LastAt(server: Server, keys: seq<TxKey>, p: BlockPos): Option<Txid> {
    if keys == [] then None
    else if KeyPlacedAt(server, keys[|keys| - 1], p) then Some(keys[|keys| - 1].txid)
    else LastAt(server, keys[..|keys| - 1], p)
  }

  function Known(mineInfo: map<BlockPos, Txid>, p: BlockPos): Option<Txid> {
    if p in mineInfo then Some(mineInfo[p]) else None
  }

  lemma {:induction false} OutputsKeepMineInfo(l: Ledger, key: TxKey, pos: nat, outs: seq<Found>,
                                               readAddress: Script -> Option<Address>)
    ensures AddOutputs(l, key, pos, outs, readAddress).mineInfo == l.mineInfo
  {
    if outs != [] {
      OutputsKeepMineInfo(l, key, pos, outs[..|outs| - 1], readAddress);
    }
  }

  lemma {:induction false} TransactionsPlaceLast(l: Ledger, server: Server, groups: map<TxKey, seq<Found>>,
                                                 keys: seq<TxKey>, readAddress: Script -> Option<Address>, p: BlockPos)
    requires forall k | k in keys :: k in groups
    ensures Known(AddTransactions(l, server, groups, keys, readAddress).mineInfo, p) ==
            if LastAt(server, keys, p).Some? then LastAt(server, keys, p) else Known(l.mineInfo, p)
  {
    if keys != [] {
      var init, k := keys[..|keys| - 1], keys[|keys| - 1];
      TransactionsPlaceLast(l, server, groups, init, readAddress, p);
      var before := AddTransactions(l, server, groups, init, readAddress);
      match server.merkle(k.txid, k.height) {
        case None =>
        case Some(pos) =>
          var placed := before.(mineInfo := before.mineInfo[BlockPos(k.height, pos % U16_LIMIT) := k.txid]);
          OutputsKeepMineInfo(placed, k, pos, groups[k], readAddress);
      }
    }
  }

  lemma {:induction false} LastAtIsGreatest(server: Server, keys: seq<TxKey>, p: BlockPos)
    requires forall i, j | 0 <= i < j < |keys| :: KeyBefore(keys[i], keys[j])
    ensures match LastAt(server, keys, p)
            case None => forall k | k in keys :: !KeyPlacedAt(server, k, p)
            case Some(txid) =>
              (exists k :: k in keys && KeyPlacedAt(server, k, p) && k.txid == txid) &&
              (forall k | k in keys && KeyPlacedAt(server, k, p) :: k.txid <= txid)
  {
    if keys != [] {
      var init, last := keys[..|keys| - 1], keys[|keys| - 1];
      LastAtIsGreatest(server, init, p);
      assert keys == init + [last];
      if KeyPlacedAt(server, last, p) {
        forall k | k in keys && KeyPlacedAt(server, k, p)
          ensures k.txid <= last.txid
        {
          var i :| 0 <= i < |keys| && keys[i] == k;
          assert i < |keys| - 1 ==> KeyBefore(keys[i], keys[|keys| - 1]);
        }
      }
    }
  }

  /** After a batch a position leads to the greatest id among the transactions the batch
      placed there, or where it led before if there is none. */
  lemma BatchPlacesGreatest(l: Ledger, server: Server, probes: seq<Probe>, readAddress: Script -> Option<Address>,
                            p: BlockPos)
    ensures var hits := Hits(server, probes);
            var after := Known(Absorb(l, server, probes, readAddress).mineInfo, p);
      if forall h | h in hits :: !PlacedAt(server, h, p) then after == Known(l.mineInfo, p)
      else after.Some? &&
           (exists h :: h in hits && PlacedAt(server, h, p) && h.key.txid == after.value) &&
           (forall h | h in hits && PlacedAt(server, h, p) :: h.key.txid <= after.value)
  {
    var hits := Hits(server, probes);
    var groups := Group(hits);
    GroupKeepsHits(hits);
    SortedKeysAreKeys(groups);
    KeysAreOrdered(groups);
    TransactionsPlaceLast(l, server, groups, SortedKeys(groups), readAddress, p);
    LastAtIsGreatest(server, SortedKeys(groups), p);
    forall h | h in hits
      ensures h.key in SortedKeys(groups) && (PlacedAt(server, h, p) <==> KeyPlacedAt(server, h.key, p))
    {
      assert h == Hit(h.key, h.found);
    }
    forall k | k in SortedKeys(groups)
      ensures exists h :: h in hits && h.key == k
    {
      assert groups[k][0] in groups[k];
      assert Hit(k, groups[k][0]) in hits;
    }
  }
}
