/** Attaching RGB amounts to the outputs a search has found. The source walks the
    outputs in discovery order beside their outpoints in sorted order. */
module AssetMerge {
  import opened WalletTypes
  import opened Collections
  import opened ChainScan

  type Report = map<AssetId, seq<u64>>

  /** The RGB node's answer for an outpoint, or a failure. */
  type RgbNode = OutPoint -> Option<Report>

  type AssetLists = map<AssetId, seq<Utxo>>

  function AsNat(n: u64): nat {
    n
  }

  function AssetAmount(report: Report, a: AssetId): nat {
    if a in report then SeqSum(report[a], AsNat) else 0
  }

  predicate ReportFits(report: Report) {
    forall a | a in report :: AssetAmount(report, a) < U64_LIMIT
  }

  function Listed(assets: AssetLists, a: AssetId): seq<Utxo> {
    if a in assets then assets[a] else []
  }

  function Share(u: Utxo, report: Report, a: AssetId): seq<Utxo>
    requires ReportFits(report)
  {
    if AssetAmount(report, a) > 0 then [u.(value := AssetAmount(report, a))] else []
  }

  function Paid(report: Report): set<AssetId> {
    set a | a in report && AssetAmount(report, a) > 0
  }

  /** Each asset with a positive amount gets a copy of the output with that amount. */
  function MergeOne(assets: AssetLists, u: Utxo, report: Report): AssetLists
    requires ReportFits(report)
  {
    map a | a in assets.Keys + Paid(report) ::
      Listed(assets, a) + Share(u, report, a)
  }

  lemma MergeNone(assets: AssetLists, u: Utxo)
    ensures MergeOne(assets, u, map[]) == assets
  {
    forall a | a in assets
      ensures MergeOne(assets, u, map[])[a] == assets[a]
    {
      assert Share(u, map[], a) == [] && assets[a] + [] == assets[a];
    }
  }

  /** Reports merge entry by entry, in any order. */
  lemma MergeEntry(assets: AssetLists, u: Utxo, report: Report, a: AssetId, amounts: seq<u64>)
    requires a !in report && ReportFits(report) && SeqSum(amounts, AsNat) < U64_LIMIT
    ensures ReportFits(report[a := amounts])
    ensures var before := MergeOne(assets, u, report);
            var amount := SeqSum(amounts, AsNat);
      MergeOne(assets, u, report[a := amounts]) ==
      if amount == 0 then before
      else before[a := Listed(before, a) + [u.(value := amount)]]
  {
    AmountsWith(report, a, amounts);
    MergeMore(assets, u, report, report[a := amounts], a);
  }

  lemma MergeMore(assets: AssetLists, u: Utxo, report: Report, more: Report, a: AssetId)
    requires ReportFits(report) && ReportFits(more)
    requires AssetAmount(report, a) == 0
    requires forall b | b != a :: AssetAmount(more, b) == AssetAmount(report, b)
    ensures var before := MergeOne(assets, u, report);
      MergeOne(assets, u, more) ==
      if AssetAmount(more, a) == 0 then before
      else before[a := Listed(before, a) + [u.(value := AssetAmount(more, a))]]
  {
    var before, after := MergeOne(assets, u, report), MergeOne(assets, u, more);
    forall b | b != a
      ensures (b in before <==> b in after) && Listed(before, b) == Listed(after, b)
    {
      MergeLookup(assets, u, report, b);
      MergeLookup(assets, u, more, b);
    }
    MergeLookup(assets, u, report, a);
    MergeLookup(assets, u, more, a);
    assert Listed(assets, a) + [] == Listed(assets, a);
    ListsGrow(before, after, a, Share(u, more, a));
  }

  lemma ListsGrow(x: AssetLists, y: AssetLists, a: AssetId, extra: seq<Utxo>)
    requires forall b | b != a :: (b in x <==> b in y) && Listed(x, b) == Listed(y, b)
    requires Listed(y, a) == Listed(x, a) + extra
    requires a in y <==> a in x || extra != []
    ensures y == if extra == [] then x else x[a := Listed(x, a) + extra]
  {
    forall b | b in y && b != a
      ensures x[b] == y[b]
    {
      assert Listed(x, b) == Listed(y, b);
    }
    if extra == [] {
      assert Listed(x, a) + [] == Listed(x, a);
    }
  }

  lemma MergeLookup(assets: AssetLists, u: Utxo, report: Report, a: AssetId)
    requires ReportFits(report)
    ensures a in MergeOne(assets, u, report) <==> a in assets || AssetAmount(report, a) > 0
    ensures Listed(MergeOne(assets, u, report), a) == Listed(assets, a) + Share(u, report, a)
  {
  }

  lemma AmountsWith(report: Report, a: AssetId, amounts: seq<u64>)
    requires a !in report && ReportFits(report) && SeqSum(amounts, AsNat) < U64_LIMIT
    ensures ReportFits(report[a := amounts])
    ensures AssetAmount(report[a := amounts], a) == SeqSum(amounts, AsNat)
    ensures forall b | b != a :: AssetAmount(report[a := amounts], b) == AssetAmount(report, b)
    ensures Paid(report[a := amounts]) == Paid(report) + if SeqSum(amounts, AsNat) > 0 then {a} else {}
  {
  }

  /** The first n outputs merged, each with the report for its partner outpoint. */
  function Merge(unspent: seq<Utxo>, partners: seq<OutPoint>, node: RgbNode, n: nat): Result<AssetLists>
    requires n <= |unspent| == |partners|
  {
    if n == 0 then Success(map[BITCOIN := unspent]) else
      match Merge(unspent, partners, node, n - 1)
      case Failure(e) => Failure(e)
      case Success(assets) =>
        match node(partners[n - 1])
        case None => Failure(RgbNodeFailure)
        case Some(report) =>
          if ReportFits(report) then Success(MergeOne(assets, unspent[n - 1], report))
          else Failure(Overflow)
  }

  function SortedOutpoints(outpoints: set<OutPoint>): seq<OutPoint> {
    OutpointRanksApart(outpoints);
    Ascending(outpoints, OutpointRank)
  }

  lemma OutpointRanksApart(s: set<OutPoint>)
    ensures RanksApart(s, OutpointRank)
  {
  }

  lemma RankIsOrder(s: seq<OutPoint>)
    ensures StrictlyAscending(s, OutpointRank) <==> InOutpointOrder(s)
  {
    forall i, j | 0 <= i < j < |s|
      ensures OutpointRank(s[i]) < OutpointRank(s[j]) <==> OutpointBefore(s[i], s[j])
    {
      RankComparesOutpoints(s[i], s[j]);
    }
  }

  lemma RankComparesOutpoints(o: OutPoint, p: OutPoint)
    ensures OutpointRank(o) < OutpointRank(p) <==> OutpointBefore(o, p)
  {
  }

  /** The sorted order lists each outpoint once, by transaction id and then by number. */
  lemma SortedIsInOrder(s: set<OutPoint>)
    ensures InOutpointOrder(SortedOutpoints(s)) && Elements(SortedOutpoints(s)) == s
    ensures NoDuplicates(SortedOutpoints(s)) && |SortedOutpoints(s)| == |s|
  {
    OutpointRanksApart(s);
    RankIsOrder(SortedOutpoints(s));
    AscendingIsDistinct(SortedOutpoints(s), OutpointRank);
  }

  /** It is the only such listing. */
  lemma OrderIsSorted(list: seq<OutPoint>, s: set<OutPoint>)
    requires InOutpointOrder(list) && Elements(list) == s
    ensures list == SortedOutpoints(s)
  {
    OutpointRanksApart(s);
    RankIsOrder(list);
    AscendingIsUnique(list, SortedOutpoints(s), OutpointRank);
  }

  lemma CoherentPairs(l: Ledger)
    requires Coherent(l)
    ensures |SortedOutpoints(l.outpoints)| == |l.unspent|
  {
    OutpointRanksApart(l.outpoints);
    AscendingIsDistinct(SortedOutpoints(l.outpoints), OutpointRank);
    ElementsSize(OutpointList(l.unspent));
  }

  /** The assets of what a search found, with the outputs in discovery order and their
      outpoints in sorted order. */
  function MergedAssets(l: Ledger, node: RgbNode): Result<AssetLists>
    requires Coherent(l)
  {
    CoherentPairs(l);
    Merge(l.unspent, SortedOutpoints(l.outpoints), node, |l.unspent|)
  }

  // ----- conservation -----

  /** What the node reports of an asset on an outpoint: the sum of the listed amounts. */
  function NodeAmount(node: RgbNode, a: AssetId): OutPoint -> nat {
    (o: OutPoint) => match node(o)
                     case None => 0
                     case Some(report) => if a in report then SeqSum(report[a], AsNat) else 0
  }

  lemma AppendSum(s: seq<Utxo>, t: seq<Utxo>)
    requires |t| <= 1
    ensures SeqSum(s + t, ValueOf) == SeqSum(s, ValueOf) + SeqSum(t, ValueOf)
  {
    if t == [] {
      assert s + t == s;
    } else {
      assert (s + t)[..|s + t| - 1] == s;
      assert t[..0] == [];
    }
  }

  lemma {:induction false} MergeTotals(unspent: seq<Utxo>, partners: seq<OutPoint>, node: RgbNode, n: nat, a: AssetId)
    requires n <= |unspent| == |partners|
    requires Merge(unspent, partners, node, n).Success?
    ensures SeqSum(Listed(Merge(unspent, partners, node, n).value, a), ValueOf) ==
            (if a == BITCOIN then SeqSum(unspent, ValueOf) else 0) + SeqSum(partners[..n], NodeAmount(node, a))
  {
    if n > 0 {
      MergeTotals(unspent, partners, node, n - 1, a);
      PrefixStep(partners, n - 1, NodeAmount(node, a));
      var assets := Merge(unspent, partners, node, n - 1).value;
      var report := node(partners[n - 1]).value;
      var share := Share(unspent[n - 1], report, a);
      AppendSum(Listed(assets, a), share);
      assert Listed(MergeOne(assets, unspent[n - 1], report), a) == Listed(assets, a) + share;
      assert SeqSum(share, ValueOf) == AssetAmount(report, a) by {
        if share != [] { assert share[..0] == []; }
      }
    }
  }

  /** Whatever the order of discovery, the total written for an asset is the node's
      total over all discovered outpoints. */
  lemma MergeConserves(l: Ledger, node: RgbNode, a: AssetId)
    requires Coherent(l) && MergedAssets(l, node).Success?
    ensures SeqSum(Listed(MergedAssets(l, node).value, a), ValueOf) ==
            (if a == BITCOIN then SeqSum(l.unspent, ValueOf) else 0) + Sum(l.outpoints, NodeAmount(node, a))
  {
    CoherentPairs(l);
    var partners := SortedOutpoints(l.outpoints);
    MergeTotals(l.unspent, partners, node, |l.unspent|, a);
    assert partners[..|l.unspent|] == partners;
    OutpointRanksApart(l.outpoints);
    AscendingIsDistinct(partners, OutpointRank);
    SeqSumIsSum(partners, NodeAmount(node, a));
  }

  // ----- shape -----

  ghost predicate DistinctOutpoints(utxos: seq<Utxo>) {
    NoDuplicates(OutpointList(utxos))
  }

  /** The node does not report bitcoin itself, filed under the default id, as an asset. */
  ghost predicate NoBitcoinAsset(node: RgbNode) {
    forall o | node(o).Some? :: BITCOIN !in node(o).value
  }

  /** The output is one of the first n discovered, with some value of its own. */
  ghost predicate CopyOf(w: Utxo, unspent: seq<Utxo>, n: nat)
    requires n <= |unspent|
  {
    exists i :: 0 <= i < n && w == unspent[i].(value := w.value)
  }

  lemma CopyLater(w: Utxo, unspent: seq<Utxo>, m: nat, n: nat)
    requires m <= n <= |unspent| && CopyOf(w, unspent, m)
    ensures CopyOf(w, unspent, n)
  {
  }

  /** Whatever the node reports, the discovered outputs are filed under bitcoin. */
  lemma {:induction false} MergeFilesBitcoin(unspent: seq<Utxo>, partners: seq<OutPoint>, node: RgbNode, n: nat)
    requires n <= |unspent| == |partners|
    requires Merge(unspent, partners, node, n).Success?
    ensures var assets := Merge(unspent, partners, node, n).value;
      BITCOIN in assets && forall u | u in unspent :: u in assets[BITCOIN]
  {
    if n > 0 {
      MergeFilesBitcoin(unspent, partners, node, n - 1);
      MergeLookup(Merge(unspent, partners, node, n - 1).value, unspent[n - 1], node(partners[n - 1]).value, BITCOIN);
    }
  }

  /** Whatever the node reports, each entry of each asset is a discovered output with
      another value. */
  lemma {:induction false} MergeCopies(unspent: seq<Utxo>, partners: seq<OutPoint>, node: RgbNode, n: nat, a: AssetId)
    requires n <= |unspent| == |partners|
    requires Merge(unspent, partners, node, n).Success?
    ensures forall w | w in Listed(Merge(unspent, partners, node, n).value, a) ::
      CopyOf(w, unspent, if a == BITCOIN then |unspent| else n)
  {
    if n == 0 {
      forall w | w in unspent
        ensures CopyOf(w, unspent, |unspent|)
      {
        var i :| 0 <= i < |unspent| && unspent[i] == w;
        assert w == unspent[i].(value := w.value);
      }
    } else {
      MergeCopies(unspent, partners, node, n - 1, a);
      var before := Merge(unspent, partners, node, n - 1).value;
      var u, report := unspent[n - 1], node(partners[n - 1]).value;
      MergeLookup(before, u, report, a);
      CopiesGrow(Listed(before, a), unspent, n, Share(u, report, a), a);
    }
  }

  lemma CopiesGrow(list: seq<Utxo>, unspent: seq<Utxo>, n: nat, share: seq<Utxo>, a: AssetId)
    requires 0 < n <= |unspent|
    requires forall w | w in list :: CopyOf(w, unspent, if a == BITCOIN then |unspent| else n - 1)
    requires forall w | w in share :: w == unspent[n - 1].(value := w.value)
    ensures forall w | w in list + share :: CopyOf(w, unspent, if a == BITCOIN then |unspent| else n)
  {
    forall w | w in list + share
      ensures CopyOf(w, unspent, if a == BITCOIN then |unspent| else n)
    {
      if w in list && a != BITCOIN {
        CopyLater(w, unspent, n - 1, n);
      }
    }
  }

  /** Within one asset no outpoint is listed twice, and the bitcoin list is what was
      discovered; for bitcoin this takes a node that does not report it. */
  lemma {:induction false} MergeShape(unspent: seq<Utxo>, partners: seq<OutPoint>, node: RgbNode, n: nat, a: AssetId)
    requires n <= |unspent| == |partners|
    requires DistinctOutpoints(unspent)
    requires Merge(unspent, partners, node, n).Success?
    requires a != BITCOIN || NoBitcoinAsset(node)
    ensures var assets := Merge(unspent, partners, node, n).value;
      && DistinctOutpoints(Listed(assets, a))
      && (a == BITCOIN ==> Listed(assets, a) == unspent)
  {
    if n > 0 {
      MergeShape(unspent, partners, node, n - 1, a);
      MergeCopies(unspent, partners, node, n - 1, a);
      var assets := Merge(unspent, partners, node, n - 1).value;
      var report := node(partners[n - 1]).value;
      var u := unspent[n - 1];
      MergeLookup(assets, u, report, a);
      if a == BITCOIN {
        assert Listed(assets, a) + [] == Listed(assets, a);
      } else {
        AddShare(Listed(assets, a), unspent, n, Share(u, report, a));
      }
    }
  }

  lemma AddShare(list: seq<Utxo>, unspent: seq<Utxo>, n: nat, share: seq<Utxo>)
    requires 0 < n <= |unspent| && DistinctOutpoints(unspent)
    requires DistinctOutpoints(list) && forall w | w in list :: CopyOf(w, unspent, n - 1)
    requires |share| <= 1
    requires share != [] ==> share[0] == unspent[n - 1].(value := share[0].value)
    ensures DistinctOutpoints(list + share)
  {
    forall w | w in list
      ensures w.Outpoint() != unspent[n - 1].Outpoint()
    {
      var i :| 0 <= i < n - 1 && w == unspent[i].(value := w.value);
      assert OutpointList(unspent)[i] != OutpointList(unspent)[n - 1];
    }
    assert OutpointList(list + share) == OutpointList(list) + OutpointList(share);
  }

  // ----- attribution -----

  /** A node that knows one amount of one asset, on one outpoint. */
  function Holding(o: OutPoint, a: AssetId, amount: u64): RgbNode {
    (p: OutPoint) => Some(if p == o then map[a := [amount]] else map[])
  }

  lemma HoldingReports(o: OutPoint, a: AssetId, amount: u64)
    ensures NodeAmount(Holding(o, a, amount), a)(o) == amount
    ensures a != BITCOIN ==> NoBitcoinAsset(Holding(o, a, amount))
  {
    var amounts: seq<u64> := [amount];
    assert amounts[..0] == [];
    assert SeqSum(amounts, AsNat) == amount;
  }

  lemma {:induction false} MergeHolding(unspent: seq<Utxo>, partners: seq<OutPoint>, k: nat, a: AssetId,
                                        amount: u64, n: nat)
    requires n <= |unspent| == |partners| && k < |partners|
    requires NoDuplicates(partners) && a != BITCOIN && amount > 0
    ensures Merge(unspent, partners, Holding(partners[k], a, amount), n) == Success(
      if n <= k then map[BITCOIN := unspent]
      else map[BITCOIN := unspent, a := [unspent[k].(value := amount)]])
  {
    if n > 0 {
      MergeHolding(unspent, partners, k, a, amount, n - 1);
      var assets := Merge(unspent, partners, Holding(partners[k], a, amount), n - 1).value;
      var u := unspent[n - 1];
      MergeNone(assets, u);
      if n - 1 == k {
        var amounts: seq<u64> := [amount];
        var none: Report := map[];
        assert amounts[..0] == [] && none[a := amounts] == map[a := [amount]];
        MergeEntry(assets, u, none, a, amounts);
        assert Listed(assets, a) + [u.(value := amount)] == [u.(value := amount)];
      } else {
        assert Holding(partners[k], a, amount)(partners[n - 1]) == Some(map[]);
      }
    }
  }

  /** Amounts land on the outputs they belong to, whatever the node reports, exactly
      when the outputs were discovered in ascending order of their outpoints. */
  lemma AttributionIsRightExactly(l: Ledger)
    requires Coherent(l)
    ensures (forall node: RgbNode ::
               MergedAssets(l, node) ==
               Merge(l.unspent, OutpointList(l.unspent), node, |l.unspent|))
            <==> InOutpointOrder(OutpointList(l.unspent))
  {
    CoherentPairs(l);
    var own, sorted := OutpointList(l.unspent), SortedOutpoints(l.outpoints);
    SortedIsInOrder(l.outpoints);
    if InOutpointOrder(own) {
      OrderIsSorted(own, l.outpoints);
    } else {
      var i :| 0 <= i < |own| && own[i] != sorted[i];
      assert sorted[i] in Elements(sorted);
      var j :| 0 <= j < |own| && own[j] == sorted[i];
      var asset := AssetId(1);
      MergeHolding(l.unspent, sorted, i, asset, 1, |own|);
      MergeHolding(l.unspent, own, j, asset, 1, |own|);
      var node := Holding(sorted[i], asset, 1);
      var written: AssetLists := Merge(l.unspent, sorted, node, |own|).value;
      var meant: AssetLists := Merge(l.unspent, own, node, |own|).value;
      assert written[asset][0].Outpoint() == own[i] != own[j] == meant[asset][0].Outpoint();
      assert written != meant;
    }
  }

  /** How many of the outpoints come before this one. */
  function Predecessors(outpoints: set<OutPoint>, o: OutPoint): nat {
    |set p | p in outpoints && OutpointBefore(p, o)|
  }

  /** Every output that is worth something was discovered after as many others as have
      outpoints before its own. */
  ghost predicate PairsUp(l: Ledger) {
    forall k | 0 <= k < |l.unspent| && l.unspent[k].value > 0 ::
      Predecessors(l.outpoints, l.unspent[k].Outpoint()) == k
  }

  /** An outpoint has its place in the order behind its predecessors. */
  lemma PlaceIsPredecessors(sorted: seq<OutPoint>, s: set<OutPoint>, k: nat)
    requires InOutpointOrder(sorted) && NoDuplicates(sorted) && Elements(sorted) == s && k < |sorted|
    ensures Predecessors(s, sorted[k]) == k
  {
    var front := sorted[..k];
    ElementsSize(front);
    forall p | p in s && OutpointBefore(p, sorted[k])
      ensures p in Elements(front)
    {
      var j :| 0 <= j < |sorted| && sorted[j] == p;
      assert j < k && front[j] == p;
    }
    forall p | p in Elements(front)
      ensures p in s && OutpointBefore(p, sorted[k])
    {
      var j :| 0 <= j < k && front[j] == p;
      assert sorted[j] in Elements(sorted);
    }
    assert Elements(front) == set p | p in s && OutpointBefore(p, sorted[k]);
  }

  lemma PairsUpIsPlaced(l: Ledger)
    requires Coherent(l)
    ensures |SortedOutpoints(l.outpoints)| == |l.unspent|
    ensures PairsUp(l) <==> forall k | 0 <= k < |l.unspent| && l.unspent[k].value > 0 ::
              SortedOutpoints(l.outpoints)[k] == OutpointList(l.unspent)[k]
  {
    CoherentPairs(l);
    SortedIsInOrder(l.outpoints);
    forall k | 0 <= k < |l.unspent|
      ensures Predecessors(l.outpoints, OutpointList(l.unspent)[k]) == k <==>
              SortedOutpoints(l.outpoints)[k] == OutpointList(l.unspent)[k]
    {
      PlaceIsCount(OutpointList(l.unspent), SortedOutpoints(l.outpoints), l.outpoints, k);
    }
  }

  lemma PlaceIsCount(own: seq<OutPoint>, sorted: seq<OutPoint>, s: set<OutPoint>, k: nat)
    requires InOutpointOrder(sorted) && NoDuplicates(sorted) && Elements(sorted) == s == Elements(own)
    requires k < |own| == |sorted|
    ensures Predecessors(s, own[k]) == k <==> sorted[k] == own[k]
  {
    PlaceIsPredecessors(sorted, s, k);
    assert own[k] in Elements(own);
    assert own[k] in Elements(sorted);
    var p :| 0 <= p < |sorted| && sorted[p] == own[k];
    PlaceIsPredecessors(sorted, s, p);
  }

  /** Ascending discovery pairs up, and if all outputs are worth something nothing else
      does. */
  lemma AscendingPairsUp(l: Ledger)
    requires Coherent(l)
    ensures InOutpointOrder(OutpointList(l.unspent)) ==> PairsUp(l)
    ensures (forall u | u in l.unspent :: u.value > 0) ==>
              (PairsUp(l) <==> InOutpointOrder(OutpointList(l.unspent)))
  {
    var own, sorted := OutpointList(l.unspent), SortedOutpoints(l.outpoints);
    PairsUpIsPlaced(l);
    SortedIsInOrder(l.outpoints);
    if InOutpointOrder(own) {
      OrderIsSorted(own, l.outpoints);
    }
    if PairsUp(l) && forall u | u in l.unspent :: u.value > 0 {
      assert own == sorted;
    }
  }

  /** The output is filed as holding what the node reports for the k-th partner. */
  ghost predicate PaidAt(w: Utxo, unspent: seq<Utxo>, partners: seq<OutPoint>, node: RgbNode, a: AssetId, k: nat)
    requires k < |unspent| == |partners|
  {
    w.value == NodeAmount(node, a)(partners[k]) > 0 && w == unspent[k].(value := w.value)
  }

  lemma {:induction false} PaidIsListed(unspent: seq<Utxo>, partners: seq<OutPoint>, node: RgbNode, n: nat,
                                        a: AssetId, k: nat)
    requires k < n <= |unspent| == |partners|
    requires Merge(unspent, partners, node, n).Success? && NodeAmount(node, a)(partners[k]) > 0
    ensures exists w :: w in Listed(Merge(unspent, partners, node, n).value, a) &&
                        PaidAt(w, unspent, partners, node, a, k)
  {
    var before := Merge(unspent, partners, node, n - 1).value;
    var u, report := unspent[n - 1], node(partners[n - 1]).value;
    MergeLookup(before, u, report, a);
    if k < n - 1 {
      PaidIsListed(unspent, partners, node, n - 1, a, k);
    } else {
      var w := u.(value := AssetAmount(report, a));
      assert Share(u, report, a) == [w];
      assert PaidAt(w, unspent, partners, node, a, k);
    }
  }

  /** The output is listed under the asset once the first n are merged. */
  predicate ListedAfter(unspent: seq<Utxo>, partners: seq<OutPoint>, node: RgbNode, n: nat, a: AssetId, w: Utxo)
    requires n <= |unspent| == |partners|
  {
    var merged := Merge(unspent, partners, node, n);
    merged.Success? && w in Listed(merged.value, a)
  }

  lemma LastIsPaid(unspent: seq<Utxo>, partners: seq<OutPoint>, node: RgbNode, n: nat, a: AssetId, w: Utxo)
    requires 0 < n <= |unspent| == |partners| && ListedAfter(unspent, partners, node, n, a, w)
    ensures ListedAfter(unspent, partners, node, n - 1, a, w) || PaidAt(w, unspent, partners, node, a, n - 1)
  {
    MergeLookup(Merge(unspent, partners, node, n - 1).value, unspent[n - 1], node(partners[n - 1]).value, a);
  }

  /** Conversely, whatever is filed under an asset is paid at some position; under bitcoin
      it may also be an output as it was discovered. */
  lemma {:induction false} ListedIsPaid(unspent: seq<Utxo>, partners: seq<OutPoint>, node: RgbNode, n: nat,
                                        a: AssetId, w: Utxo)
    returns (k: nat)
    requires n <= |unspent| == |partners| && ListedAfter(unspent, partners, node, n, a, w)
    ensures (a == BITCOIN && w in unspent) || (k < n && PaidAt(w, unspent, partners, node, a, k))
  {
    k := 0;
    if n > 0 {
      k := n - 1;
      LastIsPaid(unspent, partners, node, n, a, w);
      if !PaidAt(w, unspent, partners, node, a, n - 1) {
        k := ListedIsPaid(unspent, partners, node, n - 1, a, w);
      }
    }
  }

  lemma {:induction false} MergeSucceeds(unspent: seq<Utxo>, partners: seq<OutPoint>, node: RgbNode, n: nat)
    requires n <= |unspent| == |partners|
    requires forall k | 0 <= k < n :: node(partners[k]).Some? && ReportFits(node(partners[k]).value)
    ensures Merge(unspent, partners, node, n).Success?
  {
    if n > 0 {
      MergeSucceeds(unspent, partners, node, n - 1);
    }
  }

  /** A node that knows of one asset only, in these amounts. */
  function Paying(amounts: OutPoint -> u64, a: AssetId): RgbNode {
    (p: OutPoint) => Some(map[a := [amounts(p)]])
  }

  lemma PayingReports(amounts: OutPoint -> u64, a: AssetId, b: AssetId, p: OutPoint)
    ensures NodeAmount(Paying(amounts, a), b)(p) == if b == a then amounts(p) else 0
    ensures ReportFits(Paying(amounts, a)(p).value)
  {
    var one: seq<u64> := [amounts(p)];
    var report: Report := map[a := one];
    assert one[..0] == [];
    assert SeqSum(one, AsNat) == amounts(p);
    assert Paying(amounts, a)(p) == Some(report);
    assert forall c | c in report :: c == a;
  }

  // ----- the merging loops -----

  method AddAmounts(amounts: seq<u64>) returns (r: Result<u64>)
    ensures r == if SeqSum(amounts, AsNat) < U64_LIMIT then Success(SeqSum(amounts, AsNat)) else Failure(Overflow)
  {
    var total: u64 := 0;
    for i := 0 to |amounts|
      invariant total == SeqSum(amounts[..i], AsNat)
    {
      PrefixStep(amounts, i, AsNat);
      PrefixWhole(amounts, i + 1, AsNat);
      if total + amounts[i] >= U64_LIMIT {
        return Failure(Overflow);
      }
      total := total + amounts[i];
    }
    assert amounts[..|amounts|] == amounts;
    return Success(total);
  }

  method MergeReport(assets: AssetLists, u: Utxo, report: Report) returns (r: Result<AssetLists>)
    ensures r == if ReportFits(report) then Success(MergeOne(assets, u, report)) else Failure(Overflow)
  {
    var acc := assets;
    var rest := report.Keys;
    ghost var done: Report := map[];
    MergeNone(assets, u);
    while rest != {}
      invariant rest <= report.Keys
      invariant done == map a | a in report.Keys - rest :: report[a]
      invariant ReportFits(done) && acc == MergeOne(assets, u, done)
      decreases rest
    {
      var a :| a in rest;
      rest := rest - {a};
      var amount := AddAmounts(report[a]);
      if amount.Failure? {
        assert AssetAmount(report, a) >= U64_LIMIT;
        return Failure(Overflow);
      }
      MergeEntry(assets, u, done, a, report[a]);
      done := done[a := report[a]];
      if report[a] == [] || amount.value == 0 {
        continue;
      }
      acc := acc[a := (if a in acc then acc[a] else []) + [u.(value := amount.value)]];
    }
    assert done == report;
    return Success(acc);
  }

  method MergeAssets(unspent: seq<Utxo>, outpoints: seq<OutPoint>, node: RgbNode) returns (r: Result<AssetLists>)
    requires |unspent| == |outpoints|
    ensures r == Merge(unspent, outpoints, node, |unspent|)
  {
    var assets: AssetLists := map[BITCOIN := unspent];
    for i := 0 to |unspent|
      invariant Merge(unspent, outpoints, node, i) == Success(assets)
    {
      var report := node(outpoints[i]);
      if report.None? {
        MergeFailureStays(unspent, outpoints, node, i + 1, |unspent|);
        return Failure(RgbNodeFailure);
      }
      var merged := MergeReport(assets, unspent[i], report.value);
      if merged.Failure? {
        MergeFailureStays(unspent, outpoints, node, i + 1, |unspent|);
        return merged;
      }
      assets := merged.value;
    }
    return Success(assets);
  }

  lemma {:induction false} MergeFailureStays(unspent: seq<Utxo>, partners: seq<OutPoint>, node: RgbNode, m: nat, n: nat)
    requires m <= n <= |unspent| == |partners|
    requires Merge(unspent, partners, node, m).Failure?
    ensures Merge(unspent, partners, node, n) == Merge(unspent, partners, node, m)
  {
    if m < n {
      MergeFailureStays(unspent, partners, node, m, n - 1);
    }
  }
}
