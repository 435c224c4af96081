/** The search loops over the server's answers, proved against their specification. */
module ChainSync {
  import opened WalletTypes
  import opened ChainScan
  import opened GapLimit

  lemma GroupPush(hits: seq<Hit>, h: Hit)
    ensures Group(hits + [h]) == Push(Group(hits), h)
  {
    assert (hits + [h])[..|hits + [h]| - 1] == hits;
  }

  lemma HitsStep(server: Server, probes: seq<Probe>, i: nat)
    requires i < |probes|
    ensures Hits(server, probes[..i + 1]) ==
            Hits(server, probes[..i]) + HitsOf(probes[i], server.list(probes[i].script))
  {
    assert probes[..i + 1][..i] == probes[..i];
  }

  lemma HitsOfStep(p: Probe, items: seq<Item>, j: nat)
    requires j < |items|
    ensures HitsOf(p, items[..j + 1]) == HitsOf(p, items[..j]) + [HitOf(p, items[j])]
  {
    assert items[..j + 1][..j] == items[..j];
  }

  /** The scripts of a range, keyed by index; the checked increment never fails. */
  method DeriveScripts(scriptAt: ScriptAt, from: Index, to: Index) returns (scripts: map<Index, Script>)
    ensures scripts == map i: Index | from <= i < to :: scriptAt(i)
  {
    scripts := map[];
    var index := from;
    while index < to
      invariant from <= index && (index <= to || index == from)
      invariant scripts == map i: Index | from <= i < index :: scriptAt(i)
    {
      scripts := scripts[index := scriptAt(index)];
      var next := CheckedAdd(index, 1);
      match next {
        case Some(i) => index := i;
        case None => assert false;
      }
    }
  }

  /** The derived scripts in the order of their indexes. */
  method NextScripts(scriptAt: ScriptAt, from: Index, to: Index) returns (scripts: seq<Probe>)
    requires from <= to
    ensures scripts == IndexBatch(scriptAt, from, to)
  {
    var derived := DeriveScripts(scriptAt, from, to);
    scripts := seq(to - from, k requires 0 <= k < to - from =>
      Probe(from + k, derived[from + k], None));
  }

  method CollectHits(server: Server, probes: seq<Probe>) returns (groups: map<TxKey, seq<Found>>, count: nat)
    ensures groups == Group(Hits(server, probes))
    ensures count == |Hits(server, probes)|
  {
    groups, count := map[], 0;
    for i := 0 to |probes|
      invariant groups == Group(Hits(server, probes[..i]))
      invariant count == |Hits(server, probes[..i])|
    {
      var p := probes[i];
      var items := server.list(p.script);
      ghost var before := Hits(server, probes[..i]);
      assert before + HitsOf(p, items[..0]) == before;
      for j := 0 to |items|
        invariant groups == Group(before + HitsOf(p, items[..j]))
        invariant count == |before| + |HitsOf(p, items[..j])|
      {
        var h := HitOf(p, items[j]);
        HitsOfStep(p, items, j);
        GroupPush(before + HitsOf(p, items[..j]), h);
        assert before + HitsOf(p, items[..j]) + [h] == before + HitsOf(p, items[..j + 1]);
        groups := Push(groups, h);
        count := count + 1;
      }
      assert items[..|items|] == items;
      HitsStep(server, probes, i);
    }
    assert probes[..|probes|] == probes;
  }

  method AddFound(l: Ledger, key: TxKey, pos: nat, outs: seq<Found>, readAddress: Script -> Option<Address>)
    returns (r: Ledger)
    ensures r == AddOutputs(l, key, pos, outs, readAddress)
  {
    r := l;
    for i := 0 to |outs|
      invariant r == AddOutputs(l, key, pos, outs[..i], readAddress)
    {
      assert outs[..i + 1][..i] == outs[..i];
      var o := OutPoint(key.txid, outs[i].vout);
      if o in r.outpoints {
        continue;
      }
      r := r.(outpoints := r.outpoints + {o},
              unspent := r.unspent + [UtxoOf(key, pos, outs[i], readAddress)]);
    }
    assert outs[..|outs|] == outs;
  }

  method PlaceTransaction(l: Ledger, server: Server, key: TxKey, outs: seq<Found>,
                          readAddress: Script -> Option<Address>)
    returns (r: Ledger)
    ensures r == AddTransaction(l, server, key, outs, readAddress)
  {
    match server.merkle(key.txid, key.height) {
      case Some(pos) =>
        r := l.(mineInfo := l.mineInfo[BlockPos(key.height, pos % U16_LIMIT) := key.txid]);
        r := AddFound(r, key, pos, outs, readAddress);
      case None =>
        r := l;
    }
  }

  lemma TransactionsStep(l: Ledger, server: Server, groups: map<TxKey, seq<Found>>, keys: seq<TxKey>, i: nat,
                         readAddress: Script -> Option<Address>)
    requires i < |keys| && forall k | k in keys :: k in groups
    ensures AddTransactions(l, server, groups, keys[..i + 1], readAddress) ==
            AddTransaction(AddTransactions(l, server, groups, keys[..i], readAddress),
                           server, keys[i], groups[keys[i]], readAddress)
  {
    assert keys[..i + 1][..i] == keys[..i];
  }

  method ResolveTransactions(l: Ledger, server: Server, groups: map<TxKey, seq<Found>>, keys: seq<TxKey>,
                             readAddress: Script -> Option<Address>)
    returns (r: Ledger)
    requires forall k | k in keys :: k in groups
    ensures r == AddTransactions(l, server, groups, keys, readAddress)
  {
    r := l;
    for i := 0 to |keys|
      invariant r == AddTransactions(l, server, groups, keys[..i], readAddress)
    {
      TransactionsStep(l, server, groups, keys, i, readAddress);
      r := PlaceTransaction(r, server, keys[i], groups[keys[i]], readAddress);
    }
    assert keys[..|keys|] == keys;
  }

  /** One batch: query the scripts, then place and de-duplicate what was found. */
  method AbsorbBatch(l: Ledger, server: Server, scripts: seq<Probe>, readAddress: Script -> Option<Address>)
    returns (r: Ledger, count: nat)
    ensures r == Absorb(l, server, scripts, readAddress)
    ensures count == |Hits(server, scripts)|
  {
    var groups;
    groups, count := CollectHits(server, scripts);
    SortedKeysAreKeys(groups);
    r := ResolveTransactions(l, server, groups, SortedKeys(groups), readAddress);
  }

  lemma AbsorbStep(server: Server, batches: seq<seq<Probe>>, b: seq<Probe>, readAddress: Script -> Option<Address>)
    ensures AbsorbAll(server, batches + [b], readAddress) ==
            Absorb(AbsorbAll(server, batches, readAddress), server, b, readAddress)
  {
    assert (batches + [b])[..|batches + [b]| - 1] == batches;
  }

  /** What is left of the plan behind its first batch. */
  lemma BatchesAfter(server: Server, scriptAt: ScriptAt, depth: nat, last: Index, offset: Index,
                     scripts: seq<Probe>, rest: seq<seq<Probe>>)
    returns (left: seq<seq<Probe>>)
    requires depth >= 1 && rest == Batches(server, scriptAt, depth, last, offset, scripts)
    ensures rest == [scripts] + left
    ensures var next := NextOffset(offset, depth);
      left == if Stops(server, scripts, offset, last) then []
              else Batches(server, scriptAt, depth, last, next, IndexBatch(scriptAt, offset, next))
  {
    left := rest[1..];
  }

  /** What sending one batch does to the plan, and what it takes to be answered. */
  lemma BatchSent(sent: seq<seq<Probe>>, server: Server, scriptAt: ScriptAt, depth: nat, last: Index, offset: Index,
                  scripts: seq<Probe>, rest: seq<seq<Probe>>)
    returns (left: seq<seq<Probe>>)
    requires depth >= 1 && rest == Batches(server, scriptAt, depth, last, offset, scripts)
    ensures sent + rest == (sent + [scripts]) + left
    ensures var next := NextOffset(offset, depth);
      left == if Stops(server, scripts, offset, last) then []
              else Batches(server, scriptAt, depth, last, next, IndexBatch(scriptAt, offset, next))
    ensures Answered(server, |sent + [scripts]|) <==> Answered(server, |sent|) && server.answers(|sent|)
    ensures !server.answers(|sent|) ==> !Answered(server, |sent + rest|)
  {
    left := BatchesAfter(server, scriptAt, depth, last, offset, scripts, rest);
    JoinAfter(sent, scripts, left);
    AnsweredMore(server, |sent|, |sent + rest|);
  }

  lemma JoinAfter(sent: seq<seq<Probe>>, scripts: seq<Probe>, left: seq<seq<Probe>>)
    ensures sent + ([scripts] + left) == (sent + [scripts]) + left
  {
  }

  lemma AnsweredMore(server: Server, n: nat, total: nat)
    requires n < total
    ensures Answered(server, n + 1) <==> Answered(server, n) && server.answers(n)
    ensures !server.answers(n) ==> !Answered(server, total)
  {
    AnsweredEach(server, total);
  }

  /** The search loop, with the batches it sent to the server. It fails at the first
      batch that is not answered. */
  method Search(server: Server, scriptAt: ScriptAt, depth: nat, last: Index, tweaks: seq<Probe>,
                readAddress: Script -> Option<Address>)
    returns (found: Ledger, queried: seq<seq<Probe>>, ok: bool)
    requires depth >= 1
    ensures queried <= Batches(server, scriptAt, depth, last, 0, tweaks)
    ensures ok <==> Answered(server, |Batches(server, scriptAt, depth, last, 0, tweaks)|)
    ensures ok ==> queried == Batches(server, scriptAt, depth, last, 0, tweaks)
    ensures found == AbsorbAll(server, queried, readAddress)
  {
    found, queried, ok := EMPTY_LEDGER, [], true;
    var offset: Index := 0;
    var scripts := tweaks;
    ghost var plan := Batches(server, scriptAt, depth, last, 0, tweaks);
    ghost var rest := plan;
    assert queried + rest == plan;
    while true
      invariant rest == Batches(server, scriptAt, depth, last, offset, scripts)
      invariant ok && queried + rest == plan
      invariant found == AbsorbAll(server, queried, readAddress)
      invariant Answered(server, |queried|)
      decreases LARGEST_INDEX - offset
    {
      AbsorbStep(server, queried, scripts, readAddress);
      rest := BatchSent(queried, server, scriptAt, depth, last, offset, scripts, rest);
      if !server.answers(|queried|) {
        ok := false;
        break;
      }
      var count;
      found, count := AbsorbBatch(found, server, scripts, readAddress);
      queried := queried + [scripts];
      if count == 0 && offset > last {
        break;
      }
      if offset == LARGEST_INDEX {
        break;
      }
      var from := offset;
      offset := NextOffset(offset, depth);
      scripts := NextScripts(scriptAt, from, offset);
    }
  }
}
