/** What runs never take back: used indexes, histories, and what a synchronization
    has found until the next one. */
module WalletProgress {
  import opened WalletTypes
  import opened Collections
  import opened CacheModel
  import opened CacheDriver
  import opened StorageModel
  import opened ChainScan
  import opened GapLimit
  import opened AssetMerge
  import opened CoinSelection
  import opened TransferModel
  import opened TransferLaws
  import opened WalletModel
  import opened WalletInvariants
  import opened WalletRuns

  // ----- fresh indexes -----

  function UsedBy(s: State, id: ContractId): map<Address, Index> {
    Entry(s.cache, id).used
  }

  /** The index a request takes on its own for a contract, if it takes one: the change
      of a transfer, even one that then fails outside, or a marked next address. */
  ghost function Allocated(env: Env, s: State, e: Event, id: ContractId): Option<Index>
    requires Possible(s, e)
  {
    match e
    case ComposeTransfer(req, w) =>
      if req.payFrom == id && id in s.contracts && PlanFor(env, s, req, w).Success? then
        (match PlanFor(env, s, req, w).value.reserved case None => None case Some((_, i)) => Some(i))
      else None
    case NextAddress(c, None, legacy, true) =>
      if c == id && Step(env, s, e).1.DerivedAddress? then Some(Step(env, s, e).1.index) else None
    case _ => None
  }

  ghost predicate Forgets(e: Event, id: ContractId) {
    e.UnuseAddress? && e.id == id
  }

  /** Without a request to forget, used addresses stay used, and an allocated index is
      one above all the others. */
  lemma UseGrows(env: Env, s: State, e: Event, id: ContractId)
    requires Possible(s, e) && !Forgets(e, id)
    ensures var s' := Step(env, s, e).0;
      && (forall i | i in UsedBy(s, id).Values :: i in UsedBy(s', id).Values)
      && (Allocated(env, s, e, id).Some? ==>
            && Allocated(env, s, e, id).value == NextUnused(UsedBy(s, id))
            && Allocated(env, s, e, id).value in UsedBy(s', id).Values)
  {
    match e
    case ComposeTransfer(req, w) => ComposeUses(env, s, req, w, id);
    case NextAddress(c, index, legacy, markUsed) => DeriveUses(env, s, c, index, legacy, markUsed, id);
    case SyncContract(c, depth, w) => SyncKeepsUse(env, s, c, depth, w);
    case UnuseAddress(c, address) => assert c != id;
    case _ =>
  }

  lemma ComposeUses(env: Env, s: State, req: TransferRequest, w: TransferWorld, id: ContractId)
    requires Possible(s, ComposeTransfer(req, w))
    ensures var s' := Compose(env, s, req, w).0;
            var taken := Allocated(env, s, ComposeTransfer(req, w), id);
      && (forall i | i in UsedBy(s, id).Values :: i in UsedBy(s', id).Values)
      && (taken.Some? ==> taken.value == NextUnused(UsedBy(s, id)) && taken.value in UsedBy(s', id).Values)
  {
    if req.payFrom in s.contracts && PlanFor(env, s, req, w).Success? {
      var d := PlanFor(env, s, req, w).value;
      PlanReserves(env, s, req, w);
      FinishEffect(env, s, req, d, w);
      if d.reserved.Some? {
        UseAdds(UsedBy(s, req.payFrom), d.reserved.value.0, d.reserved.value.1);
      }
    }
  }

  lemma DeriveUses(env: Env, s: State, c: ContractId, index: Option<Index>, legacy: bool, markUsed: bool,
                   id: ContractId)
    ensures var (s', reply) := Derive(env, s, c, index, legacy, markUsed);
      && (forall i | i in UsedBy(s, id).Values :: i in UsedBy(s', id).Values)
      && (c == id && index.None? && markUsed && reply.DerivedAddress? ==>
            reply.index == NextUnused(UsedBy(s, id)) && reply.index in UsedBy(s', id).Values)
  {
    if c in s.contracts {
      var next := NextUnused(UsedBy(s, c));
      var i := match index case None => next case Some(given) => given;
      var derived := env.addressOf(s.contracts[c].policy, i, legacy);
      if derived.Some? && !(derived.value in UsedBy(s, c) && UsedBy(s, c)[derived.value] != i) {
        UseAdds(UsedBy(s, c), derived.value, i);
      }
    }
  }

  lemma UseAdds(used: map<Address, Index>, address: Address, i: Index)
    requires address in used ==> used[address] == i
    ensures used[address := i].Values == used.Values + {i}
  {
    var more := used[address := i];
    forall j | j in used.Values
      ensures j in more.Values
    {
      var a :| a in used && used[a] == j;
      assert a in more && more[a] == j;
    }
    assert more[address] == i;
  }

  /** The indexes a run takes for a contract, in order. */
  ghost function TakenIndexes(env: Env, s: State, events: seq<Event>, id: ContractId): seq<Index>
    requires PossibleRun(env, s, events)
    decreases |events|
  {
    if events == [] then [] else
      var taken := Allocated(env, s, events[0], id);
      TakenFirst(taken) +
      TakenIndexes(env, Step(env, s, events[0]).0, events[1..], id)
  }

  ghost predicate IncreasingAbove(log: seq<Index>, used: set<Index>) {
    && (forall k, i | 0 <= k < |log| && i in used :: i < log[k])
    && (forall j, k | 0 <= j < k < |log| :: log[j] < log[k])
  }

  /** As long as nothing is forgotten and the last index stays free, the indexes a run
      takes for a contract strictly increase and lie above all that were used before,
      even if the contract is deleted and created again on the way. */
  lemma {:induction false} AllocationsIncrease(env: Env, s: State, events: seq<Event>, id: ContractId)
    requires PossibleRun(env, s, events)
    requires forall e | e in events :: !Forgets(e, id)
    requires LARGEST_INDEX !in UsedBy(Run(env, s, events), id).Values
    ensures IncreasingAbove(TakenIndexes(env, s, events, id), UsedBy(s, id).Values)
    ensures forall i | i in UsedBy(s, id).Values :: i in UsedBy(Run(env, s, events), id).Values
    decreases |events|
  {
    if events != [] {
      var s' := Step(env, s, events[0]).0;
      assert events[0] in events;
      UseGrows(env, s, events[0], id);
      AllocationsIncrease(env, s', events[1..], id);
      NextIsFresh(UsedBy(s, id));
      PrependTaken(Allocated(env, s, events[0], id), TakenIndexes(env, s', events[1..], id),
                   UsedBy(s, id).Values, UsedBy(s', id).Values);
    }
  }

  function TakenFirst(taken: Option<Index>): seq<Index> {
    match taken case None => [] case Some(i) => [i]
  }

  lemma PrependTaken(taken: Option<Index>, rest: seq<Index>, before: set<Index>, after: set<Index>)
    requires IncreasingAbove(rest, after) && before <= after
    requires taken.Some? ==> taken.value in after && forall i | i in before :: i < taken.value
    ensures IncreasingAbove(TakenFirst(taken) + rest, before)
  {
  }

  lemma {:induction false} UsedStaysUsed(env: Env, s: State, events: seq<Event>, id: ContractId, i: Index)
    requires PossibleRun(env, s, events) && forall e | e in events :: !Forgets(e, id)
    requires i in UsedBy(s, id).Values
    ensures i in UsedBy(Run(env, s, events), id).Values
    decreases |events|
  {
    if events != [] {
      assert events[0] in events;
      UseGrows(env, s, events[0], id);
      UsedStaysUsed(env, Step(env, s, events[0]).0, events[1..], id, i);
    }
  }

  /** The index an own change or a marked address was given is searched by every later
      synchronization, whatever its server answers and as long as nothing is forgotten,
      exactly when it is not the largest index. */
  lemma TakenIsSearchedExactly(env: Env, s: State, e: Event, events: seq<Event>, id: ContractId,
                               depth: nat, server: Server, tweakOrder: seq<TweakedOutput>)
    requires Possible(s, e) && Allocated(env, s, e, id).Some?
    requires PossibleRun(env, Step(env, s, e).0, events) && forall x | x in events :: !Forgets(x, id)
    requires id in Run(env, Step(env, s, e).0, events).contracts && depth >= 1
    ensures var later := Run(env, Step(env, s, e).0, events);
            var i := Allocated(env, s, e, id).value;
            var searched := Flatten(Queries(env, later, id, depth, server, tweakOrder));
      Probe(i, env.scriptOf(later.contracts[id].policy, i), None) in searched <==> i < LARGEST_INDEX
  {
    var later := Run(env, Step(env, s, e).0, events);
    var i := Allocated(env, s, e, id).value;
    UseGrows(env, s, e, id);
    UsedStaysUsed(env, Step(env, s, e).0, events, id, i);
    UsedIsSearched(server, ScriptsOf(env, later.contracts[id].policy), depth, LastUsed(UsedBy(later, id)),
                   TweakProbes(tweakOrder), i);
  }

  // ----- histories -----

  /** Requests that start a contract's record afresh. */
  ghost predicate Restarts(env: Env, e: Event, id: ContractId) {
    (e.DeleteContract? && e.id == id) || (e.CreateContract? && env.policyId(e.policy) == id)
  }

  ghost predicate Continues(before: Contract, after: Contract) {
    && before.operations <= after.operations
    && before.sentInvoices <= after.sentInvoices
    && before.tweaks <= after.tweaks
    && (forall h | h in before.blindingFactors :: h in after.blindingFactors)
    && after.policy == before.policy && after.id == before.id
  }

  lemma StepContinues(env: Env, s: State, e: Event, id: ContractId)
    requires Possible(s, e) && id in s.contracts && !Restarts(env, e, id)
    ensures id in Step(env, s, e).0.contracts
    ensures Continues(s.contracts[id], Step(env, s, e).0.contracts[id])
  {
    match e
    case ComposeTransfer(req, w) => ComposeContinues(env, s, req, w, id);
    case AddInvoiceTo(invoice, sources) => InvoiceContinues(env, s, invoice, sources, id);
    case SyncContract(c, depth, w) =>
      SyncEffect(env, s, c, depth, w);
    case _ =>
  }

  lemma ComposeContinues(env: Env, s: State, req: TransferRequest, w: TransferWorld, id: ContractId)
    requires id in s.contracts
    ensures id in Compose(env, s, req, w).0.contracts
    ensures Continues(s.contracts[id], Compose(env, s, req, w).0.contracts[id])
  {
    if req.payFrom in s.contracts && PlanFor(env, s, req, w).Success? {
      FinishEffect(env, s, req, PlanFor(env, s, req, w).value, w);
    }
  }

  lemma InvoiceContinues(env: Env, s: State, invoice: Invoice, sources: map<ContractId, Option<OutpointReveal>>,
                         id: ContractId)
    requires id in s.contracts
    ensures Continues(s.contracts[id], SpreadInvoice(env, s, invoice, sources).0.contracts[id])
  {
    if Reached(s.contracts, sources, id) {
      AddInvoiceWellFormed(s.contracts[id], invoice, env.conceal);
      AddBlindingsWellFormed(AddInvoice(s.contracts[id], invoice), OpeningList(sources[id]), env.conceal);
    }
  }

  /** Between its creation and its deletion, what a contract has recorded is only ever
      added to, whatever servers and nodes answer. */
  lemma {:induction false} HistoriesOnlyGrow(env: Env, s: State, events: seq<Event>, id: ContractId)
    requires PossibleRun(env, s, events)
    requires id in s.contracts && forall e | e in events :: !Restarts(env, e, id)
    ensures var s' := Run(env, s, events);
      id in s'.contracts && Continues(s.contracts[id], s'.contracts[id])
    decreases |events|
  {
    if events != [] {
      assert events[0] in events;
      StepContinues(env, s, events[0], id);
      HistoriesOnlyGrow(env, Step(env, s, events[0]).0, events[1..], id);
    } else {
      assert s.contracts[id].operations <= s.contracts[id].operations;
    }
  }

  /** Every record of every contract adds up, in every run in which no node reports
      bitcoin as an asset. */
  lemma HistoriesBalance(env: Env, s: State, id: ContractId, op: Operation)
    requires ReachableExactly(env, s) && id in s.contracts && op in s.contracts[id].operations
    ensures Balanced(op)
  {
    ReachableIsExact(env, s);
  }

  /** The recorded amounts: what was on offer, and what the spent coins are worth in the
      asset and in bitcoins. */
  lemma RecordedAmounts(env: Env, s: State, req: TransferRequest, w: TransferWorld, psbt: Psbt)
    requires req.payFrom in s.contracts && Possible(s, ComposeTransfer(req, w))
    requires PlanFor(env, s, req, w).Success?
    ensures var d := PlanFor(env, s, req, w).value;
            var unspent := Entry(s.cache, req.payFrom).unspent;
            var op := Record(env, req, d, psbt);
      && Candidates(unspent, req.info).Success? && BITCOIN in unspent
      && op.balanceBefore == Sum(Candidates(unspent, req.info).value, ValueOf)
      && op.bitcoinVolume == Sum(Matching(unspent[BITCOIN], SpentOutpoints(d.picked)), ValueOf)
      && (req.info.Rgb? ==> op.assetVolume == SeqSum(d.picked, ValueOf))
  {
    var entry := Entry(s.cache, req.payFrom);
    DraftFollowsChoice(entry, AddressesOf(env, s.contracts[req.payFrom].policy), env.addressScript,
                       req, w.order, w.blindings);
    ChosenAreOffered(entry.unspent, req, w.order);
    SeqSumIsSum(LargestFirst(w.order), ValueOf);
  }

  /** Creating a contract leaves the stored ones alone exactly when none is filed under
      the id of its policy, or only an untouched one with the same name. */
  lemma CreatingReplacesExactly(env: Env, s: State, policy: Policy, name: string)
    requires Injective(env) && Reachable(env, s)
    ensures var (s', reply) := Create(env, s, policy, name);
            var id := env.policyId(policy);
      && id in s'.contracts && s'.contracts[id].operations == []
      && ((forall other | other in s.contracts :: s'.contracts[other] == s.contracts[other]) <==>
          (id in s.contracts ==>
             s.contracts[id].name == name && s.contracts[id].operations == [] &&
             s.contracts[id].sentInvoices == [] && s.contracts[id].tweaks == {} &&
             s.contracts[id].blindingFactors == map[]))
  {
    ReachableIsSound(env, s);
    var id := env.policyId(policy);
    if id in s.contracts {
      assert SoundContract(env, id, s.contracts[id]);
    }
  }

  // ----- synchronization and reading -----

  function KeepPositive(list: seq<Utxo>): seq<Utxo> {
    if list == [] then [] else
      KeepPositive(list[..|list| - 1]) +
      (if list[|list| - 1].value > 0 then [list[|list| - 1]] else [])
  }

  lemma {:induction false} PositiveIsKept(list: seq<Utxo>)
    ensures Positive(list) == Elements(KeepPositive(list))
  {
    if list != [] {
      var init, last := list[..|list| - 1], list[|list| - 1];
      PositiveIsKept(init);
      assert list == init + [last];
      assert Elements(KeepPositive(list)) ==
             Elements(KeepPositive(init)) + (if last.value > 0 then {last} else {});
    }
  }

  lemma {:induction false} NothingCollapses(list: seq<Utxo>)
    requires DistinctOutpoints(list)
    ensures NoDuplicates(KeepPositive(list))
    ensures |Positive(list)| == |KeepPositive(list)|
  {
    PositiveIsKept(list);
    if list != [] {
      var init, last := list[..|list| - 1], list[|list| - 1];
      assert OutpointList(init) == OutpointList(list)[..|list| - 1];
      NothingCollapses(init);
      PositiveIsKept(init);
      assert last !in init by {
        forall i | 0 <= i < |init|
          ensures init[i] != last
        {
          assert OutpointList(list)[i] != OutpointList(list)[|list| - 1];
        }
      }
      assert last !in Elements(KeepPositive(init));
    }
    ElementsSize(KeepPositive(list));
  }

  /** Reading a contract right after a synchronization gives, asset by asset, the
      outputs of positive value it reported, all of them on known outpoints and none of
      them lost to the hash set; for bitcoin the last takes a node that does not report
      it. Servers may answer anything. */
  lemma SyncThenRead(env: Env, s: State, id: ContractId, depth: nat, w: SyncWorld)
    requires depth >= 1 && Sync(env, s, id, depth, w).1.SyncedAssets?
    ensures var (s', reply) := Sync(env, s, id, depth, w);
            var read := Step(env, s', ContractUnspent(id)).1;
      && read.UnspentOutputs?
      && read.unspent.Keys == reply.assets.Keys
      && Entry(s'.cache, id).updatedHeight == s'.cache.knownHeight == s'.knownHeight
      && forall a | a in reply.assets ::
           && read.unspent[a] == Elements(KeepPositive(reply.assets[a]))
           && OutpointsOf(read.unspent[a]) <= Entry(s'.cache, id).utxo
           && (a != BITCOIN || NoBitcoinAsset(w.node) ==> |read.unspent[a]| == |KeepPositive(reply.assets[a])|)
  {
    var (s', reply) := Sync(env, s, id, depth, w);
    SyncEffect(env, s, id, depth, w);
    var l := Discovered(env, s, id, depth, w.server.value, w.tweakOrder);
    forall a | a in reply.assets
      ensures Positive(reply.assets[a]) == Elements(KeepPositive(reply.assets[a]))
      ensures a != BITCOIN || NoBitcoinAsset(w.node) ==>
                |Positive(reply.assets[a])| == |KeepPositive(reply.assets[a])|
      ensures OutpointsOf(Positive(reply.assets[a])) <= l.outpoints
    {
      PositiveIsKept(reply.assets[a]);
      if a != BITCOIN || NoBitcoinAsset(w.node) {
        MergedAreDistinct(l, w.node, a);
        NothingCollapses(reply.assets[a]);
      }
      forall u | u in Positive(reply.assets[a])
        ensures u.Outpoint() in l.outpoints
      {
        MergedAreCopies(l, w.node, a, u);
      }
    }
  }

  /** Only a synchronization of the contract itself changes what reading it gives. */
  lemma {:induction false} ReadingIsStable(env: Env, s: State, events: seq<Event>, id: ContractId)
    requires PossibleRun(env, s, events)
    requires forall e | e in events :: !(e.SyncContract? && e.id == id)
    ensures SameReading(s.cache, Run(env, s, events).cache, id)
    decreases |events|
  {
    if events != [] {
      assert events[0] in events;
      ReadingStep(env, s, events[0], id);
      ReadingIsStable(env, Step(env, s, events[0]).0, events[1..], id);
    }
  }

  /** With no gap among the funded addresses, a synchronization leaves in the cache
      exactly the outpoints that querying every index would find. */
  lemma SyncFindsEverything(env: Env, s: State, id: ContractId, depth: nat, w: SyncWorld)
    requires depth >= 1 && Sync(env, s, id, depth, w).1.SyncedAssets?
    requires NoGap(w.server.value, ScriptsOf(env, s.contracts[id].policy), depth, LastUsed(UsedBy(s, id)))
    ensures Entry(Sync(env, s, id, depth, w).0.cache, id).utxo ==
            Discoverable(w.server.value, TweakProbes(w.tweakOrder) +
              IndexBatch(ScriptsOf(env, s.contracts[id].policy), 0, LARGEST_INDEX))
  {
    DiscoveredCoheres(env, s, id, depth, w.server.value, w.tweakOrder);
    SearchIsComplete(w.server.value, ScriptsOf(env, s.contracts[id].policy), depth, LastUsed(UsedBy(s, id)),
                     TweakProbes(w.tweakOrder), env.readAddress);
  }

  /** The line's outpoint is always listed with the same value. */
  ghost predicate ListedAlike(server: Server, probes: seq<Probe>, item: Item) {
    forall p, other | p in probes && other in server.list(p.script) &&
      other.txid == item.txid && other.pos % U16_LIMIT == item.pos % U16_LIMIT :: other.value == item.value
  }

  ghost predicate Caches(unspent: Unspent, item: Item) {
    exists u :: BITCOIN in unspent && u in unspent[BITCOIN] && u.value == item.value &&
                u.Outpoint() == OutPoint(item.txid, item.pos % U16_LIMIT)
  }

  /** Every line of the server's answers that can be placed and is worth something ends up
      in the cache as a bitcoin coin of that value, if its outpoint is listed alike. */
  lemma ListedIsCached(env: Env, s: State, id: ContractId, depth: nat, w: SyncWorld, p: Probe, item: Item)
    requires depth >= 1 && Sync(env, s, id, depth, w).1.SyncedAssets?
    requires var queried := Flatten(Queries(env, s, id, depth, w.server.value, w.tweakOrder));
      p in queried && ListedAlike(w.server.value, queried, item)
    requires item in w.server.value.list(p.script) && item.value > 0
    requires w.server.value.merkle(item.txid, item.height % U32_LIMIT).Some?
    ensures Caches(Entry(Sync(env, s, id, depth, w).0.cache, id).unspent, item)
  {
    var server := w.server.value;
    var batches := Queries(env, s, id, depth, server, w.tweakOrder);
    var l := Discovered(env, s, id, depth, server, w.tweakOrder);
    SyncEffect(env, s, id, depth, w);
    AbsorbAllEffect(server, batches, env.readAddress);
    ListedIsFound(l, server, Flatten(batches), p, item);
    var u :| u in l.unspent && u.Outpoint() == OutPoint(item.txid, item.pos % U16_LIMIT);
    FoundAsListed(server, batches, env.readAddress, u);
    var q, other :| q in Flatten(batches) && AsListed(u, server, q, other, env.readAddress);
    assert other.value == item.value;
    CoherentPairs(l);
    MergeFilesBitcoin(l.unspent, SortedOutpoints(l.outpoints), w.node, |l.unspent|);
  }

  /** With no gap this takes in every funded index below the largest. */
  lemma FundsAreCached(env: Env, s: State, id: ContractId, depth: nat, w: SyncWorld, i: Index, item: Item)
    requires depth >= 1 && Sync(env, s, id, depth, w).1.SyncedAssets? && i < LARGEST_INDEX
    requires NoGap(w.server.value, ScriptsOf(env, s.contracts[id].policy), depth, LastUsed(UsedBy(s, id)))
    requires item in w.server.value.list(env.scriptOf(s.contracts[id].policy, i)) && item.value > 0
    requires w.server.value.merkle(item.txid, item.height % U32_LIMIT).Some?
    requires ListedAlike(w.server.value, Flatten(Queries(env, s, id, depth, w.server.value, w.tweakOrder)), item)
    ensures Caches(Entry(Sync(env, s, id, depth, w).0.cache, id).unspent, item)
  {
    var scriptAt, last := ScriptsOf(env, s.contracts[id].policy), LastUsed(UsedBy(s, id));
    var tweaks := TweakProbes(w.tweakOrder);
    NoGapReaches(w.server.value, scriptAt, depth, last, tweaks, i);
    BatchesPartition(w.server.value, scriptAt, depth, last, 0, tweaks);
    var batch := IndexBatch(scriptAt, 0, FinalOffset(w.server.value, scriptAt, depth, last, 0, tweaks));
    assert batch[i] == Probe(i, scriptAt(i), None);
    ListedIsCached(env, s, id, depth, w, batch[i], item);
  }

  /** For every asset a synchronization writes in total what the node reports over all
      outpoints it found, in whatever order it found them. */
  lemma SyncConservesAssets(env: Env, s: State, id: ContractId, depth: nat, w: SyncWorld, a: AssetId)
    requires depth >= 1 && Sync(env, s, id, depth, w).1.SyncedAssets?
    requires a != BITCOIN
    ensures var (s', reply) := Sync(env, s, id, depth, w);
      SeqSum(Listed(reply.assets, a), ValueOf) == Sum(Entry(s'.cache, id).utxo, NodeAmount(w.node, a))
  {
    DiscoveredCoheres(env, s, id, depth, w.server.value, w.tweakOrder);
    MergeConserves(Discovered(env, s, id, depth, w.server.value, w.tweakOrder), w.node, a);
  }

  // ----- invoices and accepted transfers -----

  /** An invoice is refused exactly when one of its contracts is unknown; it has then
      still reached the contracts before the first unknown one, and no other. */
  lemma InvoicesReachExactly(env: Env, s: State, invoice: Invoice, sources: map<ContractId, Option<OutpointReveal>>,
                             id: ContractId)
    requires id in s.contracts
    ensures var (s', reply) := SpreadInvoice(env, s, invoice, sources);
      && (reply == Done <==> forall other | other in sources :: other in s.contracts)
      && id in s'.contracts
      && (Reached(s.contracts, sources, id) ==>
            && invoice in s'.contracts[id].sentInvoices
            && forall r | r in OpeningList(sources[id]) :: env.conceal(r) in s'.contracts[id].blindingFactors)
      && (!Reached(s.contracts, sources, id) ==> s'.contracts[id] == s.contracts[id])
      && (reply == Done ==> (Reached(s.contracts, sources, id) <==> id in sources))
  {
    if Reached(s.contracts, sources, id) {
      AddInvoiceWellFormed(s.contracts[id], invoice, env.conceal);
      assert invoice in Elements(AddInvoice(s.contracts[id], invoice).sentInvoices);
      AddBlindingsWellFormed(AddInvoice(s.contracts[id], invoice), OpeningList(sources[id]), env.conceal);
    }
  }

  /** In every run, accepting a transfer hands over exactly the known reveals that open
      one of its concealed endpoints, whatever endpoints on witness outputs come with it. */
  lemma AcceptOpensEndpoints(env: Env, s: State, endpoints: seq<Endpoint>)
    requires Reachable(env, s)
    ensures Accept(s, endpoints, Some(true), true) ==
            Validated(set r | r in KnownOpenings(s.contracts) && ConcealedEndpoint(env.conceal(r)) in endpoints)
  {
    ReachableIsSound(env, s);
    forall id | id in s.contracts
      ensures WellFormed(s.contracts[id], env.conceal)
    {
      assert SoundContract(env, id, s.contracts[id]);
    }
    OpeningsOpenEndpoints(s.contracts, ConcealedHashes(endpoints), env.conceal);
    forall h
      ensures h in ConcealedHashes(endpoints) <==> ConcealedEndpoint(h) in endpoints
    {
      HashesAreConcealed(endpoints, h);
    }
  }

  lemma {:induction false} HashesAreConcealed(endpoints: seq<Endpoint>, h: OutpointHash)
    ensures h in ConcealedHashes(endpoints) <==> ConcealedEndpoint(h) in endpoints
  {
    if endpoints != [] {
      var init, last := endpoints[..|endpoints| - 1], endpoints[|endpoints| - 1];
      HashesAreConcealed(init, h);
      assert endpoints == init + [last];
    }
  }
}
