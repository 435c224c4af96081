/** What each request answers and leaves behind, in terms of the request, the state before
    and what the outside world contributes. */
module WalletOutcomes {
  import opened WalletTypes
  import opened Collections
  import opened CacheModel
  import opened CacheDriver
  import opened StorageModel
  import opened ChainScan
  import opened DiscoveryOrder
  import opened GapLimit
  import opened AssetMerge
  import opened TransferModel
  import opened WalletModel
  import opened WalletRuns
  import opened WalletProgress

  // ----- synchronization -----

  /** A synchronization finds the outputs of earlier batches first, and those of one batch
      by height, by transaction id and in the order of the answers. */
  lemma DiscoveredInOrder(env: Env, s: State, id: ContractId, depth: nat, server: Server,
                          order: seq<TweakedOutput>, k: nat)
    requires id in s.contracts && depth >= 1 && k < |Queries(env, s, id, depth, server, order)|
    ensures var batches := Queries(env, s, id, depth, server, order);
            var before, after := FoundBy(server, batches, k, env.readAddress),
                                 FoundBy(server, batches, k + 1, env.readAddress);
      && before <= after <= Discovered(env, s, id, depth, server, order).unspent
      && InDiscoveryOrder(Hits(server, batches[k]), server, after[|before|..], env.readAddress)
  {
    SearchFindsInOrder(server, Queries(env, s, id, depth, server, order), k, env.readAddress);
  }

  /** The node answers for this outpoint, with amounts that can be added up. */
  predicate Reported(node: RgbNode, o: OutPoint) {
    node(o).Some? && forall a | a in node(o).value :: SeqSum(node(o).value[a], AsNat) < U64_LIMIT
  }

  lemma {:induction false} MergeEndsExactly(unspent: seq<Utxo>, partners: seq<OutPoint>, node: RgbNode, n: nat)
    returns (k: nat)
    requires n <= |unspent| == |partners|
    ensures k <= n && forall j | 0 <= j < k :: Reported(node, partners[j])
    ensures k == n ==> Merge(unspent, partners, node, n).Success?
    ensures k < n ==>
      && !Reported(node, partners[k])
      && Merge(unspent, partners, node, n) ==
         Failure(if node(partners[k]).None? then RgbNodeFailure else Overflow)
  {
    k := 0;
    if n > 0 {
      k := MergeEndsExactly(unspent, partners, node, n - 1);
      if k == n - 1 && node(partners[k]).Some? {
        ReportedFits(node, partners[k]);
        if Reported(node, partners[k]) {
          k := n;
        }
      }
    }
  }

  lemma ReportedFits(node: RgbNode, o: OutPoint)
    requires node(o).Some?
    ensures Reported(node, o) <==> ReportFits(node(o).value)
  {
    var report := node(o).value;
    forall a | a in report
      ensures AssetAmount(report, a) == SeqSum(report[a], AsNat)
    {
    }
  }

  /** The first of the outpoints, in their order, that the node fails to report. */
  ghost predicate FirstUnreported(node: RgbNode, outpoints: set<OutPoint>, o: OutPoint) {
    o in outpoints && !Reported(node, o) &&
    forall p | p in outpoints && OutpointBefore(p, o) :: Reported(node, p)
  }

  /** The merge fails exactly when some outpoint is not reported, and with the error of
      the first. */
  lemma MergedExactly(l: Ledger, node: RgbNode)
    requires Coherent(l)
    ensures MergedAssets(l, node).Success? <==> forall o | o in l.outpoints :: Reported(node, o)
    ensures MergedAssets(l, node).Failure? ==>
      exists o :: FirstUnreported(node, l.outpoints, o) &&
                  MergedAssets(l, node).error == if node(o).None? then RgbNodeFailure else Overflow
  {
    var sorted := SortedOutpoints(l.outpoints);
    CoherentPairs(l);
    SortedIsInOrder(l.outpoints);
    var k := MergeEndsExactly(l.unspent, sorted, node, |l.unspent|);
    if k < |sorted| {
      FirstIsUnreported(node, sorted, l.outpoints, k);
    } else {
      AllAreReported(node, sorted, l.outpoints);
    }
  }

  lemma FirstIsUnreported(node: RgbNode, sorted: seq<OutPoint>, outpoints: set<OutPoint>, k: nat)
    requires InOutpointOrder(sorted) && Elements(sorted) == outpoints && k < |sorted|
    requires !Reported(node, sorted[k]) && forall j | 0 <= j < k :: Reported(node, sorted[j])
    ensures FirstUnreported(node, outpoints, sorted[k])
  {
    assert sorted[k] in Elements(sorted);
    forall p | p in outpoints && OutpointBefore(p, sorted[k])
      ensures Reported(node, p)
    {
      var j :| 0 <= j < |sorted| && sorted[j] == p;
      assert j < k;
    }
  }

  lemma AllAreReported(node: RgbNode, sorted: seq<OutPoint>, outpoints: set<OutPoint>)
    requires Elements(sorted) == outpoints && forall j | 0 <= j < |sorted| :: Reported(node, sorted[j])
    ensures forall o | o in outpoints :: Reported(node, o)
  {
    forall o | o in outpoints
      ensures Reported(node, o)
    {
      var j :| 0 <= j < |sorted| && sorted[j] == o;
    }
  }

  /** All planned batches are answered. */
  ghost predicate AllAnswered(server: Server, batches: seq<seq<Probe>>) {
    forall k: nat | k < |batches| :: server.answers(k)
  }

  /** A synchronization fails for a missing server, an unknown contract, an unanswered
      batch or an unreported outpoint. It learns the height of the last header once its
      search is through, and changes the cache only if it succeeds. */
  lemma SyncOutcome(env: Env, s: State, id: ContractId, depth: nat, w: SyncWorld)
    requires depth >= 1
    ensures var (s', reply) := Sync(env, s, id, depth, w);
      && s'.contracts == s.contracts
      && if w.server.None? then s' == s && reply == Refused(ElectrumFailure)
         else if id !in s.contracts then s' == s && reply == Refused(ContractNotFound)
         else if !AllAnswered(w.server.value, Queries(env, s, id, depth, w.server.value, w.tweakOrder))
         then s' == s && reply == Refused(ElectrumFailure)
         else
           var l := Discovered(env, s, id, depth, w.server.value, w.tweakOrder);
           && s'.knownHeight == (if w.headers == [] then s.knownHeight
                                 else w.headers[|w.headers| - 1] % 0x1_0000_0000)
           && if forall o | o in l.outpoints :: Reported(w.node, o)
              then reply.SyncedAssets? && s'.cache.knownHeight == s'.knownHeight
              else s'.cache == s.cache && reply.Refused? &&
                   exists o :: FirstUnreported(w.node, l.outpoints, o) &&
                               reply.error == if w.node(o).None? then RgbNodeFailure else Overflow
  {
    if w.server.Some? && id in s.contracts {
      var batches := Queries(env, s, id, depth, w.server.value, w.tweakOrder);
      AnsweredEach(w.server.value, |batches|);
      DiscoveredCoheres(env, s, id, depth, w.server.value, w.tweakOrder);
      MergedExactly(Discovered(env, s, id, depth, w.server.value, w.tweakOrder), w.node);
    }
  }

  // ----- addresses -----

  /** The next unused index follows a used one or is 0, and it is 0 exactly when nothing is
      used or the largest index is; the last used index is the largest one used. */
  lemma NextFollowsUsed(used: map<Address, Index>)
    ensures NextUnused(used) == 0 || NextUnused(used) - 1 in used.Values
    ensures NextUnused(used) == 0 <==> used.Values == {} || LARGEST_INDEX in used.Values
    ensures LARGEST_INDEX !in used.Values ==> NextUnused(used) !in used.Values
    ensures forall i | i in used.Values :: i <= LastUsed(used)
    ensures LastUsed(used) in used.Values || (used.Values == {} && LastUsed(used) == 0)
  {
  }

  predicate Follows(i: Index, used: set<Index>) {
    if used == {} || LARGEST_INDEX in used then i == 0 else i > 0 && i - 1 in used && i !in used
  }

  /** An index taken by a request is 0 or follows one that was used, and is 0 only if
      nothing was used or the largest index was. */
  lemma TakenFollowsUsed(env: Env, s: State, e: Event, id: ContractId)
    requires Possible(s, e) && !Forgets(e, id) && Allocated(env, s, e, id).Some?
    ensures Follows(Allocated(env, s, e, id).value, UsedBy(s, id).Values)
  {
    UseGrows(env, s, e, id);
    NextFollows(UsedBy(s, id));
  }

  lemma NextFollows(used: map<Address, Index>)
    ensures Follows(NextUnused(used), used.Values)
  {
    NextFollowsUsed(used);
  }

  /** All but this contract's used addresses stays as it is. */
  ghost predicate OnlyUses(s: State, s': State, id: ContractId, used: map<Address, Index>) {
    && s'.contracts == s.contracts && s'.knownHeight == s.knownHeight
    && s'.cache.mineInfo == s.cache.mineInfo && s'.cache.knownHeight == s.cache.knownHeight
    && Entry(s'.cache, id) == Entry(s.cache, id).(used := used)
    && forall other | other != id :: Entry(s'.cache, other) == Entry(s.cache, other)
  }

  /** An address is derived at the requested index, or at the next one, and is marked as
      used exactly when that was asked for; it is refused when it cannot be derived, or
      cannot be marked because it is used at another index. */
  lemma AddressOutcome(env: Env, s: State, id: ContractId, index: Option<Index>, legacy: bool, markUsed: bool)
    ensures var (s', reply) := Derive(env, s, id, index, legacy, markUsed);
            var used := Entry(s.cache, id).used;
            var i := if index.Some? then index.value else NextUnused(used);
      if id !in s.contracts then s' == s && reply == Refused(ContractNotFound)
      else
        var address := env.addressOf(s.contracts[id].policy, i, legacy);
        if address.None? || (markUsed && address.value in used && used[address.value] != i)
        then s' == s && reply == Refused(NoAddress)
        else reply == DerivedAddress(address.value, i) &&
             if markUsed then OnlyUses(s, s', id, used[address.value := i]) else s' == s
  {
    if id in s.contracts {
      var i := if index.Some? then index.value else NextUnused(Entry(s.cache, id).used);
      var address := env.addressOf(s.contracts[id].policy, i, legacy);
      if address.Some? && OnContract(s.cache, id, UseAddress(address.value, i)).1.Failure? {
        FailedChangeChangesNothing(s.cache, id, address.value, i);
      }
    }
  }

  /** Releasing an address makes its index free again and touches nothing else. */
  lemma ReleaseOutcome(env: Env, s: State, id: ContractId, address: Address)
    ensures var (s', reply) := Step(env, s, UnuseAddress(id, address));
      reply == Done && OnlyUses(s, s', id, Entry(s.cache, id).used - {address})
  {
  }

  // ----- contracts -----

  /** Creating files an empty contract under the id of its policy, renaming changes the
      name, deleting removes the contract; an unknown id is refused, the cache stays. */
  lemma ContractOutcome(env: Env, s: State, policy: Policy, id: ContractId, name: string)
    ensures var (s', reply) := Step(env, s, CreateContract(policy, name));
            var c := Contract(env.policyId(policy), name, policy, map[], [], {}, []);
      s' == s.(contracts := s.contracts[env.policyId(policy) := c]) && reply == Created(c)
    ensures var (s', reply) := Step(env, s, RenameContract(id, name));
      if id !in s.contracts then s' == s && reply == Refused(ContractNotFound)
      else s' == s.(contracts := s.contracts[id := s.contracts[id].(name := name)]) && reply == Done
    ensures var (s', reply) := Step(env, s, DeleteContract(id));
      if id !in s.contracts then s' == s && reply == Refused(ContractNotFound)
      else reply == Done && s'.cache == s.cache && s'.knownHeight == s.knownHeight &&
           (forall other :: other in s'.contracts <==> other in s.contracts && other != id) &&
           (forall other | other in s'.contracts :: s'.contracts[other] == s.contracts[other])
  {
  }

  /** Reading changes nothing; a restart only replaces the known height. */
  lemma ReadingOutcome(env: Env, s: State, id: ContractId, height: u32)
    ensures Step(env, s, ContractUnspent(id)) ==
            (s, UnspentOutputs(if id in s.cache.descriptors then s.cache.descriptors[id].unspent else map[]))
    ensures Step(env, s, ContractOperations(id)) ==
            (s, if id in s.contracts then Operations(s.contracts[id].operations) else Refused(ContractNotFound))
    ensures Step(env, s, Restart(height)) == (State(s.contracts, s.cache, height), Done)
  {
  }

  /** An invoice leaves the cache alone, and of a contract it reaches everything but the
      invoices and the blinding factors. */
  lemma InvoiceOutcome(env: Env, s: State, invoice: Invoice, sources: map<ContractId, Option<OutpointReveal>>,
                       id: ContractId)
    requires id in s.contracts
    ensures var s' := Step(env, s, AddInvoiceTo(invoice, sources)).0;
            var reached := id in sources && forall x | x in sources && x.digest <= id.digest :: x in s.contracts;
      && s'.cache == s.cache && s'.knownHeight == s.knownHeight && s'.contracts.Keys == s.contracts.Keys
      && var before, after := s.contracts[id], s'.contracts[id];
         if !reached then after == before
         else
           && after.sentInvoices == (if invoice in before.sentInvoices then before.sentInvoices
                                     else before.sentInvoices + [invoice])
           && after.blindingFactors ==
              (match sources[id] case None => before.blindingFactors
               case Some(r) => before.blindingFactors[env.conceal(r) := r])
           && after == before.(sentInvoices := after.sentInvoices, blindingFactors := after.blindingFactors)
  {
    assert Reached(s.contracts, sources, id) <==>
      id in sources && forall x | x in sources && x.digest <= id.digest :: x in s.contracts;
    if id in sources && sources[id].Some? {
      OneBlinding(AddInvoice(s.contracts[id], invoice), sources[id].value, env.conceal);
    }
  }

  lemma OneBlinding(c: Contract, r: OutpointReveal, conceal: Concealer)
    ensures AddBlindings(c, [r], conceal) == c.(blindingFactors := c.blindingFactors[conceal(r) := r])
  {
    assert [r][..0] == [];
    assert AddBlindings(c, [], conceal) == c;
  }

  // ----- accepted transfers -----

  predicate KnownOpening(contracts: Contracts, r: OutpointReveal) {
    exists id, h :: id in contracts && h in contracts[id].blindingFactors && contracts[id].blindingFactors[h] == r
  }

  /** In every run, accepting a transfer is refused exactly when the node fails, and hands
      over an opening exactly when the transfer is valid, the node accepted it, and the
      opening is known and opens one of its concealed endpoints. */
  lemma AcceptOutcome(env: Env, s: State, endpoints: seq<Endpoint>, valid: Option<bool>, accepted: bool)
    requires Reachable(env, s)
    ensures var (s', reply) := Step(env, s, AcceptTransfer(endpoints, valid, accepted));
      && s' == s
      && (reply == Refused(RgbNodeFailure) <==> valid.None? || (valid.value && !accepted))
      && (reply.Validated? <==> valid.Some? && (valid.value ==> accepted))
      && (reply.Validated? ==> forall r :: r in reply.openings <==>
            valid == Some(true) && KnownOpening(s.contracts, r) && ConcealedEndpoint(env.conceal(r)) in endpoints)
  {
    AcceptOpensEndpoints(env, s, endpoints);
    forall r
      ensures r in KnownOpenings(s.contracts) <==> KnownOpening(s.contracts, r)
    {
    }
  }
}
