/** What the wallet stores about each contract. */
module StorageModel {
  import opened WalletTypes
  import opened Collections

  datatype OutpointHash = OutpointHash(digest: nat)
  datatype OutpointReveal = OutpointReveal(blinding: u64, outpoint: OutPoint)
  type Concealer = OutpointReveal -> OutpointHash

  datatype TxOut = TxOut(value: u64, script: Script)
  datatype Psbt = Psbt(inputs: seq<OutPoint>, outputs: seq<TxOut>)

  /** A record of an outgoing payment; RGB payments come with a disclosure. */
  datatype Operation = Operation(
    assetChange: u64,
    bitcoinChange: u64,
    changeOutputs: set<nat>,
    giveaway: Option<u64>,
    outputIndexes: set<Index>,
    invoice: Invoice,
    balanceBefore: u64,
    bitcoinVolume: u64,
    assetVolume: u64,
    bitcoinValue: u64,
    assetValue: u64,
    txFee: u64,
    txid: Txid,
    psbt: Psbt,
    disclosed: bool)

  datatype Contract = Contract(
    id: ContractId,
    name: string,
    policy: Policy,
    blindingFactors: map<OutpointHash, OutpointReveal>,
    sentInvoices: seq<Invoice>,
    tweaks: set<TweakedOutput>,
    operations: seq<Operation>)

  type Contracts = map<ContractId, Contract>

  function NewContract(id: ContractId, name: string, policy: Policy): Contract {
    Contract(id, name, policy, map[], [], {}, [])
  }

  function AddInvoice(c: Contract, invoice: Invoice): Contract {
    if invoice in c.sentInvoices then c else c.(sentInvoices := c.sentInvoices + [invoice])
  }

  function AddBlinding(c: Contract, opening: OutpointReveal, conceal: Concealer): Contract {
    c.(blindingFactors := c.blindingFactors[conceal(opening) := opening])
  }

  function AddBlindings(c: Contract, openings: seq<OutpointReveal>, conceal: Concealer): Contract {
    if openings == [] then c
    else AddBlinding(AddBlindings(c, openings[..|openings| - 1], conceal), openings[|openings| - 1], conceal)
  }

  /** Invoices are listed once and every blinding factor opens its own hash. */
  ghost predicate WellFormed(c: Contract, conceal: Concealer) {
    && NoDuplicates(c.sentInvoices)
    && forall h | h in c.blindingFactors :: conceal(c.blindingFactors[h]) == h
  }

  /** Adding openings files each of them under its own hash and touches nothing else. */
  lemma {:induction false} AddBlindingsWellFormed(c: Contract, openings: seq<OutpointReveal>, conceal: Concealer)
    ensures var c' := AddBlindings(c, openings, conceal);
      && (WellFormed(c, conceal) ==> WellFormed(c', conceal))
      && c' == c.(blindingFactors := c'.blindingFactors)
      && (forall h | h in c.blindingFactors :: h in c'.blindingFactors)
      && (forall r | r in openings :: conceal(r) in c'.blindingFactors)
  {
    if openings != [] {
      AddBlindingsWellFormed(c, openings[..|openings| - 1], conceal);
    }
  }

  lemma AddInvoiceWellFormed(c: Contract, invoice: Invoice, conceal: Concealer)
    ensures var c' := AddInvoice(c, invoice);
      && (WellFormed(c, conceal) ==> WellFormed(c', conceal))
      && Elements(c'.sentInvoices) == Elements(c.sentInvoices) + {invoice}
  {
    if invoice !in c.sentInvoices {
      assert Elements(c.sentInvoices + [invoice]) == Elements(c.sentInvoices) + {invoice};
    } else {
      assert invoice in Elements(c.sentInvoices);
    }
  }

  // ----- several contracts at once -----

  /** The outcome of one storage call on one contract. */
  function InvoiceOne(contracts: Contracts, id: ContractId, invoice: Invoice, openings: seq<OutpointReveal>,
                      conceal: Concealer): Contracts {
    if id in contracts
    then contracts[id := AddBlindings(AddInvoice(contracts[id], invoice), openings, conceal)]
    else contracts
  }

  function IdRank(id: ContractId): int {
    id.digest
  }

  function OpeningList(opening: Option<OutpointReveal>): seq<OutpointReveal> {
    match opening case None => [] case Some(r) => [r]
  }

  /** The contracts an invoice reaches: those before the first unknown one. */
  predicate Reached(contracts: Contracts, sources: map<ContractId, Option<OutpointReveal>>, id: ContractId) {
    id in sources && forall other | other in sources && IdRank(other) <= IdRank(id) :: other in contracts
  }

  function InvoiceAll(contracts: Contracts, invoice: Invoice, sources: map<ContractId, Option<OutpointReveal>>,
                      conceal: Concealer): Contracts {
    map id | id in contracts ::
      if Reached(contracts, sources, id)
      then AddBlindings(AddInvoice(contracts[id], invoice), OpeningList(sources[id]), conceal)
      else contracts[id]
  }

  /** The first n storage calls of the loop over the sources. */
  function InvoiceFirst(contracts: Contracts, invoice: Invoice, sources: map<ContractId, Option<OutpointReveal>>,
                        ids: seq<ContractId>, n: nat, conceal: Concealer): Contracts
    requires n <= |ids| && forall id | id in ids :: id in sources
  {
    if n == 0 then contracts
    else InvoiceOne(InvoiceFirst(contracts, invoice, sources, ids, n - 1, conceal),
                    ids[n - 1], invoice, OpeningList(sources[ids[n - 1]]), conceal)
  }

  lemma {:induction false} InvoiceFirstEffect(contracts: Contracts, invoice: Invoice,
                                              sources: map<ContractId, Option<OutpointReveal>>,
                                              ids: seq<ContractId>, n: nat, conceal: Concealer)
    requires n <= |ids| && NoDuplicates(ids) && forall id | id in ids :: id in sources
    ensures var after := InvoiceFirst(contracts, invoice, sources, ids, n, conceal);
      && after.Keys == contracts.Keys
      && forall id | id in contracts ::
           after[id] == if id in ids[..n]
                        then AddBlindings(AddInvoice(contracts[id], invoice), OpeningList(sources[id]), conceal)
                        else contracts[id]
  {
    if n > 0 {
      InvoiceFirstEffect(contracts, invoice, sources, ids, n - 1, conceal);
      assert ids[..n] == ids[..n - 1] + [ids[n - 1]];
      assert ids[n - 1] !in ids[..n - 1];
    }
  }

  lemma {:induction false} InvoiceFirstKeys(contracts: Contracts, invoice: Invoice,
                                            sources: map<ContractId, Option<OutpointReveal>>,
                                            ids: seq<ContractId>, n: nat, conceal: Concealer)
    requires n <= |ids| && forall id | id in ids :: id in sources
    ensures InvoiceFirst(contracts, invoice, sources, ids, n, conceal).Keys == contracts.Keys
  {
    if n > 0 {
      InvoiceFirstKeys(contracts, invoice, sources, ids, n - 1, conceal);
    }
  }

  lemma IdRanksApart(s: set<ContractId>)
    ensures RanksApart(s, IdRank)
  {
  }

  /** Stopping at the first unknown contract, in the order of ids, reaches exactly the
      contracts all of whose predecessors are known. */
  lemma StoppedIsAll(contracts: Contracts, invoice: Invoice, sources: map<ContractId, Option<OutpointReveal>>,
                     ids: seq<ContractId>, n: nat, conceal: Concealer)
    requires StrictlyAscending(ids, IdRank) && Elements(ids) == sources.Keys
    requires n <= |ids| && forall k | 0 <= k < n :: ids[k] in contracts
    requires n < |ids| ==> ids[n] !in contracts
    ensures (forall id | id in ids :: id in sources) &&
      InvoiceFirst(contracts, invoice, sources, ids, n, conceal) == InvoiceAll(contracts, invoice, sources, conceal)
  {
    AscendingIsDistinct(ids, IdRank);
    ListedInAll(ids, sources.Keys);
    InvoiceFirstEffect(contracts, invoice, sources, ids, n, conceal);
    forall id
      ensures id in ids[..n] <==> Reached(contracts, sources, id)
    {
      ReachedIsFirst(contracts, sources, ids, n, id);
    }
    var after := InvoiceFirst(contracts, invoice, sources, ids, n, conceal);
    SameEffect(contracts, invoice, sources, ids[..n], after, conceal);
  }

  lemma SameEffect(contracts: Contracts, invoice: Invoice, sources: map<ContractId, Option<OutpointReveal>>,
                   reached: seq<ContractId>, after: Contracts, conceal: Concealer)
    requires forall id :: id in reached <==> Reached(contracts, sources, id)
    requires forall id | id in reached :: id in sources
    requires after.Keys == contracts.Keys
    requires forall id | id in contracts ::
      after[id] == if id in reached
                   then AddBlindings(AddInvoice(contracts[id], invoice), OpeningList(sources[id]), conceal)
                   else contracts[id]
    ensures after == InvoiceAll(contracts, invoice, sources, conceal)
  {
  }

  lemma AllKnown(contracts: Contracts, sources: map<ContractId, Option<OutpointReveal>>, ids: seq<ContractId>, n: nat)
    requires Elements(ids) == sources.Keys
    requires n <= |ids| && forall k | 0 <= k < n :: ids[k] in contracts
    requires n < |ids| ==> ids[n] !in contracts
    ensures sources.Keys <= contracts.Keys <==> n == |ids|
  {
    ListedInAll(ids, sources.Keys);
    if n < |ids| {
      assert ids[n] in ids;
    }
  }

  lemma ListedInAll<T>(list: seq<T>, all: set<T>)
    requires Elements(list) == all
    ensures forall x :: x in list <==> x in all
  {
    assert forall x :: x in list <==> x in Elements(list);
  }

  lemma ReachedIsFirst(contracts: Contracts, sources: map<ContractId, Option<OutpointReveal>>,
                       ids: seq<ContractId>, n: nat, id: ContractId)
    requires StrictlyAscending(ids, IdRank) && forall x :: x in ids <==> x in sources
    requires n <= |ids| && forall k | 0 <= k < n :: ids[k] in contracts
    requires n < |ids| ==> ids[n] !in contracts
    ensures id in ids[..n] <==> Reached(contracts, sources, id)
  {
    if id in ids[..n] {
      var j :| 0 <= j < n && ids[j] == id;
      forall other | other in sources && IdRank(other) <= IdRank(id)
        ensures other in contracts
      {
        var k :| 0 <= k < |ids| && ids[k] == other;
      }
      assert ids[j] in ids;
    } else if id in sources {
      var j :| 0 <= j < |ids| && ids[j] == id;
      assert forall k | 0 <= k < n :: ids[..n][k] == ids[k];
      assert ids[n] in ids && IdRank(ids[n]) <= IdRank(id);
    }
  }

  // ----- accepting a transfer -----

  /** The known openings that open one of the concealed endpoints. */
  function OpeningsFor(contracts: Contracts, hashes: seq<OutpointHash>): set<OutpointReveal> {
    set id, h | id in contracts && h in contracts[id].blindingFactors && h in hashes ::
      contracts[id].blindingFactors[h]
  }

  function KnownOpenings(contracts: Contracts): set<OutpointReveal> {
    set id, h | id in contracts && h in contracts[id].blindingFactors ::
      contracts[id].blindingFactors[h]
  }

  /** What is handed over is exactly the known openings whose own hash is asked for. */
  lemma OpeningsOpenEndpoints(contracts: Contracts, hashes: seq<OutpointHash>, conceal: Concealer)
    requires forall id | id in contracts :: WellFormed(contracts[id], conceal)
    ensures OpeningsFor(contracts, hashes) == set r | r in KnownOpenings(contracts) && conceal(r) in hashes
  {
  }
}
