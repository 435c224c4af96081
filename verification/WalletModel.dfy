/** The wallet runtime as a state machine: storage, cache and known height, changed
    by requests and by what the outside world answers. */
module WalletModel {
  import opened WalletTypes
  import opened CacheModel
  import opened CacheDriver
  import opened StorageModel
  import opened ChainScan
  import opened GapLimit
  import opened AssetMerge
  import opened CoinSelection
  import opened TransferModel
  import opened TransferLaws

  /** The libraries the wallet relies on: commitments, derivation, addresses. */
  datatype Env = Env(
    policyId: Policy -> ContractId,
    scriptOf: (Policy, Index) -> Script,
    addressOf: (Policy, Index, bool) -> Option<Address>,
    addressScript: AddressScript,
    readAddress: Script -> Option<Address>,
    txidOf: Psbt -> Txid,
    conceal: Concealer)

  datatype State = State(contracts: Contracts, cache: Cache, knownHeight: u32)

  /** What the outside world contributes to one synchronization. */
  datatype SyncWorld = SyncWorld(
    server: Option<Server>,
    node: RgbNode,
    headers: seq<nat>,
    tweakOrder: seq<TweakedOutput>)

  datatype WitnessOutput = WitnessOutput(script: Script, pubkey: Option<PublicKey>, tweak: Option<nat>)

  /** The transaction an RGB node returns, with the keys it tweaked. */
  datatype Witness = Witness(psbt: Psbt, outs: seq<WitnessOutput>)

  /** What the outside world contributes to one transfer. */
  datatype TransferWorld = TransferWorld(
    order: seq<Utxo>,
    blindings: Blindings,
    connected: bool,
    answer: Option<Witness>,
    enclosed: bool)

  datatype Event =
    | CreateContract(policy: Policy, name: string)
    | RenameContract(id: ContractId, name: string)
    | DeleteContract(id: ContractId)
    | SyncContract(id: ContractId, depth: nat, sync: SyncWorld)
    | NextAddress(id: ContractId, index: Option<Index>, legacy: bool, markUsed: bool)
    | UnuseAddress(id: ContractId, address: Address)
    | AddInvoiceTo(invoice: Invoice, sources: map<ContractId, Option<OutpointReveal>>)
    | ComposeTransfer(req: TransferRequest, world: TransferWorld)
    | AcceptTransfer(endpoints: seq<Endpoint>, valid: Option<bool>, accepted: bool)
    | ContractUnspent(id: ContractId)
    | ContractOperations(id: ContractId)
    | Restart(height: u32)

  datatype Reply =
    | Done
    | Refused(error: Error)
    | Created(contract: Contract)
    | SyncedAssets(assets: AssetLists)
    | DerivedAddress(address: Address, index: Index)
    | PreparedTransfer(psbt: Psbt, consigned: bool)
    | Validated(openings: set<OutpointReveal>)
    | UnspentOutputs(unspent: Unspent)
    | Operations(operations: seq<Operation>)

  // ----- synchronization -----

  function ScriptsOf(env: Env, policy: Policy): ScriptAt {
    (i: Index) => env.scriptOf(policy, i)
  }

  function TweakProbes(order: seq<TweakedOutput>): seq<Probe> {
    seq(|order|, i requires 0 <= i < |order| => Probe(order[i].index, order[i].script, Some(order[i])))
  }

  function LastHeader(height: u32, headers: seq<nat>): u32 {
    if headers == [] then height else headers[|headers| - 1] % U32_LIMIT
  }

  /** The batches one synchronization queries. */
  function Queries(env: Env, s: State, id: ContractId, depth: nat, server: Server,
                   tweakOrder: seq<TweakedOutput>): seq<seq<Probe>>
    requires id in s.contracts && depth >= 1
  {
    Batches(server, ScriptsOf(env, s.contracts[id].policy), depth, LastUsed(Entry(s.cache, id).used), 0,
            TweakProbes(tweakOrder))
  }

  /** What one synchronization finds. */
  function Discovered(env: Env, s: State, id: ContractId, depth: nat, server: Server,
                      tweakOrder: seq<TweakedOutput>): Ledger
    requires id in s.contracts && depth >= 1
  {
    AbsorbAll(server, Queries(env, s, id, depth, server, tweakOrder), env.readAddress)
  }

  lemma DiscoveredCoheres(env: Env, s: State, id: ContractId, depth: nat, server: Server,
                        tweakOrder: seq<TweakedOutput>)
    requires id in s.contracts && depth >= 1
    ensures Coherent(Discovered(env, s, id, depth, server, tweakOrder))
  {
    AbsorbAllEffect(server, Queries(env, s, id, depth, server, tweakOrder), env.readAddress);
  }

  function Sync(env: Env, s: State, id: ContractId, depth: nat, w: SyncWorld): (State, Reply)
    requires depth >= 1
  {
    if w.server.None? then (s, Refused(ElectrumFailure))
    else if id !in s.contracts then (s, Refused(ContractNotFound))
    else if !Answered(w.server.value, |Queries(env, s, id, depth, w.server.value, w.tweakOrder)|)
    then (s, Refused(ElectrumFailure))
    else
      var l := Discovered(env, s, id, depth, w.server.value, w.tweakOrder);
      var height := LastHeader(s.knownHeight, w.headers);
      DiscoveredCoheres(env, s, id, depth, w.server.value, w.tweakOrder);
      match MergedAssets(l, w.node)
      case Failure(e) => (s.(knownHeight := height), Refused(e))
      case Success(assets) =>
        (State(s.contracts, Updated(s.cache, id, l.mineInfo, height, l.outpoints, assets), height),
         SyncedAssets(assets))
  }

  // ----- addresses -----

  function AddressesOf(env: Env, policy: Policy): AddressAt {
    (i: Index, legacy: bool) => env.addressOf(policy, i, legacy)
  }

  function Derive(env: Env, s: State, id: ContractId, index: Option<Index>, legacy: bool,
                  markUsed: bool): (State, Reply) {
    if id !in s.contracts then (s, Refused(ContractNotFound)) else
      var next := NextUnused(Entry(s.cache, id).used);
      var i := match index case None => next case Some(given) => given;
      match env.addressOf(s.contracts[id].policy, i, legacy)
      case None => (s, Refused(NoAddress))
      case Some(address) =>
        if !markUsed then (s, DerivedAddress(address, i)) else
          var (cache, marked) := OnContract(s.cache, id, UseAddress(address, i));
          (s.(cache := cache), if marked.Success? then DerivedAddress(address, i) else Refused(NoAddress))
  }

  // ----- transfers -----

  function TxInputs(picked: seq<Utxo>): seq<OutPoint> {
    OutpointList(picked)
  }

  function TxOutputs(outputs: seq<Output>): seq<TxOut> {
    seq(|outputs|, i requires 0 <= i < |outputs| => outputs[i].txOut)
  }

  function PsbtOf(d: Draft): Psbt {
    Psbt(TxInputs(d.picked), TxOutputs(d.outputs))
  }

  /** The wallet's own outputs whose keys the RGB node has tweaked, among the first n. */
  function NewTweaks(outputs: seq<Output>, outs: seq<WitnessOutput>, txid: Txid, n: nat): set<TweakedOutput>
    requires n <= |outputs| && n <= |outs|
  {
    set v | 0 <= v < n && outs[v].pubkey.Some? && outs[v].tweak.Some? && outputs[v].index.Some? ::
      TweakedOutput(OutPoint(txid, v % U32_LIMIT), outs[v].script, outs[v].tweak.value,
                    outs[v].pubkey.value, outputs[v].index.value)
  }

  function ChangeOutputs(vout: Option<nat>): set<nat> {
    match vout case None => {} case Some(v) => {v % U16_LIMIT}
  }

  function ReservedIndexes(reserved: Option<(Address, Index)>): set<Index> {
    match reserved case None => {} case Some((_, i)) => {i}
  }

  /** The history record of a transfer, for the transaction that will be signed. */
  function Record(env: Env, req: TransferRequest, d: Draft, psbt: Psbt): Operation {
    Operation(
      assetChange := if req.info.Rgb? then AssetRest(req, d.assetInput) else d.bitcoinChange,
      bitcoinChange := d.bitcoinChange,
      changeOutputs := ChangeOutputs(d.changeVout),
      giveaway := Giveaway(req),
      outputIndexes := ReservedIndexes(d.reserved),
      invoice := req.invoice,
      balanceBefore := d.balanceBefore,
      bitcoinVolume := d.bitcoinInput,
      assetVolume := if req.info.Rgb? then d.assetInput else d.bitcoinInput,
      bitcoinValue := BitcoinValue(req),
      assetValue := req.assetValue,
      txFee := req.bitcoinFee,
      txid := env.txidOf(psbt),
      psbt := psbt,
      disclosed := req.info.Rgb?)
  }

  function Reserve(s: State, id: ContractId, reserved: Option<(Address, Index)>): State {
    match reserved
    case None => s
    case Some((address, index)) => s.(cache := OnContract(s.cache, id, UseAddress(address, index)).0)
  }

  function Register(s: State, id: ContractId, op: Operation): State
    requires id in s.contracts
  {
    s.(contracts := s.contracts[id := s.contracts[id].(operations := s.contracts[id].operations + [op])])
  }

  function AddTweaks(s: State, id: ContractId, tweaks: set<TweakedOutput>): State
    requires id in s.contracts
  {
    s.(contracts := s.contracts[id := s.contracts[id].(tweaks := s.contracts[id].tweaks + tweaks)])
  }

  lemma AddTweaksTwice(s: State, id: ContractId, a: set<TweakedOutput>, b: set<TweakedOutput>)
    requires id in s.contracts
    ensures AddTweaks(AddTweaks(s, id, a), id, b) == AddTweaks(s, id, a + b)
  {
    assert s.contracts[id].tweaks + a + b == s.contracts[id].tweaks + (a + b);
  }

  lemma AddNoTweaks(s: State, id: ContractId)
    requires id in s.contracts
    ensures AddTweaks(s, id, {}) == s
  {
    assert s.contracts[id].tweaks + {} == s.contracts[id].tweaks;
    assert s.contracts[id := s.contracts[id]] == s.contracts;
  }

  lemma TweaksStep(outputs: seq<Output>, outs: seq<WitnessOutput>, txid: Txid, n: nat)
    requires n < |outputs| && n < |outs|
    ensures NewTweaks(outputs, outs, txid, n + 1) == NewTweaks(outputs, outs, txid, n) +
      (if outs[n].pubkey.Some? && outs[n].tweak.Some? && outputs[n].index.Some?
       then {TweakedOutput(OutPoint(txid, n % U32_LIMIT), outs[n].script, outs[n].tweak.value,
                           outs[n].pubkey.value, outputs[n].index.value)}
       else {})
  {
  }

  ghost function PlanFor(env: Env, s: State, req: TransferRequest, w: TransferWorld): Result<Draft>
    requires req.payFrom in s.contracts
  {
    Plan(Entry(s.cache, req.payFrom), AddressesOf(env, s.contracts[req.payFrom].policy), env.addressScript,
         req, w.order, w.blindings)
  }

  /** From a draft to a prepared transfer: the change address is marked as used
      before anything external is asked. */
  function Finish(env: Env, s: State, req: TransferRequest, d: Draft, w: TransferWorld): (State, Reply)
    requires req.payFrom in s.contracts
  {
    var s1 := Reserve(s, req.payFrom, d.reserved);
    if !w.connected then (s1, Refused(ElectrumFailure))
    else if req.info.Bitcoin? then
      var psbt := PsbtOf(d);
      (Register(s1, req.payFrom, Record(env, req, d, psbt)), PreparedTransfer(psbt, false))
    else
      match w.answer
      case None => (s1, Refused(RgbNodeFailure))
      case Some(tx) =>
        var n := if |tx.outs| <= |d.outputs| then |tx.outs| else |d.outputs|;
        var s2 := AddTweaks(s1, req.payFrom, NewTweaks(d.outputs, tx.outs, env.txidOf(tx.psbt), n));
        if |tx.outs| > |d.outputs| then (s2, Refused(MalformedWitness))
        else if !w.enclosed then (s2, Refused(RgbNodeFailure))
        else (Register(s2, req.payFrom, Record(env, req, d, tx.psbt)), PreparedTransfer(tx.psbt, true))
  }

  ghost function Compose(env: Env, s: State, req: TransferRequest, w: TransferWorld): (State, Reply) {
    if req.payFrom !in s.contracts then (s, Refused(ContractNotFound)) else
      match PlanFor(env, s, req, w)
      case Failure(e) => (s, Refused(e))
      case Success(d) => Finish(env, s, req, d, w)
  }

  // ----- contracts and invoices -----

  function Create(env: Env, s: State, policy: Policy, name: string): (State, Reply) {
    var c := NewContract(env.policyId(policy), name, policy);
    (s.(contracts := s.contracts[c.id := c]), Created(c))
  }

  function Rename(s: State, id: ContractId, name: string): (State, Reply) {
    if id !in s.contracts then (s, Refused(ContractNotFound))
    else (s.(contracts := s.contracts[id := s.contracts[id].(name := name)]), Done)
  }

  function Delete(s: State, id: ContractId): (State, Reply) {
    if id !in s.contracts then (s, Refused(ContractNotFound))
    else (s.(contracts := s.contracts - {id}), Done)
  }

  function SpreadInvoice(env: Env, s: State, invoice: Invoice,
                         sources: map<ContractId, Option<OutpointReveal>>): (State, Reply) {
    (s.(contracts := InvoiceAll(s.contracts, invoice, sources, env.conceal)),
     if sources.Keys <= s.contracts.Keys then Done else Refused(ContractNotFound))
  }

  /** The hashes of the endpoints that conceal an outpoint; those on outputs of the
      witness transaction are passed over. */
  function ConcealedHashes(endpoints: seq<Endpoint>): seq<OutpointHash> {
    if endpoints == [] then [] else
      var last := endpoints[|endpoints| - 1];
      ConcealedHashes(endpoints[..|endpoints| - 1]) +
      (match last case ConcealedEndpoint(hash) => [hash] case WitnessEndpoint(_, _) => [])
  }

  function Accept(s: State, endpoints: seq<Endpoint>, valid: Option<bool>, accepted: bool): Reply {
    if valid.None? then Refused(RgbNodeFailure)
    else if !valid.value then Validated({})
    else if !accepted then Refused(RgbNodeFailure)
    else Validated(OpeningsFor(s.contracts, ConcealedHashes(endpoints)))
  }

  // ----- steps and runs -----

  /** Orders of iteration list what they iterate over; the depth is positive. */
  ghost predicate Possible(s: State, e: Event) {
    match e
    case SyncContract(id, depth, w) =>
      depth >= 1 && (id in s.contracts ==> Enumerates(w.tweakOrder, s.contracts[id].tweaks))
    case ComposeTransfer(req, w) => Offered(Entry(s.cache, req.payFrom), req, w.order)
    case _ => true
  }

  ghost function Step(env: Env, s: State, e: Event): (State, Reply)
    requires Possible(s, e)
  {
    match e
    case CreateContract(policy, name) => Create(env, s, policy, name)
    case RenameContract(id, name) => Rename(s, id, name)
    case DeleteContract(id) => Delete(s, id)
    case SyncContract(id, depth, w) => Sync(env, s, id, depth, w)
    case NextAddress(id, index, legacy, markUsed) => Derive(env, s, id, index, legacy, markUsed)
    case UnuseAddress(id, address) => (s.(cache := OnContract(s.cache, id, ForgetAddress(address)).0), Done)
    case AddInvoiceTo(invoice, sources) => SpreadInvoice(env, s, invoice, sources)
    case ComposeTransfer(req, w) => Compose(env, s, req, w)
    case AcceptTransfer(endpoints, valid, accepted) => (s, Accept(s, endpoints, valid, accepted))
    case ContractUnspent(id) => (s, UnspentOutputs(Entry(s.cache, id).unspent))
    case ContractOperations(id) =>
      (s, if id in s.contracts then Operations(s.contracts[id].operations) else Refused(ContractNotFound))
    case Restart(height) => (s.(knownHeight := height), Done)
  }

  const INITIAL := State(map[], EMPTY_CACHE, 0)

  ghost predicate PossibleRun(env: Env, s: State, events: seq<Event>)
    decreases |events|
  {
    events == [] ||
    (Possible(s, events[0]) && PossibleRun(env, Step(env, s, events[0]).0, events[1..]))
  }

  ghost function Run(env: Env, s: State, events: seq<Event>): State
    requires PossibleRun(env, s, events)
    decreases |events|
  {
    if events == [] then s else Run(env, Step(env, s, events[0]).0, events[1..])
  }
}
