/** How a transfer is composed from the cached outputs of a contract, and what the
    composed transaction guarantees. */
module TransferModel {
  import opened WalletTypes
  import opened Collections
  import opened CacheModel
  import opened StorageModel
  import opened CoinSelection

  datatype Receiver =
    | BlindUtxo(hash: OutpointHash)
    | Descriptor(script: Script, giveaway: u64)
    | PsbtReceiver

  datatype TransferInfo = Bitcoin(script: Script) | Rgb(asset: AssetId, receiver: Receiver)

  datatype TransferRequest = TransferRequest(
    payFrom: ContractId,
    assetValue: u64,
    bitcoinFee: u64,
    info: TransferInfo,
    invoice: Invoice)

  datatype Endpoint = ConcealedEndpoint(hash: OutpointHash) | WitnessEndpoint(vout: nat, blinding: u64)
  datatype Seal = OutpointSeal(outpoint: OutPoint, blinding: u64) | WitnessSeal(vout: nat, blinding: u64)

  /** A drafted output; the wallet's own ones remember their derivation index. */
  datatype Output = Output(txOut: TxOut, index: Option<Index>)

  datatype Blindings = Blindings(endpoint: u64, change: u64)

  datatype Draft = Draft(
    picked: seq<Utxo>,
    balanceBefore: u64,
    assetInput: u64,
    outputs: seq<Output>,
    endpoint: Endpoint,
    bitcoinInput: u64,
    bitcoinChange: u64,
    changeVout: Option<nat>,
    reserved: Option<(Address, Index)>,
    rgbChange: map<Seal, u64>)

  /** How the wallet's policy turns indexes into addresses, for one contract. */
  type AddressAt = (Index, bool) -> Option<Address>
  type AddressScript = Address -> Script

  // ----- amounts of a request -----

  function AssetFee(req: TransferRequest): u64 {
    if req.info.Rgb? then 0 else req.bitcoinFee
  }

  function Target(req: TransferRequest): nat {
    req.assetValue + AssetFee(req)
  }

  /** The bitcoins paid away to the receiver. */
  function BitcoinValue(req: TransferRequest): u64 {
    match req.info
    case Bitcoin(_) => req.assetValue
    case Rgb(_, Descriptor(_, giveaway)) => giveaway
    case Rgb(_, _) => 0
  }

  function Giveaway(req: TransferRequest): Option<u64> {
    match req.info
    case Rgb(_, Descriptor(_, giveaway)) => Some(giveaway)
    case _ => None
  }

  function PaidOutputs(req: TransferRequest): seq<Output> {
    match req.info
    case Bitcoin(script) => [Output(TxOut(req.assetValue, script), None)]
    case Rgb(_, Descriptor(script, giveaway)) => [Output(TxOut(giveaway, script), None)]
    case Rgb(_, _) => []
  }

  function EndpointOf(req: TransferRequest, blinding: u64): Endpoint {
    match req.info
    case Bitcoin(_) => ConcealedEndpoint(OutpointHash(0))
    case Rgb(_, Descriptor(_, _)) => WitnessEndpoint(0, blinding)
    case Rgb(_, BlindUtxo(hash)) => ConcealedEndpoint(hash)
    case Rgb(_, PsbtReceiver) => ConcealedEndpoint(OutpointHash(0))
  }

  // ----- the coins on offer -----

  /** An RGB payment spends the outputs filed under its asset, a bitcoin payment the
      ones that carry no asset; the latter can overflow while it is worked out. */
  ghost function Candidates(unspent: Unspent, info: TransferInfo): Result<set<Utxo>> {
    match info
    case Rgb(asset, _) => Success(if asset in unspent then unspent[asset] else {})
    case Bitcoin(_) => if Countable(unspent) then Success(PureBitcoin(unspent)) else Failure(Overflow)
  }

  function Matching(bitcoin: set<Utxo>, outpoints: set<OutPoint>): set<Utxo> {
    set u | u in bitcoin && u.Outpoint() in outpoints
  }

  /** The bitcoins on the spent outpoints, looked up in the cache once more. */
  ghost function BitcoinInput(bitcoin: set<Utxo>, outpoints: set<OutPoint>): nat {
    Sum(Matching(bitcoin, outpoints), ValueOf)
  }

  function SpentOutpoints(picked: seq<Utxo>): set<OutPoint> {
    set u | u in picked :: u.Outpoint()
  }

  // ----- change -----

  datatype Change = Change(
    outputs: seq<Output>,
    amount: u64,
    vout: Option<nat>,
    reserved: Option<(Address, Index)>)

  /** What is left of the bitcoins goes to the next unused address of the wallet. */
  function BitcoinChange(used: map<Address, Index>, addressAt: AddressAt, addressScript: AddressScript,
                         paid: seq<Output>, input: u64, spent: u64): Result<Change> {
    if input <= spent then Success(Change(paid, 0, None, None)) else
      var index := NextUnused(used);
      match addressAt(index, false)
      case None => Failure(NoChangeAddress)
      case Some(address) =>
        if address in used && used[address] != index then Failure(WrongDerivation)
        else
          var own := Output(TxOut(input - spent, addressScript(address)), Some(index));
          Success(Change(paid + [own], input - spent, Some(|paid|), Some((address, index))))
  }

  /** What is left of the asset stays on an outpoint that already holds it, or else
      goes to the bitcoin change output. */
  function AssetChange(rest: u64, spare: Option<OutPoint>, vout: Option<nat>, blinding: u64): Result<map<Seal, u64>> {
    if rest == 0 then Success(map[])
    else if spare.Some? then Success(map[OutpointSeal(spare.value, blinding) := rest])
    else if vout.Some? then Success(map[WitnessSeal(vout.value, blinding) := rest])
    else Failure(NoChangeSeal)
  }

  // ----- the draft -----

  datatype Choice = Choice(selection: Selection, balance: u64)

  /** Selection over the coins on offer, handed out by the hash set in some order. */
  ghost function ChooseCoins(unspent: Unspent, req: TransferRequest, order: seq<Utxo>): Result<Choice> {
    var coins := LargestFirst(order);
    var balance := SeqSum(coins, ValueOf);
    if Candidates(unspent, req.info).Failure? || balance >= U64_LIMIT || Target(req) >= U64_LIMIT
    then Failure(Overflow)
    else
      var selection := Select(coins, Target(req));
      if selection.total < Target(req) then Failure(InsufficientFunds)
      else Success(Choice(selection, balance))
  }

  /** The outputs for a selection: payment, bitcoin change and asset change. What was
      chosen always fits u64 (ChosenFits). */
  ghost function Settle(entry: ContractCache, addressAt: AddressAt, addressScript: AddressScript,
                        req: TransferRequest, choice: Choice, blindings: Blindings): Result<Draft> {
    var sel := choice.selection;
    if req.info.Rgb? && req.info.receiver.PsbtReceiver? then Failure(UnsupportedReceiver)
    else if BITCOIN !in entry.unspent then Failure(CacheInconsistency)
    else
      var input := BitcoinInput(entry.unspent[BITCOIN], SpentOutpoints(sel.picked));
      var spent := BitcoinValue(req) + req.bitcoinFee;
      if input >= U64_LIMIT || spent >= U64_LIMIT || sel.total >= U64_LIMIT then Failure(Overflow)
      else
        match BitcoinChange(entry.used, addressAt, addressScript, PaidOutputs(req), input, spent)
        case Failure(e) => Failure(e)
        case Success(change) =>
          match AssetChange(AssetRest(req, sel.total), sel.spare, change.vout, blindings.change)
          case Failure(e) => Failure(e)
          case Success(rgbChange) =>
            Success(Draft(sel.picked, choice.balance, sel.total, change.outputs,
                          EndpointOf(req, blindings.endpoint), input, change.amount, change.vout,
                          change.reserved, rgbChange))
  }

  function AssetRest(req: TransferRequest, total: u64): u64 {
    if req.info.Rgb? && total > req.assetValue then total - req.assetValue else 0
  }

  ghost function Plan(entry: ContractCache, addressAt: AddressAt, addressScript: AddressScript,
                      req: TransferRequest, order: seq<Utxo>, blindings: Blindings): Result<Draft> {
    match ChooseCoins(entry.unspent, req, order)
    case Failure(e) => Failure(e)
    case Success(choice) => Settle(entry, addressAt, addressScript, req, choice, blindings)
  }

  /** The amount selected is part of the balance, so it always fits. */
  lemma ChosenFits(unspent: Unspent, req: TransferRequest, order: seq<Utxo>)
    requires ChooseCoins(unspent, req, order).Success?
    ensures var choice := ChooseCoins(unspent, req, order).value;
      Target(req) <= choice.selection.total <= choice.balance
  {
    var coins := LargestFirst(order);
    PrefixWhole(coins, Needed(coins, Target(req), 0), ValueOf);
  }
}
