/** What a transfer request answers and leaves behind, in terms of the request, the state
    before and what the outside world contributes. */
module TransferOutcomes {
  import opened WalletTypes
  import opened Collections
  import opened CacheModel
  import opened StorageModel
  import opened CoinSelection
  import opened TransferModel
  import opened TransferLaws
  import opened WalletModel
  import opened WalletInvariants

  // ----- what is drafted -----

  /** What the draft pays for, besides the fee: the bitcoin payment, or the giveaway that
      goes with an asset to a script. */
  function Payments(req: TransferRequest): seq<TxOut> {
    match req.info
    case Bitcoin(script) => [TxOut(req.assetValue, script)]
    case Rgb(_, Descriptor(script, giveaway)) => [TxOut(giveaway, script)]
    case Rgb(_, _) => []
  }

  /** The bitcoins that leave the wallet. */
  function Leaving(req: TransferRequest): nat {
    req.bitcoinFee +
    match req.info
    case Bitcoin(_) => req.assetValue
    case Rgb(_, Descriptor(_, giveaway)) => giveaway
    case Rgb(_, _) => 0
  }

  /** What is left of the bitcoins under the coins picked. */
  ghost function LeftOver(s: State, req: TransferRequest, order: seq<Utxo>): nat
    requires BITCOIN in Entry(s.cache, req.payFrom).unspent
  {
    var input := BitcoinsPicked(Entry(s.cache, req.payFrom).unspent, req, order);
    if input > Leaving(req) then input - Leaving(req) else 0
  }

  /** The draft pays the receiver what the request names, in its first output if it has
      one; what is left of the bitcoins goes to the wallet's next unused address, in the
      last output and the only one known as its own. */
  lemma DraftPays(env: Env, s: State, req: TransferRequest, w: TransferWorld)
    requires req.payFrom in s.contracts && PlanFor(env, s, req, w).Success?
    ensures BITCOIN in Entry(s.cache, req.payFrom).unspent
    ensures var d := PlanFor(env, s, req, w).value;
            var left := LeftOver(s, req, w.order);
            var next := NextUnused(Entry(s.cache, req.payFrom).used);
            var own := env.addressOf(s.contracts[req.payFrom].policy, next, false);
            var n := |Payments(req)|;
      && d.bitcoinChange == left
      && (forall v | 0 <= v < n :: v < |d.outputs| && d.outputs[v] == Output(Payments(req)[v], None))
      && if left == 0 then |d.outputs| == n && d.reserved == None && d.changeVout == None
         else own.Some? && |d.outputs| == n + 1 && d.reserved == Some((own.value, next)) && d.changeVout == Some(n) &&
              d.outputs[n] == Output(TxOut(left, env.addressScript(own.value)), Some(next))
  {
    var entry := Entry(s.cache, req.payFrom);
    var addressAt := AddressesOf(env, s.contracts[req.payFrom].policy);
    BalancedExactly(entry, addressAt, env.addressScript, req, w.order, w.blindings);
    DraftFollowsChoice(entry, addressAt, env.addressScript, req, w.order, w.blindings);
    ChangeIsOwn(entry, addressAt, env.addressScript, req, ChooseCoins(entry.unspent, req, w.order).value, w.blindings);
    ChangeTotal(entry.used, addressAt, env.addressScript, PaidOutputs(req),
                PlanFor(env, s, req, w).value.bitcoinInput, BitcoinValue(req) + req.bitcoinFee);
  }

  /** An asset goes to the concealed outpoint the receiver named, or to the first output,
      which pays its script; the seals carry the blinding factors drawn for them. */
  lemma DraftSeals(env: Env, s: State, req: TransferRequest, w: TransferWorld)
    requires req.payFrom in s.contracts && PlanFor(env, s, req, w).Success? && req.info.Rgb?
    ensures !req.info.receiver.PsbtReceiver?
    ensures var d := PlanFor(env, s, req, w).value;
      && d.endpoint == (match req.info.receiver
                        case Descriptor(_, _) => WitnessEndpoint(0, w.blindings.endpoint)
                        case BlindUtxo(hash) => ConcealedEndpoint(hash)
                        case PsbtReceiver => d.endpoint)
      && (req.info.receiver.Descriptor? ==> d.outputs != [] && d.outputs[0].txOut.script == req.info.receiver.script &&
                                            d.outputs[0].txOut.value == req.info.receiver.giveaway)
      && (forall seal | seal in d.rgbChange :: seal.blinding == w.blindings.change)
  {
    DraftPays(env, s, req, w);
    var entry := Entry(s.cache, req.payFrom);
    var addressAt := AddressesOf(env, s.contracts[req.payFrom].policy);
    ChangeIsOwn(entry, addressAt, env.addressScript, req, ChooseCoins(entry.unspent, req, w.order).value, w.blindings);
  }

  // ----- what is concluded -----

  /** A prepared transfer is handed out as it was committed to: a bitcoin transfer as
      drafted, an RGB transfer as the node returned it. */
  lemma TransferIsHandedOut(env: Env, s: State, req: TransferRequest, w: TransferWorld)
    requires Possible(s, ComposeTransfer(req, w))
    requires Step(env, s, ComposeTransfer(req, w)).1.PreparedTransfer?
    ensures req.payFrom in s.contracts && PlanFor(env, s, req, w).Success? && w.connected
    ensures var reply := Step(env, s, ComposeTransfer(req, w)).1;
            var d := PlanFor(env, s, req, w).value;
      && (reply.consigned <==> req.info.Rgb?)
      && (req.info.Rgb? ==>
            w.answer.Some? && w.enclosed && reply.psbt == w.answer.value.psbt &&
            |w.answer.value.outs| <= |d.outputs|)
      && (req.info.Bitcoin? ==>
            && |reply.psbt.inputs| == |d.picked| && |reply.psbt.outputs| == |d.outputs|
            && (forall i | 0 <= i < |d.picked| :: reply.psbt.inputs[i] == d.picked[i].Outpoint())
            && (forall i | 0 <= i < |d.outputs| :: reply.psbt.outputs[i] == d.outputs[i].txOut))
  {
  }

  /** The record describes this transaction, what the request asked for, and the change. */
  predicate Describes(op: Operation, env: Env, req: TransferRequest, psbt: Psbt, left: nat, next: Index) {
    && op.psbt == psbt && op.txid == env.txidOf(psbt) && op.invoice == req.invoice
    && op.disclosed == req.info.Rgb?
    && op.assetValue == req.assetValue && op.txFee == req.bitcoinFee
    && op.bitcoinValue + req.bitcoinFee == Leaving(req) && op.bitcoinChange == left
    && op.giveaway == (if req.info.Rgb? && req.info.receiver.Descriptor?
                       then Some(req.info.receiver.giveaway) else None)
    && op.outputIndexes == (if left == 0 then {} else {next})
    && op.changeOutputs == (if left == 0 then {} else {|Payments(req)|})
  }

  lemma RecordDescribes(env: Env, s: State, req: TransferRequest, w: TransferWorld, psbt: Psbt)
    requires req.payFrom in s.contracts && PlanFor(env, s, req, w).Success?
    ensures BITCOIN in Entry(s.cache, req.payFrom).unspent
    ensures Describes(Record(env, req, PlanFor(env, s, req, w).value, psbt), env, req, psbt,
                      LeftOver(s, req, w.order), NextUnused(Entry(s.cache, req.payFrom).used))
  {
    DraftPays(env, s, req, w);
    DraftDescribes(env, req, PlanFor(env, s, req, w).value, psbt, NextUnused(Entry(s.cache, req.payFrom).used));
  }

  lemma DraftDescribes(env: Env, req: TransferRequest, d: Draft, psbt: Psbt, next: Index)
    requires if d.bitcoinChange == 0 then d.reserved == None && d.changeVout == None
             else d.reserved.Some? && d.reserved.value.1 == next && d.changeVout == Some(|Payments(req)|)
    ensures Describes(Record(env, req, d, psbt), env, req, psbt, d.bitcoinChange, next)
  {
  }

  /** History gains one record, of the very transaction that is handed out and with what
      the request asked for; reading the history shows it. */
  lemma TransferIsRecorded(env: Env, s: State, req: TransferRequest, w: TransferWorld)
    returns (op: Operation)
    requires Possible(s, ComposeTransfer(req, w))
    requires Step(env, s, ComposeTransfer(req, w)).1.PreparedTransfer?
    ensures req.payFrom in s.contracts && BITCOIN in Entry(s.cache, req.payFrom).unspent
    ensures var (s', reply) := Step(env, s, ComposeTransfer(req, w));
      && Describes(op, env, req, reply.psbt, LeftOver(s, req, w.order),
                   NextUnused(Entry(s.cache, req.payFrom).used))
      && Step(env, s', ContractOperations(req.payFrom)).1 ==
         Operations(s.contracts[req.payFrom].operations + [op])
  {
    var reply := Step(env, s, ComposeTransfer(req, w)).1;
    var d := PlanFor(env, s, req, w).value;
    FinishEffect(env, s, req, d, w);
    RecordDescribes(env, s, req, w, reply.psbt);
    op := Record(env, req, d, reply.psbt);
  }

  /** The tweak the node reports for an output of its transaction. */
  predicate TweakOf(t: TweakedOutput, txid: Txid, outs: seq<WitnessOutput>, v: nat, index: Index) {
    && v < |outs| && outs[v].pubkey.Some? && outs[v].tweak.Some?
    && t == TweakedOutput(OutPoint(txid, v % 0x1_0000_0000), outs[v].script, outs[v].tweak.value,
                          outs[v].pubkey.value, index)
  }

  /** Of the other contracts, the policy, the invoices and the cache nothing changes but the
      reserved change address. */
  lemma TransferKeepsTheRest(env: Env, s: State, req: TransferRequest, w: TransferWorld)
    requires Possible(s, ComposeTransfer(req, w))
    requires Step(env, s, ComposeTransfer(req, w)).1.PreparedTransfer?
    ensures var s' := Step(env, s, ComposeTransfer(req, w)).0;
            var id := req.payFrom;
            var left := LeftOver(s, req, w.order);
            var used := Entry(s.cache, id).used;
            var own := env.addressOf(s.contracts[id].policy, NextUnused(used), false);
      && s'.knownHeight == s.knownHeight && s'.contracts.Keys == s.contracts.Keys
      && (forall other | other in s.contracts && other != id :: s'.contracts[other] == s.contracts[other])
      && s'.contracts[id] == s.contracts[id].(tweaks := s'.contracts[id].tweaks,
                                              operations := s'.contracts[id].operations)
      && if left == 0 then s'.cache == s.cache
         else own.Some? && s'.cache == s.cache.(descriptors := s.cache.descriptors[
                id := Entry(s.cache, id).(used := used[own.value := NextUnused(used)])])
  {
    var d := PlanFor(env, s, req, w).value;
    FinishEffect(env, s, req, d, w);
    PlanReserves(env, s, req, w);
    DraftPays(env, s, req, w);
  }

  /** The only tweak a prepared transfer adds is the one the node reports for the wallet's
      own change output, under its index and on the transaction handed out. */
  lemma TransferAddsTweak(env: Env, s: State, req: TransferRequest, w: TransferWorld)
    requires Possible(s, ComposeTransfer(req, w))
    requires Step(env, s, ComposeTransfer(req, w)).1.PreparedTransfer?
    ensures var (s', reply) := Step(env, s, ComposeTransfer(req, w));
            var id := req.payFrom;
      && id in s.contracts && BITCOIN in Entry(s.cache, id).unspent && id in s'.contracts
      && (req.info.Rgb? ==> w.answer.Some?)
      && forall t :: t in s'.contracts[id].tweaks <==>
           || t in s.contracts[id].tweaks
           || (req.info.Rgb? && LeftOver(s, req, w.order) > 0 &&
               TweakOf(t, env.txidOf(reply.psbt), w.answer.value.outs, |Payments(req)|,
                       NextUnused(Entry(s.cache, id).used)))
  {
    var d := PlanFor(env, s, req, w).value;
    DraftPays(env, s, req, w);
    TransferIsHandedOut(env, s, req, w);
    if req.info.Rgb? {
      OnlyOwnIsTweaked(d.outputs, w.answer.value.outs, env.txidOf(w.answer.value.psbt), |Payments(req)|,
                       NextUnused(Entry(s.cache, req.payFrom).used));
    }
  }

  lemma OnlyOwnIsTweaked(outputs: seq<Output>, outs: seq<WitnessOutput>, txid: Txid, n: nat, index: Index)
    requires |outs| <= |outputs| && n <= |outputs| <= n + 1
    requires forall v | 0 <= v < n :: outputs[v].index == None
    requires |outputs| == n + 1 ==> outputs[n].index == Some(index)
    ensures forall t :: t in NewTweaks(outputs, outs, txid, |outs|) <==>
              |outputs| == n + 1 && TweakOf(t, txid, outs, n, index)
  {
  }

  // ----- what is refused -----

  /** What a transfer has to reach with the coins it may spend. */
  function Needs(req: TransferRequest): nat {
    if req.info.Bitcoin? then req.assetValue + req.bitcoinFee else req.assetValue
  }

  /** The coins it may spend: those filed under the asset, or bitcoins with nothing else
      filed on their outpoint. */
  ghost function Offer(unspent: Unspent, req: TransferRequest): set<Utxo> {
    if req.info.Bitcoin? then PureBitcoin(unspent)
    else if req.info.asset in unspent then unspent[req.info.asset] else {}
  }

  ghost predicate Adds(unspent: Unspent, req: TransferRequest) {
    && (req.info.Bitcoin? ==> Countable(unspent))
    && Sum(Offer(unspent, req), ValueOf) < U64_LIMIT && Needs(req) < U64_LIMIT
  }

  /** Coins are chosen exactly when everything adds up and the offer suffices. */
  lemma ChosenExactly(unspent: Unspent, req: TransferRequest, order: seq<Utxo>)
    requires Candidates(unspent, req.info).Success? ==> Enumerates(order, Candidates(unspent, req.info).value)
    ensures var chosen := ChooseCoins(unspent, req, order);
      if !Adds(unspent, req) then chosen == Failure(Overflow)
      else if Sum(Offer(unspent, req), ValueOf) < Needs(req) then chosen == Failure(InsufficientFunds)
      else chosen.Success? && chosen.value.selection == Select(LargestFirst(order), Needs(req)) &&
           (chosen.value.selection.spare.None? <==> Elements(chosen.value.selection.picked) == Offer(unspent, req))
  {
    if Candidates(unspent, req.info).Success? {
      assert Candidates(unspent, req.info).value == Offer(unspent, req);
      InsufficientExactly(unspent, req, order);
      if Adds(unspent, req) && Sum(Offer(unspent, req), ValueOf) >= Needs(req) {
        WholeIsPicked(order, Offer(unspent, req), Needs(req));
      }
    }
  }

  /** A choice is settled unless the receiver is unsupported, the cache holds no bitcoins,
      the amounts overflow, the change cannot be paid to an own address, or the rest of the
      asset has no place to go. */
  lemma SettledExactly(entry: ContractCache, addressAt: AddressAt, addressScript: AddressScript,
                       req: TransferRequest, choice: Choice, blindings: Blindings)
    requires choice.selection.total < U64_LIMIT
    ensures var r := Settle(entry, addressAt, addressScript, req, choice, blindings);
            var next := NextUnused(entry.used);
            var own := addressAt(next, false);
      if req.info.Rgb? && req.info.receiver.PsbtReceiver? then r == Failure(UnsupportedReceiver)
      else if BITCOIN !in entry.unspent then r == Failure(CacheInconsistency)
      else
        var input := BitcoinInput(entry.unspent[BITCOIN], SpentOutpoints(choice.selection.picked));
        if input >= U64_LIMIT || Leaving(req) >= U64_LIMIT then r == Failure(Overflow)
        else if input > Leaving(req) && own.None? then r == Failure(NoChangeAddress)
        else if input > Leaving(req) && own.value in entry.used && entry.used[own.value] != next
        then r == Failure(WrongDerivation)
        else if req.info.Rgb? && choice.selection.total > req.assetValue && choice.selection.spare.None? &&
                input <= Leaving(req)
        then r == Failure(NoChangeSeal)
        else r.Success?
  {
  }

  /** A drafted transfer fails outside for a missing connection, and an RGB transfer for a
      node that fails, that returns more outputs than were drafted, or that fails to
      enclose the transfer. Up to then it has reserved its change address. */
  lemma ConcludedExactly(env: Env, s: State, req: TransferRequest, w: TransferWorld)
    requires Possible(s, ComposeTransfer(req, w)) && req.payFrom in s.contracts && PlanFor(env, s, req, w).Success?
    ensures var (s', reply) := Step(env, s, ComposeTransfer(req, w));
            var d := PlanFor(env, s, req, w).value;
      && s'.cache == Reserve(s, req.payFrom, d.reserved).cache
      && if !w.connected then reply == Refused(ElectrumFailure) && s'.contracts == s.contracts
         else if req.info.Bitcoin? then reply.PreparedTransfer?
         else if w.answer.None? then reply == Refused(RgbNodeFailure) && s'.contracts == s.contracts
         else if |w.answer.value.outs| > |d.outputs| then reply == Refused(MalformedWitness)
         else if !w.enclosed then reply == Refused(RgbNodeFailure)
         else reply.PreparedTransfer?
  {
    FinishEffect(env, s, req, PlanFor(env, s, req, w).value, w);
  }

  /** A transfer that is not drafted changes nothing, and is refused for an unknown contract
      or for the reason the draft failed. */
  lemma RefusedExactly(env: Env, s: State, req: TransferRequest, w: TransferWorld)
    requires Possible(s, ComposeTransfer(req, w))
    requires req.payFrom in s.contracts ==> PlanFor(env, s, req, w).Failure?
    ensures var unspent := Entry(s.cache, req.payFrom).unspent;
            var (s', reply) := Step(env, s, ComposeTransfer(req, w));
      && s' == s
      && (req.payFrom !in s.contracts <==> reply == Refused(ContractNotFound))
      && (req.payFrom in s.contracts && !Adds(unspent, req) ==> reply == Refused(Overflow))
      && (req.payFrom in s.contracts && Adds(unspent, req) ==>
            (Sum(Offer(unspent, req), ValueOf) < Needs(req) <==> reply == Refused(InsufficientFunds)))
  {
    var entry := Entry(s.cache, req.payFrom);
    ChosenExactly(entry.unspent, req, w.order);
    if req.payFrom in s.contracts && ChooseCoins(entry.unspent, req, w.order).Success? {
      SettleErrors(entry, AddressesOf(env, s.contracts[req.payFrom].policy), env.addressScript, req,
                   ChooseCoins(entry.unspent, req, w.order).value, w.blindings);
    }
  }
}
