/** The laws of a composed transfer. */
module TransferLaws {
  import opened WalletTypes
  import opened Collections
  import opened CacheModel
  import opened StorageModel
  import opened CoinSelection
  import opened TransferModel

  function OutputValue(o: Output): nat {
    o.txOut.value
  }

  function OutputTotal(outputs: seq<Output>): nat {
    SeqSum(outputs, OutputValue)
  }

  /** The order lists the coins on offer. */
  ghost predicate Offered(entry: ContractCache, req: TransferRequest, order: seq<Utxo>) {
    match Candidates(entry.unspent, req.info)
    case Failure(_) => true
    case Success(coins) => Enumerates(order, coins)
  }

  ghost predicate UniquePerAsset(unspent: Unspent) {
    forall a | a in unspent :: UniqueOutpoints(unspent[a])
  }

  /** The spent coins are the leading ones, largest first, of those on offer. */
  lemma ChosenAreOffered(unspent: Unspent, req: TransferRequest, order: seq<Utxo>)
    requires Candidates(unspent, req.info).Success?
    requires Enumerates(order, Candidates(unspent, req.info).value)
    requires ChooseCoins(unspent, req, order).Success?
    ensures var sel := ChooseCoins(unspent, req, order).value.selection;
            var coins := LargestFirst(order);
            var offer := Candidates(unspent, req.info).value;
      && sel == Select(coins, Target(req))
      && DescendingValues(coins) && Enumerates(coins, offer)
      && NoDuplicates(sel.picked) && Elements(sel.picked) <= offer
      && sel.total == SeqSum(sel.picked, ValueOf)
  {
    LargestFirstSorts(order, Candidates(unspent, req.info).value);
    var coins := LargestFirst(order);
    var sel := Select(coins, Target(req));
    assert forall u | u in sel.picked :: u in Elements(coins);
  }

  /** A successful draft comes from a successful selection. */
  lemma DraftFollowsChoice(entry: ContractCache, addressAt: AddressAt, addressScript: AddressScript,
                           req: TransferRequest, order: seq<Utxo>, blindings: Blindings)
    requires Plan(entry, addressAt, addressScript, req, order, blindings).Success?
    ensures ChooseCoins(entry.unspent, req, order).Success?
    ensures Candidates(entry.unspent, req.info).Success?
    ensures BITCOIN in entry.unspent
    ensures var d := Plan(entry, addressAt, addressScript, req, order, blindings).value;
            var choice := ChooseCoins(entry.unspent, req, order).value;
      && d.picked == choice.selection.picked
      && d.assetInput == choice.selection.total
      && d.balanceBefore == choice.balance
      && d.bitcoinInput == BitcoinInput(entry.unspent[BITCOIN], SpentOutpoints(d.picked))
      && Target(req) <= d.assetInput
  {
    ChosenFits(entry.unspent, req, order);
  }

  lemma PaidTotal(req: TransferRequest)
    ensures OutputTotal(PaidOutputs(req)) == BitcoinValue(req)
  {
    var paid := PaidOutputs(req);
    if paid != [] {
      assert paid[..|paid| - 1] == [];
      assert OutputTotal(paid) == SeqSum(paid[..|paid| - 1], OutputValue) + OutputValue(paid[0]);
    }
  }

  lemma ChangeTotal(used: map<Address, Index>, addressAt: AddressAt, addressScript: AddressScript,
                    paid: seq<Output>, input: u64, spent: u64)
    requires BitcoinChange(used, addressAt, addressScript, paid, input, spent).Success?
    ensures var c := BitcoinChange(used, addressAt, addressScript, paid, input, spent).value;
      && OutputTotal(c.outputs) == OutputTotal(paid) + c.amount
      && c.amount == (if input > spent then input - spent else 0)
      && (c.vout.Some? <==> c.amount > 0)
  {
    var c := BitcoinChange(used, addressAt, addressScript, paid, input, spent).value;
    if input > spent {
      assert c.outputs[..|c.outputs| - 1] == paid;
    }
  }

  /** The bitcoins under the coins that this order of the hash set leads to. */
  ghost function BitcoinsPicked(unspent: Unspent, req: TransferRequest, order: seq<Utxo>): nat
    requires BITCOIN in unspent
  {
    BitcoinInput(unspent[BITCOIN], SpentOutpoints(Select(LargestFirst(order), Target(req)).picked))
  }

  /** Outputs and fee of any composed transaction add up to the bitcoins on its inputs
      exactly when those cover what is paid away and the fee. */
  lemma BalancedExactly(entry: ContractCache, addressAt: AddressAt, addressScript: AddressScript,
                        req: TransferRequest, order: seq<Utxo>, blindings: Blindings)
    requires Plan(entry, addressAt, addressScript, req, order, blindings).Success?
    ensures BITCOIN in entry.unspent
    ensures var d := Plan(entry, addressAt, addressScript, req, order, blindings).value;
            var input := BitcoinsPicked(entry.unspent, req, order);
      && (OutputTotal(d.outputs) + req.bitcoinFee == input <==> BitcoinValue(req) + req.bitcoinFee <= input)
      && OutputTotal(d.outputs) == BitcoinValue(req) + d.bitcoinChange
      && d.bitcoinInput == input
  {
    var d := Plan(entry, addressAt, addressScript, req, order, blindings).value;
    DraftFollowsChoice(entry, addressAt, addressScript, req, order, blindings);
    PaidTotal(req);
    ChangeTotal(entry.used, addressAt, addressScript, PaidOutputs(req), d.bitcoinInput,
                BitcoinValue(req) + req.bitcoinFee);
  }

  /** In some order of the hash set the request is drafted, and does not balance. */
  ghost predicate Unbalanced(entry: ContractCache, addressAt: AddressAt, addressScript: AddressScript,
                             req: TransferRequest, order: seq<Utxo>, blindings: Blindings) {
    && BITCOIN in entry.unspent
    && Candidates(entry.unspent, req.info).Success?
    && Enumerates(order, Candidates(entry.unspent, req.info).value)
    && Plan(entry, addressAt, addressScript, req, order, blindings).Success?
    && OutputTotal(Plan(entry, addressAt, addressScript, req, order, blindings).value.outputs) + req.bitcoinFee !=
       BitcoinsPicked(entry.unspent, req, order)
  }

  /** Nothing overflows and the receiver is supported, so that a draft can succeed. */
  ghost predicate Draftable(entry: ContractCache, req: TransferRequest) {
    && BITCOIN in entry.unspent && !(req.info.Rgb? && req.info.receiver.PsbtReceiver?)
    && Candidates(entry.unspent, req.info).Success?
    && Sum(Candidates(entry.unspent, req.info).value, ValueOf) < U64_LIMIT
    && Target(req) < U64_LIMIT && BitcoinValue(req) + req.bitcoinFee < U64_LIMIT
  }

  /** Some largest coins that just reach the target hold too few bitcoins, and need no
      bitcoin change to take the rest of the asset. */
  ghost predicate Shortfall(entry: ContractCache, req: TransferRequest, part: set<Utxo>)
    requires Draftable(entry, req)
  {
    var offer := Candidates(entry.unspent, req.info).value;
    && Leading(part, offer, Target(req))
    && BitcoinInput(entry.unspent[BITCOIN], OutpointsOf(part)) < BitcoinValue(req) + req.bitcoinFee
    && (req.info.Rgb? ==> part != offer || Sum(part, ValueOf) <= req.assetValue)
  }

  /** Whatever order the hash set hands the coins out in, the draft balances: exactly
      when no set of largest coins that just reach the target falls short. */
  lemma BalancedInEveryOrder(entry: ContractCache, addressAt: AddressAt, addressScript: AddressScript,
                             req: TransferRequest, blindings: Blindings)
    ensures (forall order :: !Unbalanced(entry, addressAt, addressScript, req, order, blindings)) <==>
            (Draftable(entry, req) ==> forall part :: !Shortfall(entry, req, part))
  {
    if order :| Unbalanced(entry, addressAt, addressScript, req, order, blindings) {
      UnbalancedFallsShort(entry, addressAt, addressScript, req, order, blindings);
    }
    if Draftable(entry, req) {
      if part :| Shortfall(entry, req, part) {
        var order := ShortfallIsDrafted(entry, addressAt, addressScript, req, part, blindings);
        assert Unbalanced(entry, addressAt, addressScript, req, order, blindings);
      }
    }
  }

  /** With too few bitcoins there is no bitcoin change, and the draft hangs on whether
      the rest of the asset needs it. */
  lemma SettleShort(entry: ContractCache, addressAt: AddressAt, addressScript: AddressScript,
                    req: TransferRequest, choice: Choice, blindings: Blindings)
    requires Draftable(entry, req) && choice.selection.total < U64_LIMIT
    requires BitcoinInput(entry.unspent[BITCOIN], SpentOutpoints(choice.selection.picked)) <
             BitcoinValue(req) + req.bitcoinFee
    ensures Settle(entry, addressAt, addressScript, req, choice, blindings).Success? <==>
            AssetRest(req, choice.selection.total) == 0 || choice.selection.spare.Some?
  {
  }

  /** The choice made in some order, as far as it matters for the balance. */
  lemma ChoiceOf(entry: ContractCache, req: TransferRequest, order: seq<Utxo>)
    requires Draftable(entry, req)
    requires Enumerates(order, Candidates(entry.unspent, req.info).value)
    requires Sum(Candidates(entry.unspent, req.info).value, ValueOf) >= Target(req)
    ensures ChooseCoins(entry.unspent, req, order).Success?
    ensures var offer := Candidates(entry.unspent, req.info).value;
            var sel := ChooseCoins(entry.unspent, req, order).value.selection;
            var part := Elements(sel.picked);
      && sel == Select(LargestFirst(order), Target(req))
      && sel.total == Sum(part, ValueOf) < U64_LIMIT
      && SpentOutpoints(sel.picked) == OutpointsOf(part)
      && (sel.spare.Some? <==> part != offer)
      && (AssetRest(req, sel.total) == 0 <==> (req.info.Rgb? ==> Sum(part, ValueOf) <= req.assetValue))
  {
    var offer := Candidates(entry.unspent, req.info).value;
    InsufficientExactly(entry.unspent, req, order);
    ChosenAreOffered(entry.unspent, req, order);
    var picked := Select(LargestFirst(order), Target(req)).picked;
    SeqSumIsSum(picked, ValueOf);
    SumMonotone(Elements(picked), offer, ValueOf);
    SpentAreOutpoints(picked);
    WholeIsPicked(order, offer, Target(req));
  }

  lemma UnbalancedFallsShort(entry: ContractCache, addressAt: AddressAt, addressScript: AddressScript,
                             req: TransferRequest, order: seq<Utxo>, blindings: Blindings)
    requires Unbalanced(entry, addressAt, addressScript, req, order, blindings)
    ensures Draftable(entry, req)
    ensures Shortfall(entry, req, Elements(Select(LargestFirst(order), Target(req)).picked))
  {
    BalancedExactly(entry, addressAt, addressScript, req, order, blindings);
    InsufficientExactly(entry.unspent, req, order);
    ChoiceOf(entry, req, order);
    SettleShort(entry, addressAt, addressScript, req, ChooseCoins(entry.unspent, req, order).value, blindings);
    PickedIsLeading(order, Candidates(entry.unspent, req.info).value, Target(req));
  }

  lemma SpentAreOutpoints(picked: seq<Utxo>)
    ensures SpentOutpoints(picked) == OutpointsOf(Elements(picked))
  {
    assert forall u :: u in picked <==> u in Elements(picked);
  }

  lemma ShortfallIsDrafted(entry: ContractCache, addressAt: AddressAt, addressScript: AddressScript,
                           req: TransferRequest, part: set<Utxo>, blindings: Blindings) returns (order: seq<Utxo>)
    requires Draftable(entry, req) && Shortfall(entry, req, part)
    ensures Unbalanced(entry, addressAt, addressScript, req, order, blindings)
  {
    var offer := Candidates(entry.unspent, req.info).value;
    order := LeadingIsPicked(part, offer, Target(req));
    SumMonotone(part, offer, ValueOf);
    ChoiceOf(entry, req, order);
    SettleShort(entry, addressAt, addressScript, req, ChooseCoins(entry.unspent, req, order).value, blindings);
    BalancedExactly(entry, addressAt, addressScript, req, order, blindings);
  }

  lemma MatchingIsPicked(bitcoin: set<Utxo>, picked: seq<Utxo>)
    requires UniqueOutpoints(bitcoin) && Elements(picked) <= bitcoin
    ensures Matching(bitcoin, SpentOutpoints(picked)) == Elements(picked)
  {
    forall u | u in Matching(bitcoin, SpentOutpoints(picked))
      ensures u in Elements(picked)
    {
      var v :| v in picked && v.Outpoint() == u.Outpoint();
      assert v in Elements(picked);
    }
    forall u | u in Elements(picked)
      ensures u.Outpoint() in SpentOutpoints(picked)
    {
    }
  }

  /** A bitcoin transfer conserves bitcoins: outputs and fee add up to the inputs, to
      the unit, and the amount looked up again in the cache is the amount selected. */
  lemma BitcoinIsConserved(entry: ContractCache, addressAt: AddressAt, addressScript: AddressScript,
                           req: TransferRequest, order: seq<Utxo>, blindings: Blindings)
    requires req.info.Bitcoin? && Offered(entry, req, order) && UniquePerAsset(entry.unspent)
    requires Plan(entry, addressAt, addressScript, req, order, blindings).Success?
    ensures var d := Plan(entry, addressAt, addressScript, req, order, blindings).value;
      && d.bitcoinInput == d.assetInput == SeqSum(d.picked, ValueOf)
      && OutputTotal(d.outputs) + req.bitcoinFee == SeqSum(d.picked, ValueOf)
      && d.bitcoinInput == req.assetValue + d.bitcoinChange + req.bitcoinFee
      && d.rgbChange == map[]
  {
    var d := Plan(entry, addressAt, addressScript, req, order, blindings).value;
    DraftFollowsChoice(entry, addressAt, addressScript, req, order, blindings);
    ChosenAreOffered(entry.unspent, req, order);
    MatchingIsPicked(entry.unspent[BITCOIN], d.picked);
    SeqSumIsSum(d.picked, ValueOf);
    BalancedExactly(entry, addressAt, addressScript, req, order, blindings);
  }

  /** No input of a bitcoin transfer carries an asset in the cache. */
  lemma InputsCarryNoAsset(entry: ContractCache, addressAt: AddressAt, addressScript: AddressScript,
                           req: TransferRequest, order: seq<Utxo>, blindings: Blindings)
    requires req.info.Bitcoin? && Offered(entry, req, order)
    requires Plan(entry, addressAt, addressScript, req, order, blindings).Success?
    ensures var d := Plan(entry, addressAt, addressScript, req, order, blindings).value;
      forall u | u in d.picked ::
        u in entry.unspent[BITCOIN] && u.value > 0 && CarriesNoAsset(entry.unspent, u.Outpoint())
  {
    var d := Plan(entry, addressAt, addressScript, req, order, blindings).value;
    DraftFollowsChoice(entry, addressAt, addressScript, req, order, blindings);
    ChosenAreOffered(entry.unspent, req, order);
    SelectionIsTight(LargestFirst(order), Target(req));
    forall u | u in d.picked
      ensures u in PureBitcoin(entry.unspent)
    {
      assert u in Elements(d.picked);
    }
  }

  /** As few coins as possible are spent, and the change is less than any of them. */
  lemma FewestInputs(entry: ContractCache, addressAt: AddressAt, addressScript: AddressScript,
                     req: TransferRequest, order: seq<Utxo>, blindings: Blindings, other: set<Utxo>)
    requires Offered(entry, req, order)
    requires Plan(entry, addressAt, addressScript, req, order, blindings).Success?
    requires other <= Candidates(entry.unspent, req.info).value
    ensures var d := Plan(entry, addressAt, addressScript, req, order, blindings).value;
      && (Sum(other, ValueOf) >= Target(req) ==> |d.picked| <= |other|)
      && (forall u | u in d.picked :: d.assetInput - Target(req) < u.value)
  {
    DraftFollowsChoice(entry, addressAt, addressScript, req, order, blindings);
    ChosenAreOffered(entry.unspent, req, order);
    SelectionIsTight(LargestFirst(order), Target(req));
    if Sum(other, ValueOf) >= Target(req) {
      FewestCoins(LargestFirst(order), Target(req), other);
    }
  }

  /** Funds are insufficient exactly when all coins on offer together are. */
  lemma InsufficientExactly(unspent: Unspent, req: TransferRequest, order: seq<Utxo>)
    requires Candidates(unspent, req.info).Success?
    requires Enumerates(order, Candidates(unspent, req.info).value)
    ensures var worth := Sum(Candidates(unspent, req.info).value, ValueOf);
      && (ChooseCoins(unspent, req, order) == Failure(InsufficientFunds) <==>
          worth < Target(req) < U64_LIMIT)
      && (ChooseCoins(unspent, req, order) == Failure(Overflow) <==>
          worth >= U64_LIMIT || Target(req) >= U64_LIMIT)
  {
    var coins := LargestFirst(order);
    LargestFirstSorts(order, Candidates(unspent, req.info).value);
    SeqSumIsSum(coins, ValueOf);
    SelectionIsTight(coins, Target(req));
  }

  ghost function SealTotal(change: map<Seal, u64>): nat {
    Sum(change.Keys, (s: Seal) => if s in change then change[s] else 0)
  }

  lemma SealTotalOf(seal: Seal, amount: u64)
    ensures SealTotal(map[seal := amount]) == amount
    ensures SealTotal(map[]) == 0
  {
    var change := map[seal := amount];
    var f := (s: Seal) => if s in change then change[s] else 0;
    assert change.Keys == {seal};
    SumTake({seal}, f, seal);
    assert {seal} - {seal} == {};
  }

  /** The outpoint of a coin that is not spent and of the largest value of those left. */
  ghost predicate LargestLeft(o: OutPoint, picked: seq<Utxo>, held: set<Utxo>) {
    && o !in SpentOutpoints(picked)
    && exists v :: v in held && v.Outpoint() == o &&
                   forall x | x in held && x !in picked :: x.value <= v.value
  }

  /** The seal of asset change is safe: the outpoint of the largest unspent coin on which
      the asset is filed, or the wallet's own change output of this very transaction. */
  ghost predicate SafeSeal(seal: Seal, d: Draft, held: set<Utxo>, next: Index, addressAt: AddressAt,
                           addressScript: AddressScript) {
    match seal
    case OutpointSeal(o, _) => LargestLeft(o, d.picked, held)
    case WitnessSeal(vout, _) =>
      && d.changeVout == Some(vout) && vout == |d.outputs| - 1
      && d.outputs[vout].index == Some(next)
      && addressAt(next, false).Some?
      && d.outputs[vout].txOut.script == addressScript(addressAt(next, false).value)
  }

  lemma AssetChangeTotal(rest: u64, spare: Option<OutPoint>, vout: Option<nat>, blinding: u64)
    requires AssetChange(rest, spare, vout, blinding).Success?
    ensures var change := AssetChange(rest, spare, vout, blinding).value;
      && SealTotal(change) == rest
      && |change| <= 1
      && forall seal | seal in change :: change[seal] > 0 &&
           match seal
           case OutpointSeal(o, _) => spare == Some(o)
           case WitnessSeal(v, _) => vout == Some(v)
  {
    SealTotalOf(OutpointSeal(OutPoint(0, 0), 0), 0);
    if rest > 0 {
      SealTotalOf(if spare.Some? then OutpointSeal(spare.value, blinding)
                  else WitnessSeal(vout.value, blinding), rest);
    }
  }

  /** The change output, when there is one, is the last output and pays the wallet. */
  lemma ChangeIsOwn(entry: ContractCache, addressAt: AddressAt, addressScript: AddressScript,
                    req: TransferRequest, choice: Choice, blindings: Blindings)
    requires Settle(entry, addressAt, addressScript, req, choice, blindings).Success?
    ensures var d := Settle(entry, addressAt, addressScript, req, choice, blindings).value;
            var next := NextUnused(entry.used);
      && (d.changeVout.Some? <==> d.bitcoinChange > 0)
      && (d.changeVout.None? ==> d.reserved.None? && d.outputs == PaidOutputs(req))
      && (d.changeVout.Some? ==>
            && addressAt(next, false).Some?
            && d.changeVout.value == |PaidOutputs(req)|
            && d.reserved == Some((addressAt(next, false).value, next))
            && d.outputs == PaidOutputs(req) +
               [Output(TxOut(d.bitcoinChange, addressScript(addressAt(next, false).value)), Some(next))])
      && AssetChange(AssetRest(req, choice.selection.total), choice.selection.spare, d.changeVout,
                     blindings.change) == Success(d.rgbChange)
  {
  }

  /** An RGB transfer conserves the asset. */
  lemma AssetIsConserved(entry: ContractCache, addressAt: AddressAt, addressScript: AddressScript,
                         req: TransferRequest, order: seq<Utxo>, blindings: Blindings)
    requires req.info.Rgb? && Offered(entry, req, order)
    requires Plan(entry, addressAt, addressScript, req, order, blindings).Success?
    ensures var d := Plan(entry, addressAt, addressScript, req, order, blindings).value;
      && req.assetValue + SealTotal(d.rgbChange) == d.assetInput == SeqSum(d.picked, ValueOf)
      && |d.rgbChange| <= 1
  {
    var d := Plan(entry, addressAt, addressScript, req, order, blindings).value;
    DraftFollowsChoice(entry, addressAt, addressScript, req, order, blindings);
    ChosenAreOffered(entry.unspent, req, order);
    var choice := ChooseCoins(entry.unspent, req, order).value;
    ChangeIsOwn(entry, addressAt, addressScript, req, choice, blindings);
    AssetChangeTotal(AssetRest(req, d.assetInput), choice.selection.spare, d.changeVout, blindings.change);
  }

  /** Asset change stays in the wallet, on an outpoint this transaction does not spend. */
  lemma AssetChangeIsSafe(entry: ContractCache, addressAt: AddressAt, addressScript: AddressScript,
                          req: TransferRequest, order: seq<Utxo>, blindings: Blindings, seal: Seal)
    requires req.info.Rgb? && Offered(entry, req, order) && UniquePerAsset(entry.unspent)
    requires Plan(entry, addressAt, addressScript, req, order, blindings).Success?
    requires seal in Plan(entry, addressAt, addressScript, req, order, blindings).value.rgbChange
    ensures SafeSeal(seal, Plan(entry, addressAt, addressScript, req, order, blindings).value,
                     Candidates(entry.unspent, req.info).value, NextUnused(entry.used),
                     addressAt, addressScript)
  {
    var d := Plan(entry, addressAt, addressScript, req, order, blindings).value;
    DraftFollowsChoice(entry, addressAt, addressScript, req, order, blindings);
    ChosenAreOffered(entry.unspent, req, order);
    var choice := ChooseCoins(entry.unspent, req, order).value;
    ChangeIsOwn(entry, addressAt, addressScript, req, choice, blindings);
    AssetChangeTotal(AssetRest(req, d.assetInput), choice.selection.spare, d.changeVout, blindings.change);
    match seal
    case OutpointSeal(o, _) =>
      SpareIsHeld(LargestFirst(order), Candidates(entry.unspent, req.info).value, Target(req));
    case WitnessSeal(vout, _) =>
  }

  lemma SpareIsHeld(coins: seq<Utxo>, held: set<Utxo>, target: nat)
    requires Enumerates(coins, held) && UniqueOutpoints(held) && DescendingValues(coins)
    requires Select(coins, target).spare.Some?
    ensures LargestLeft(Select(coins, target).spare.value, Select(coins, target).picked, held)
  {
    var sel := Select(coins, target);
    forall i, j | 0 <= i < j < |coins|
      ensures coins[i].Outpoint() != coins[j].Outpoint()
    {
      assert coins[i] in Elements(coins) && coins[j] in Elements(coins);
    }
    SpareIsNotSpent(coins, target);
    SpareIsLargest(coins, target);
    var v := coins[|sel.picked|];
    assert v in Elements(coins);
    assert forall x | x in held :: x in Elements(coins);
  }

  lemma OneCoinChosen(unspent: Unspent, req: TransferRequest, coin: Utxo)
    requires Candidates(unspent, req.info) == Success({coin})
    requires 0 < Target(req) <= coin.value
    ensures ChooseCoins(unspent, req, [coin]) == Success(Choice(Selection([coin], coin.value, None), coin.value))
  {
    OneCoinSorted(coin);
    OneCoinSelected(coin, Target(req));
  }

  /** Which refusals settling can end in. */
  lemma SettleErrors(entry: ContractCache, addressAt: AddressAt, addressScript: AddressScript,
                     req: TransferRequest, choice: Choice, blindings: Blindings)
    ensures var r := Settle(entry, addressAt, addressScript, req, choice, blindings);
            var own := addressAt(NextUnused(entry.used), false);
      && (r == Failure(CacheInconsistency) <==>
          !(req.info.Rgb? && req.info.receiver.PsbtReceiver?) && BITCOIN !in entry.unspent)
      && (r == Failure(WrongDerivation) ==>
          own.Some? && own.value in entry.used && entry.used[own.value] != NextUnused(entry.used))
      && (r.Failure? ==> r.error in {UnsupportedReceiver, CacheInconsistency, Overflow, NoChangeAddress,
                                     WrongDerivation, NoChangeSeal})
  {
  }
}
