/** What the wallet cache holds for each contract, and the views computed from it. */
module CacheModel {
  import opened WalletTypes
  import opened Collections

  type Unspent = map<AssetId, set<Utxo>>
  type Allocations = map<OutPoint, map<AssetId, u64>>

  datatype ContractCache = ContractCache(
    updatedHeight: u32,
    used: map<Address, Index>,
    utxo: set<OutPoint>,
    unspent: Unspent)

  datatype Cache = Cache(
    knownHeight: u32,
    descriptors: map<ContractId, ContractCache>,
    mineInfo: map<BlockPos, Txid>)

  const EMPTY_ENTRY := ContractCache(0, map[], {}, map[])
  const EMPTY_CACHE := Cache(0, map[], map[])

  /** The entry of a contract, or the default one. */
  function Entry(cache: Cache, id: ContractId): ContractCache {
    if id in cache.descriptors then cache.descriptors[id] else EMPTY_ENTRY
  }

  // ----- allocations: what each outpoint carries -----

  function AtOutpoint(utxos: set<Utxo>, o: OutPoint): set<Utxo> {
    set u | u in utxos && u.Outpoint() == o
  }

  ghost function AmountAt(utxos: set<Utxo>): OutPoint -> nat {
    (o: OutPoint) => Sum(AtOutpoint(utxos, o), ValueOf)
  }

  ghost function AssetsAt(unspent: Unspent, o: OutPoint): map<AssetId, nat> {
    map a | a in unspent && o in OutpointsOf(unspent[a]) :: AmountAt(unspent[a])(o)
  }

  ghost function AllOutpoints(unspent: Unspent): set<OutPoint> {
    set a, u | a in unspent && u in unspent[a] :: u.Outpoint()
  }

  /** Each outpoint is mapped to the assets found on it, each with the sum of its
      matching outputs: the order in which hash sets are walked plays no part. */
  ghost function AllocationsOf(unspent: Unspent): map<OutPoint, map<AssetId, nat>> {
    map o | o in AllOutpoints(unspent) :: AssetsAt(unspent, o)
  }

  ghost predicate AssetFits(utxos: set<Utxo>) {
    forall o | o in OutpointsOf(utxos) :: AmountAt(utxos)(o) < U64_LIMIT
  }

  ghost predicate AmountsFit(unspent: Unspent) {
    forall a | a in unspent :: AssetFits(unspent[a])
  }

  lemma AddAtOutpoint(utxos: set<Utxo>, u: Utxo)
    requires u !in utxos
    ensures AmountAt(utxos + {u})(u.Outpoint()) == AmountAt(utxos)(u.Outpoint()) + u.value
    ensures forall o | o != u.Outpoint() :: AmountAt(utxos + {u})(o) == AmountAt(utxos)(o)
    ensures u.Outpoint() !in OutpointsOf(utxos) ==> AmountAt(utxos)(u.Outpoint()) == 0
    ensures OutpointsOf(utxos + {u}) == OutpointsOf(utxos) + {u.Outpoint()}
  {
    var o := u.Outpoint();
    assert AtOutpoint(utxos + {u}, o) == AtOutpoint(utxos, o) + {u};
    SumAdd(AtOutpoint(utxos, o), ValueOf, u);
    forall p | p != o
      ensures AmountAt(utxos + {u})(p) == AmountAt(utxos)(p)
    {
      assert AtOutpoint(utxos + {u}, p) == AtOutpoint(utxos, p);
    }
    if o !in OutpointsOf(utxos) {
      assert AtOutpoint(utxos, o) == {};
    }
  }

  lemma OutpointsWith(unspent: Unspent, a: AssetId, utxos: set<Utxo>)
    requires a in unspent ==> unspent[a] <= utxos
    ensures AllOutpoints(unspent[a := utxos]) == AllOutpoints(unspent) + OutpointsOf(utxos)
  {
    var more := unspent[a := utxos];
    forall o | o in AllOutpoints(unspent)
      ensures o in AllOutpoints(more)
    {
      var b, v :| b in unspent && v in unspent[b] && v.Outpoint() == o;
      assert b in more && v in more[b];
    }
    forall o | o in OutpointsOf(utxos)
      ensures o in AllOutpoints(more)
    {
      var v :| v in utxos && v.Outpoint() == o;
      assert a in more && v in more[a];
    }
  }

  /** One step of the accumulation credits one asset on one outpoint. */
  lemma CreditOne(unspent: Unspent, a: AssetId, u: Utxo)
    requires a in unspent && u !in unspent[a]
    ensures var o := u.Outpoint();
      && AllocationsOf(unspent[a := unspent[a] + {u}]) ==
         AllocationsOf(unspent)[o := AssetsAt(unspent, o)[a := AmountAt(unspent[a])(o) + u.value]]
  {
    var o := u.Outpoint();
    var more := unspent[a := unspent[a] + {u}];
    AddAtOutpoint(unspent[a], u);
    assert AllOutpoints(more) == AllOutpoints(unspent) + {o} by {
      OutpointsWith(unspent, a, unspent[a] + {u});
      assert OutpointsOf(unspent[a]) <= AllOutpoints(unspent);
    }
    forall p | p != o
      ensures AssetsAt(more, p) == AssetsAt(unspent, p)
    {
      AssetsElsewhere(unspent, more, a, p);
    }
    assert AssetsAt(more, o) == AssetsAt(unspent, o)[a := AmountAt(unspent[a])(o) + u.value];
    AllocationsDiffer(unspent, more, o);
  }

  lemma AssetsElsewhere(unspent: Unspent, more: Unspent, a: AssetId, p: OutPoint)
    requires a in unspent && a in more && more == unspent[a := more[a]]
    requires p in OutpointsOf(more[a]) <==> p in OutpointsOf(unspent[a])
    requires AmountAt(more[a])(p) == AmountAt(unspent[a])(p)
    ensures AssetsAt(more, p) == AssetsAt(unspent, p)
  {
  }

  lemma AllocationsDiffer(unspent: Unspent, more: Unspent, o: OutPoint)
    requires AllOutpoints(more) == AllOutpoints(unspent) + {o}
    requires forall p | p != o :: AssetsAt(more, p) == AssetsAt(unspent, p)
    ensures AllocationsOf(more) == AllocationsOf(unspent)[o := AssetsAt(more, o)]
  {
  }

  lemma CreditNone(unspent: Unspent, a: AssetId)
    requires a !in unspent
    ensures AllocationsOf(unspent[a := {}]) == AllocationsOf(unspent)
  {
    OutpointsWith(unspent, a, {});
    forall p
      ensures AssetsAt(unspent[a := {}], p) == AssetsAt(unspent, p)
    {
    }
  }

  ghost function HeldAt(unspent: Unspent, o: OutPoint): map<AssetId, nat> {
    if o in AllocationsOf(unspent) then AllocationsOf(unspent)[o] else map[]
  }

  lemma HeldIsAssetsAt(unspent: Unspent, a: AssetId, o: OutPoint)
    requires a in unspent
    ensures HeldAt(unspent, o) == AssetsAt(unspent, o)
    ensures AmountAt(unspent[a])(o) == if a in AssetsAt(unspent, o) then AssetsAt(unspent, o)[a] else 0
  {
    if o !in OutpointsOf(unspent[a]) {
      assert AtOutpoint(unspent[a], o) == {};
    }
  }

  /** What an asset amounts to, summed outpoint by outpoint, is what its outputs
      amount to. */
  lemma {:induction false} AllocationTotals(utxos: set<Utxo>)
    ensures Sum(OutpointsOf(utxos), AmountAt(utxos)) == Sum(utxos, ValueOf)
    decreases utxos
  {
    if utxos != {} {
      var u :| u in utxos;
      var less := utxos - {u};
      var o := u.Outpoint();
      assert utxos == less + {u};
      AllocationTotals(less);
      SumTake(utxos, ValueOf, u);
      AddAtOutpoint(less, u);
      var others := OutpointsOf(less) - {o};
      SumCongruence(others, AmountAt(utxos), AmountAt(less));
      SumTake(OutpointsOf(utxos), AmountAt(utxos), o);
      assert OutpointsOf(utxos) - {o} == others;
      if o in OutpointsOf(less) {
        SumTake(OutpointsOf(less), AmountAt(less), o);
      } else {
        assert others == OutpointsOf(less);
      }
    }
  }

  /** Adding one output to the running totals, creating the entries it needs. */
  method Credit(acc: Allocations, ghost done: Unspent, a: AssetId, u: Utxo)
    returns (r: Result<Allocations>)
    requires acc == AllocationsOf(done)
    requires a in done && u !in done[a]
    ensures r.Success? <==> AmountAt(done[a] + {u})(u.Outpoint()) < U64_LIMIT
    ensures r.Success? ==> r.value == AllocationsOf(done[a := done[a] + {u}])
    ensures r.Failure? ==> r.error == Overflow
  {
    var o := u.Outpoint();
    HeldIsAssetsAt(done, a, o);
    assert AmountAt(done[a] + {u})(o) == AmountAt(done[a])(o) + u.value by {
      AddAtOutpoint(done[a], u);
    }
    CreditOne(done, a, u);
    var held: map<AssetId, u64> := if o in acc then acc[o] else map[];
    var before: u64 := if a in held then held[a] else 0;
    if before + u.value >= U64_LIMIT {
      return Failure(Overflow);
    }
    return Success(acc[o := held[a := before + u.value]]);
  }

  /** Crediting all outputs of one asset, walked in any order. */
  method CreditAsset(acc: Allocations, ghost done: Unspent, a: AssetId, utxos: set<Utxo>)
    returns (r: Result<Allocations>)
    requires acc == AllocationsOf(done)
    requires a !in done
    ensures r.Success? <==> AssetFits(utxos)
    ensures r.Success? ==> r.value == AllocationsOf(done[a := utxos])
    ensures r.Failure? ==> r.error == Overflow
  {
    var rest, totals := utxos, acc;
    CreditNone(done, a);
    ghost var part: set<Utxo> := {};
    while rest != {}
      invariant rest <= utxos && part == utxos - rest
      invariant totals == AllocationsOf(done[a := part])
      invariant AssetFits(part)
      decreases rest
    {
      var u :| u in rest;
      var credited := Credit(totals, done[a := part], a, u);
      AmountGrows(part + {u}, utxos, u.Outpoint());
      AddAtOutpoint(part, u);
      assert done[a := part][a := part + {u}] == done[a := part + {u}];
      if credited.Failure? {
        return credited;
      }
      totals, rest, part := credited.value, rest - {u}, part + {u};
    }
    assert part == utxos;
    return Success(totals);
  }

  /** The accumulation over all assets and outputs. */
  method ComputeAllocations(unspent: Unspent) returns (r: Result<Allocations>)
    ensures r.Success? <==> AmountsFit(unspent)
    ensures r.Success? ==> r.value == AllocationsOf(unspent)
    ensures r.Failure? ==> r.error == Overflow
  {
    var acc: Allocations := map[];
    var assets := unspent.Keys;
    ghost var done: Unspent := map[];
    while assets != {}
      invariant assets <= unspent.Keys
      invariant done == map b | b in unspent.Keys - assets :: unspent[b]
      invariant acc == AllocationsOf(done)
      invariant AmountsFit(done)
      decreases assets
    {
      var a :| a in assets;
      var credited := CreditAsset(acc, done, a, unspent[a]);
      if credited.Failure? {
        return credited;
      }
      acc, assets, done := credited.value, assets - {a}, done[a := unspent[a]];
    }
    assert done == unspent;
    return Success(acc);
  }

  lemma AmountGrows(part: set<Utxo>, whole: set<Utxo>, o: OutPoint)
    requires part <= whole
    ensures AmountAt(part)(o) <= AmountAt(whole)(o)
    ensures OutpointsOf(part) <= OutpointsOf(whole)
  {
    SumMonotone(AtOutpoint(part, o), AtOutpoint(whole, o), ValueOf);
  }

  // ----- bitcoin outputs that carry nothing else -----

  ghost function AmountIn(m: map<AssetId, nat>): AssetId -> nat {
    (a: AssetId) => if a in m then m[a] else 0
  }

  ghost function MapTotal(m: map<AssetId, nat>): nat {
    Sum(m.Keys, AmountIn(m))
  }

  ghost function RgbTotal(unspent: Unspent, o: OutPoint): nat {
    MapTotal(AssetsAt(unspent, o) - {BITCOIN})
  }

  /** Everything the view adds up stays within u64. */
  ghost predicate Countable(unspent: Unspent) {
    && AmountsFit(unspent)
    && forall o | o in AllOutpoints(unspent) :: RgbTotal(unspent, o) < U64_LIMIT
  }

  /** No other asset has a positive value on this outpoint. */
  ghost predicate CarriesNoAsset(unspent: Unspent, o: OutPoint) {
    forall a, v | a in unspent && a != BITCOIN && v in unspent[a] && v.Outpoint() == o ::
      v.value == 0
  }

  ghost function PureBitcoin(unspent: Unspent): set<Utxo> {
    if BITCOIN !in unspent then {}
    else set u | u in unspent[BITCOIN] && CarriesNoAsset(unspent, u.Outpoint())
  }

  lemma AmountZero(utxos: set<Utxo>, o: OutPoint)
    ensures AmountAt(utxos)(o) == 0 <==> forall v | v in utxos && v.Outpoint() == o :: v.value == 0
  {
    SumZero(AtOutpoint(utxos, o), ValueOf);
    assert forall v | v in AtOutpoint(utxos, o) :: ValueOf(v) == v.value;
  }

  lemma RgbTotalZero(unspent: Unspent, o: OutPoint)
    ensures RgbTotal(unspent, o) == 0 <==> CarriesNoAsset(unspent, o)
  {
    var m := AssetsAt(unspent, o) - {BITCOIN};
    SumZero(m.Keys, AmountIn(m));
    forall a | a in unspent && a != BITCOIN
      ensures AmountIn(m)(a) == 0 <==>
              forall v | v in unspent[a] && v.Outpoint() == o :: v.value == 0
    {
      HeldIsAssetsAt(unspent, a, o);
      AmountZero(unspent[a], o);
    }
  }

  method AddUp(amounts: map<AssetId, u64>) returns (r: Result<u64>)
    ensures r.Success? <==> MapTotal(amounts) < U64_LIMIT
    ensures r.Success? ==> r.value == MapTotal(amounts)
    ensures r.Failure? ==> r.error == Overflow
  {
    var rest := amounts.Keys;
    var total: u64 := 0;
    while rest != {}
      invariant rest <= amounts.Keys
      invariant total == Sum(amounts.Keys - rest, AmountIn(amounts))
      decreases rest
    {
      var a :| a in rest;
      assert amounts.Keys - (rest - {a}) == amounts.Keys - rest + {a};
      SumAdd(amounts.Keys - rest, AmountIn(amounts), a);
      SumMonotone(amounts.Keys - (rest - {a}), amounts.Keys, AmountIn(amounts));
      if total + amounts[a] >= U64_LIMIT {
        return Failure(Overflow);
      }
      total, rest := total + amounts[a], rest - {a};
    }
    assert amounts.Keys - rest == amounts.Keys;
    return Success(total);
  }

  ghost function AssetTotal(assets: map<AssetId, nat>): nat {
    MapTotal(assets - {BITCOIN})
  }

  /** The outpoints of the allocations that add up to no other asset. */
  method FreeOutpoints(allocations: Allocations) returns (r: Result<set<OutPoint>>)
    ensures r.Success? <==> forall o | o in allocations :: AssetTotal(allocations[o]) < U64_LIMIT
    ensures r.Success? ==>
      forall o :: o in r.value <==> o in allocations && AssetTotal(allocations[o]) == 0
    ensures r.Failure? ==> r.error == Overflow
  {
    var rest := allocations.Keys;
    var free: set<OutPoint> := {};
    while rest != {}
      invariant rest <= allocations.Keys && free <= allocations.Keys - rest
      invariant forall o | o in allocations && o !in rest ::
        AssetTotal(allocations[o]) < U64_LIMIT && (o in free <==> AssetTotal(allocations[o]) == 0)
      decreases rest
    {
      var o :| o in rest;
      var total := AddUp(allocations[o] - {BITCOIN});
      if total.Failure? {
        return Failure(Overflow);
      }
      free := if total.value == 0 then free + {o} else free;
      rest := rest - {o};
    }
    return Success(free);
  }

  lemma PureByTotals(unspent: Unspent, bitcoin: set<Utxo>, free: set<OutPoint>)
    requires forall o :: o in free <==> o in AllOutpoints(unspent) && RgbTotal(unspent, o) == 0
    requires bitcoin == if BITCOIN in unspent then unspent[BITCOIN] else {}
    ensures (set u | u in bitcoin && u.Outpoint() in free) == PureBitcoin(unspent)
  {
    forall u | u in bitcoin
      ensures u.Outpoint() in free <==> CarriesNoAsset(unspent, u.Outpoint())
    {
      RgbTotalZero(unspent, u.Outpoint());
    }
  }

  /** Bitcoin outputs whose outpoint adds up to no other asset. */
  method UnspentBitcoinOnly(unspent: Unspent) returns (r: Result<set<Utxo>>)
    ensures r.Success? <==> Countable(unspent)
    ensures r.Success? ==> r.value == PureBitcoin(unspent)
    ensures r.Failure? ==> r.error == Overflow
  {
    var allocations := ComputeAllocations(unspent);
    if allocations.Failure? {
      return Failure(Overflow);
    }
    var free := FreeOutpoints(allocations.value);
    assert forall o | o in AllOutpoints(unspent) ::
        AssetTotal(allocations.value[o]) == RgbTotal(unspent, o);
    if free.Failure? {
      return Failure(Overflow);
    }
    var bitcoin := if BITCOIN in unspent then unspent[BITCOIN] else {};
    PureByTotals(unspent, bitcoin, free.value);
    return Success(set u | u in bitcoin && u.Outpoint() in free.value);
  }

  // ----- derivation indexes -----

  predicate IsHighest(m: Index, s: set<Index>) {
    forall i | i in s :: i <= m
  }

  function Headroom(i: Index): int {
    LARGEST_INDEX - i
  }

  lemma HighestExists(s: set<Index>)
    requires s != {}
    ensures exists m :: m in s && IsHighest(m, s)
  {
    LeastExists(s, Headroom);
    var m :| m in s && IsLeast(m, s, Headroom);
    assert forall i | i in s :: Headroom(m) <= Headroom(i);
  }

  function Highest(s: set<Index>): (r: Option<Index>)
    ensures r.None? <==> s == {}
    ensures r.Some? ==> r.value in s && IsHighest(r.value, s)
  {
    if s == {} then None else
      HighestExists(s);
      var m :| m in s && IsHighest(m, s);
      Some(m)
  }

  /** One above the largest used index, or zero when nothing is used or nothing
      is above. */
  function NextUnused(used: map<Address, Index>): Index {
    match Highest(used.Values)
    case None => 0
    case Some(m) => match CheckedAdd(m, 1) case None => 0 case Some(i) => i
  }

  function LastUsed(used: map<Address, Index>): Index {
    match Highest(used.Values) case None => 0 case Some(m) => m
  }

  /** The next index is above every used one exactly while the last index is free. */
  lemma NextIsFresh(used: map<Address, Index>)
    ensures (forall i | i in used.Values :: i < NextUnused(used)) <==> LARGEST_INDEX !in used.Values
    ensures LARGEST_INDEX !in used.Values ==> NextUnused(used) !in used.Values
  {
  }
}
