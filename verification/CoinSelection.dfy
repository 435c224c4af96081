/** Largest-first selection of the coins that pay for a transfer. */
module CoinSelection {
  import opened WalletTypes
  import opened Collections

  // ----- ordering the coins -----

  /** Stable insertion by ascending value: the new coin goes behind its equals. */
  function InsertByValue(s: seq<Utxo>, u: Utxo): seq<Utxo> {
    if s == [] || s[|s| - 1].value <= u.value then s + [u]
    else InsertByValue(s[..|s| - 1], u) + [s[|s| - 1]]
  }

  function SortByValue(s: seq<Utxo>): seq<Utxo> {
    if s == [] then [] else InsertByValue(SortByValue(s[..|s| - 1]), s[|s| - 1])
  }

  function Reverse(s: seq<Utxo>): seq<Utxo> {
    seq(|s|, i requires 0 <= i < |s| => s[|s| - 1 - i])
  }

  /** The coins in the order they are tried: by descending value. */
  function LargestFirst(coins: seq<Utxo>): seq<Utxo> {
    Reverse(SortByValue(coins))
  }

  ghost predicate AscendingValues(s: seq<Utxo>) {
    forall i, j | 0 <= i < j < |s| :: s[i].value <= s[j].value
  }

  ghost predicate DescendingValues(s: seq<Utxo>) {
    forall i, j | 0 <= i < j < |s| :: s[j].value <= s[i].value
  }

  /** A listing of a hash set: every element once, in any order. */
  ghost predicate Enumerates<T>(s: seq<T>, all: set<T>) {
    NoDuplicates(s) && Elements(s) == all
  }

  lemma {:induction false} InsertKeepsCoins(s: seq<Utxo>, u: Utxo)
    ensures multiset(InsertByValue(s, u)) == multiset(s) + multiset{u}
  {
    if s != [] && s[|s| - 1].value > u.value {
      InsertKeepsCoins(s[..|s| - 1], u);
      assert s == s[..|s| - 1] + [s[|s| - 1]];
    }
  }

  lemma {:induction false} InsertSorts(s: seq<Utxo>, u: Utxo)
    requires AscendingValues(s)
    ensures AscendingValues(InsertByValue(s, u))
  {
    if s != [] && s[|s| - 1].value > u.value {
      var init, last := s[..|s| - 1], s[|s| - 1];
      InsertSorts(init, u);
      var r := InsertByValue(init, u);
      forall k | 0 <= k < |r|
        ensures r[k].value <= last.value
      {
        InsertedIsOld(init, u, r[k]);
      }
    }
  }

  lemma InsertedIsOld(s: seq<Utxo>, u: Utxo, w: Utxo)
    requires w in InsertByValue(s, u)
    ensures w == u || w in s
  {
    InsertKeepsCoins(s, u);
    assert w in multiset(InsertByValue(s, u));
    assert w in multiset(s) + multiset{u};
  }

  lemma {:induction false} SortSorts(s: seq<Utxo>)
    ensures AscendingValues(SortByValue(s))
    ensures multiset(SortByValue(s)) == multiset(s)
  {
    if s != [] {
      var init, last := s[..|s| - 1], s[|s| - 1];
      SortSorts(init);
      InsertSorts(SortByValue(init), last);
      InsertKeepsCoins(SortByValue(init), last);
      LastJoins(s);
    }
  }

  lemma LastJoins(s: seq<Utxo>)
    requires s != []
    ensures multiset(s) == multiset(s[..|s| - 1]) + multiset{s[|s| - 1]}
  {
    assert s == s[..|s| - 1] + [s[|s| - 1]];
  }

  lemma {:induction false} ReverseKeepsCoins(s: seq<Utxo>)
    ensures multiset(Reverse(s)) == multiset(s)
  {
    if s != [] {
      var init, last := s[..|s| - 1], s[|s| - 1];
      ReverseKeepsCoins(init);
      assert Reverse(s) == [last] + Reverse(init);
      assert s == init + [last];
    }
  }

  lemma SamePopulation<T>(s: seq<T>, t: seq<T>)
    requires multiset(s) == multiset(t)
    ensures Elements(s) == Elements(t)
    ensures NoDuplicates(s) ==> NoDuplicates(t)
  {
    forall x
      ensures x in s <==> x in t
    {
      assert x in multiset(s) <==> x in multiset(t);
    }
    if NoDuplicates(s) {
      SingleOccurrences(s);
      RepeatOccurs(t);
    }
  }

  lemma {:induction false} SingleOccurrences<T>(s: seq<T>)
    requires NoDuplicates(s)
    ensures forall x :: multiset(s)[x] <= 1
  {
    if s != [] {
      var init, last := s[..|s| - 1], s[|s| - 1];
      SingleOccurrences(init);
      assert s == init + [last];
      assert last !in init;
    }
  }

  lemma RepeatOccurs<T>(t: seq<T>)
    ensures NoDuplicates(t) || exists x :: multiset(t)[x] > 1
  {
    if !NoDuplicates(t) {
      var i, j :| 0 <= i < j < |t| && t[i] == t[j];
      assert t == t[..j] + [t[j]] + t[j + 1..];
      assert t[i] == t[..j][i];
      assert multiset(t)[t[j]] > 1;
    }
  }

  /** Sorting and reversing keeps exactly the coins of the hash set. */
  lemma LargestFirstSorts(coins: seq<Utxo>, all: set<Utxo>)
    requires Enumerates(coins, all)
    ensures DescendingValues(LargestFirst(coins))
    ensures Enumerates(LargestFirst(coins), all)
  {
    SortSorts(coins);
    ReverseKeepsCoins(SortByValue(coins));
    SamePopulation(coins, LargestFirst(coins));
  }

  // ----- selecting -----

  datatype Selection = Selection(picked: seq<Utxo>, total: nat, spare: Option<OutPoint>)

  /** Where the selecting pass stops taking coins: at the target, at the first
      worthless coin, or at the end. */
  function Needed(coins: seq<Utxo>, target: nat, k: nat): (n: nat)
    requires k <= |coins|
    ensures k <= n <= |coins|
    decreases |coins| - k
  {
    if k == |coins| || SeqSum(coins[..k], ValueOf) >= target || coins[k].value == 0 then k
    else Needed(coins, target, k + 1)
  }

  function Select(coins: seq<Utxo>, target: nat): Selection {
    var picked := coins[..Needed(coins, target, 0)];
    var total := SeqSum(picked, ValueOf);
    Selection(picked, total,
      if total >= target && |picked| < |coins| then Some(coins[|picked|].Outpoint()) else None)
  }

  /** The first coins reach the target exactly when all coins do; one coin fewer
      always falls short. */
  lemma {:induction false} NeededIsLeast(coins: seq<Utxo>, target: nat, k: nat)
    requires DescendingValues(coins) && k <= |coins|
    ensures var n := Needed(coins, target, k);
      && (SeqSum(coins[..n], ValueOf) >= target <==> SeqSum(coins, ValueOf) >= target)
      && (k < n ==> SeqSum(coins[..n - 1], ValueOf) < target)
    decreases |coins| - k
  {
    PrefixWhole(coins, k, ValueOf);
    if k == |coins| {
      assert coins[..k] == coins;
    } else if SeqSum(coins[..k], ValueOf) >= target {
    } else if coins[k].value == 0 {
      WorthlessTail(coins, k);
    } else {
      NeededIsLeast(coins, target, k + 1);
    }
  }

  /** Nothing worthless is spent. */
  lemma {:induction false} NeededIsPositive(coins: seq<Utxo>, target: nat, k: nat)
    requires k <= |coins|
    ensures forall i | k <= i < Needed(coins, target, k) :: coins[i].value > 0
    decreases |coins| - k
  {
    if k < |coins| && SeqSum(coins[..k], ValueOf) < target && coins[k].value > 0 {
      NeededIsPositive(coins, target, k + 1);
    }
  }

  lemma {:induction false} WorthlessTail(coins: seq<Utxo>, k: nat)
    requires k <= |coins|
    requires forall i | k <= i < |coins| :: coins[i].value == 0
    ensures SeqSum(coins, ValueOf) == SeqSum(coins[..k], ValueOf)
  {
    if k == |coins| {
      assert coins[..k] == coins;
    } else {
      var init := coins[..|coins| - 1];
      WorthlessTail(init, k);
      assert init[..k] == coins[..k];
    }
  }

  /** Selection succeeds exactly when the whole balance reaches the target, and the
      change it leaves is smaller than every coin it spends. */
  lemma SelectionIsTight(coins: seq<Utxo>, target: nat)
    requires DescendingValues(coins)
    ensures var sel := Select(coins, target);
      && (sel.total >= target <==> SeqSum(coins, ValueOf) >= target)
      && (forall u | u in sel.picked :: u.value > 0 && sel.total - u.value < target)
      && sel.total <= SeqSum(coins, ValueOf)
  {
    NeededIsLeast(coins, target, 0);
    NeededIsPositive(coins, target, 0);
    var k := Needed(coins, target, 0);
    PrefixWhole(coins, k, ValueOf);
    if k > 0 {
      PrefixStep(coins, k - 1, ValueOf);
    }
  }

  /** Among subsets of a given size the largest coins are worth the most: swap the
      coins outside the leading ones for the leading ones left out. */
  lemma LargestAreWorthMost(coins: seq<Utxo>, part: set<Utxo>)
    requires DescendingValues(coins) && NoDuplicates(coins)
    requires part <= Elements(coins) && |part| <= |coins|
    ensures Sum(part, ValueOf) <= SeqSum(coins[..|part|], ValueOf)
  {
    var lead := coins[..|part|];
    ElementsSize(lead);
    SeqSumIsSum(lead, ValueOf);
    forall x, y | x in part - Elements(lead) && y in Elements(lead) - part
      ensures ValueOf(x) <= ValueOf(y)
    {
      LeadingIsLarger(coins, |part|, x, y);
    }
    SumCompare(part, Elements(lead), ValueOf);
  }

  lemma LeadingIsLarger(coins: seq<Utxo>, k: nat, x: Utxo, y: Utxo)
    requires DescendingValues(coins) && k <= |coins|
    requires x in coins && x !in coins[..k] && y in coins[..k]
    ensures x.value <= y.value
  {
    var i :| 0 <= i < |coins| && coins[i] == x;
    var j :| 0 <= j < k && coins[j] == y;
    assert forall m | 0 <= m < k :: coins[..k][m] == coins[m];
  }

  /** Largest-first is optimal: no set of coins reaching the target is smaller. */
  lemma FewestCoins(coins: seq<Utxo>, target: nat, other: set<Utxo>)
    requires DescendingValues(coins) && NoDuplicates(coins)
    requires other <= Elements(coins) && Sum(other, ValueOf) >= target
    ensures |Select(coins, target).picked| <= |other|
  {
    NeededIsLeast(coins, target, 0);
    var k := Needed(coins, target, 0);
    if |other| < k {
      LargestAreWorthMost(coins, other);
      PrefixMonotone(coins, |other|, k - 1, ValueOf);
    }
  }

  /** Whatever order the hash set hands the coins out in, equally many are taken and they
      are worth the same, for a target within reach or beyond it. */
  lemma OrderDoesNotMatter(one: seq<Utxo>, other: seq<Utxo>, all: set<Utxo>, target: nat)
    requires Enumerates(one, all) && Enumerates(other, all)
    ensures var a, b := Select(LargestFirst(one), target), Select(LargestFirst(other), target);
      |a.picked| == |b.picked| && a.total == b.total
  {
    LargestFirstSorts(one, all);
    LargestFirstSorts(other, all);
    NoDearerThan(LargestFirst(one), LargestFirst(other), all, target);
    NoDearerThan(LargestFirst(other), LargestFirst(one), all, target);
    NoRicherThan(LargestFirst(one), LargestFirst(other), all, target);
    NoRicherThan(LargestFirst(other), LargestFirst(one), all, target);
  }

  lemma NoDearerThan(one: seq<Utxo>, other: seq<Utxo>, all: set<Utxo>, target: nat)
    requires Enumerates(one, all) && Enumerates(other, all)
    requires DescendingValues(one) && DescendingValues(other)
    ensures |Select(one, target).picked| <= |Select(other, target).picked|
  {
    var theirs := Select(other, target).picked;
    ElementsSize(theirs);
    SeqSumIsSum(other, ValueOf);
    if target <= Sum(all, ValueOf) {
      SelectionIsTight(other, target);
      SeqSumIsSum(theirs, ValueOf);
      assert Elements(theirs) <= Elements(other);
      FewestCoins(one, target, Elements(theirs));
    } else {
      SeqSumIsSum(one, ValueOf);
      ShortTakesAll(one, target);
      ShortTakesAll(other, target);
      ElementsSize(Select(one, target).picked);
    }
  }

  /** Beyond reach, exactly the coins of positive value are taken. */
  lemma ShortTakesAll(coins: seq<Utxo>, target: nat)
    requires DescendingValues(coins) && SeqSum(coins, ValueOf) < target
    ensures Elements(Select(coins, target).picked) == set u | u in Elements(coins) && u.value > 0
  {
    var n := Needed(coins, target, 0);
    PrefixWhole(coins, n, ValueOf);
    NeededStops(coins, target, 0);
    NeededIsPositive(coins, target, 0);
    LeadingPositive(coins, n);
  }

  lemma LeadingPositive(coins: seq<Utxo>, n: nat)
    requires DescendingValues(coins) && n <= |coins|
    requires n < |coins| ==> coins[n].value == 0
    requires forall i | 0 <= i < n :: coins[i].value > 0
    ensures Elements(coins[..n]) == set u | u in Elements(coins) && u.value > 0
  {
    forall u | u in coins && u.value > 0
      ensures u in coins[..n]
    {
      var i :| 0 <= i < |coins| && coins[i] == u;
      assert i < n && coins[..n][i] == u;
    }
  }

  lemma {:induction false} NeededStops(coins: seq<Utxo>, target: nat, k: nat)
    requires k <= |coins|
    ensures var n := Needed(coins, target, k);
      n == |coins| || SeqSum(coins[..n], ValueOf) >= target || coins[n].value == 0
    decreases |coins| - k
  {
    if k < |coins| && SeqSum(coins[..k], ValueOf) < target && coins[k].value > 0 {
      NeededStops(coins, target, k + 1);
    }
  }

  lemma NoRicherThan(one: seq<Utxo>, other: seq<Utxo>, all: set<Utxo>, target: nat)
    requires Enumerates(one, all) && Enumerates(other, all)
    requires DescendingValues(one) && DescendingValues(other)
    requires |Select(one, target).picked| == |Select(other, target).picked|
    ensures Select(one, target).total <= Select(other, target).total
  {
    var ours := Select(one, target).picked;
    SeqSumIsSum(ours, ValueOf);
    ElementsSize(ours);
    assert Elements(ours) <= Elements(one);
    LargestAreWorthMost(other, Elements(ours));
  }

  // ----- every order of the hash set -----

  /** Largest coins that reach the target, none of which can be spared. */
  ghost predicate Leading(part: set<Utxo>, all: set<Utxo>, target: nat) {
    && part <= all && (forall x, y | x in part && y in all - part :: y.value <= x.value)
    && Sum(part, ValueOf) >= target && (forall x | x in part :: Sum(part, ValueOf) - x.value < target)
  }

  /** What is picked in any order leads. */
  lemma PickedIsLeading(order: seq<Utxo>, all: set<Utxo>, target: nat)
    requires Enumerates(order, all) && Sum(all, ValueOf) >= target
    ensures Leading(Elements(Select(LargestFirst(order), target).picked), all, target)
  {
    var coins := LargestFirst(order);
    LargestFirstSorts(order, all);
    var sel := Select(coins, target);
    SeqSumIsSum(coins, ValueOf);
    SeqSumIsSum(sel.picked, ValueOf);
    SelectionIsTight(coins, target);
    forall x, y | x in Elements(sel.picked) && y in all - Elements(sel.picked)
      ensures y.value <= x.value
    {
      assert y in Elements(coins);
      LeadingIsLarger(coins, |sel.picked|, y, x);
    }
    assert forall u | u in sel.picked :: u in Elements(coins);
  }

  /** Whatever leads is picked in some order: the other coins first, and then these,
      each by ascending value. */
  lemma LeadingIsPicked(part: set<Utxo>, all: set<Utxo>, target: nat) returns (order: seq<Utxo>)
    requires Leading(part, all, target)
    ensures Enumerates(order, all)
    ensures Elements(Select(LargestFirst(order), target).picked) == part
  {
    var front := SortedListing(part);
    var back := SortedListing(all - part);
    order := back + front;
    ListingsJoin(back, front, all - part, part);
    assert all - part + part == all;
    SortKeepsSorted(order);
    ReverseJoin(back, front);
    ReverseKeepsCoins(front);
    SamePopulation(front, Reverse(front));
    LargestFirstSorts(order, all);
    TakesThePart(Reverse(front), Reverse(back), part, target);
  }

  lemma ListingsJoin(low: seq<Utxo>, high: seq<Utxo>, below: set<Utxo>, above: set<Utxo>)
    requires Enumerates(low, below) && Enumerates(high, above) && below !! above
    requires AscendingValues(low) && AscendingValues(high)
    requires forall x, y | x in above && y in below :: y.value <= x.value
    ensures Enumerates(low + high, below + above) && AscendingValues(low + high)
  {
    forall i | 0 <= i < |low|
      ensures low[i] in below
    {
      assert low[i] in Elements(low);
    }
    forall i | 0 <= i < |high|
      ensures high[i] in above
    {
      assert high[i] in Elements(high);
    }
    assert Elements(low + high) == Elements(low) + Elements(high);
  }

  lemma ReverseJoin(low: seq<Utxo>, high: seq<Utxo>)
    ensures Reverse(low + high) == Reverse(high) + Reverse(low)
  {
  }

  lemma SortedListing(s: set<Utxo>) returns (list: seq<Utxo>)
    ensures Enumerates(list, s) && AscendingValues(list)
  {
    var any := Listing(s);
    SortSorts(any);
    list := SortByValue(any);
    SamePopulation(any, list);
  }

  lemma {:induction false} Listing<T>(s: set<T>) returns (list: seq<T>)
    ensures Enumerates(list, s)
    decreases s
  {
    if s == {} {
      list := [];
    } else {
      var x :| x in s;
      var rest := Listing(s - {x});
      list := rest + [x];
      assert forall y | y in rest :: y in Elements(rest);
      assert Elements(list) == Elements(rest) + {x};
    }
  }

  lemma InsertAtEnd(s: seq<Utxo>, u: Utxo)
    requires s == [] || s[|s| - 1].value <= u.value
    ensures InsertByValue(s, u) == s + [u]
  {
  }

  lemma {:induction false} SortKeepsSorted(s: seq<Utxo>)
    requires AscendingValues(s)
    ensures SortByValue(s) == s
  {
    if s != [] {
      var init, last := s[..|s| - 1], s[|s| - 1];
      SortKeepsSorted(init);
      InsertAtEnd(init, last);
      assert init + [last] == s;
    }
  }

  lemma TakesThePart(front: seq<Utxo>, back: seq<Utxo>, part: set<Utxo>, target: nat)
    requires DescendingValues(front + back) && Enumerates(front, part)
    requires Sum(part, ValueOf) >= target && forall x | x in part :: Sum(part, ValueOf) - x.value < target
    ensures Select(front + back, target).picked == front
  {
    var coins := front + back;
    SeqSumIsSum(front, ValueOf);
    assert coins[..|front|] == front;
    if front != [] {
      var init, last := front[..|front| - 1], front[|front| - 1];
      assert last in Elements(front);
      assert coins[..|front| - 1] == init;
    }
    NeededIs(coins, target, |front|);
  }

  lemma NeededIs(coins: seq<Utxo>, target: nat, k: nat)
    requires DescendingValues(coins) && k <= |coins|
    requires SeqSum(coins[..k], ValueOf) >= target
    requires k > 0 ==> SeqSum(coins[..k - 1], ValueOf) < target
    ensures Needed(coins, target, 0) == k
  {
    var n := Needed(coins, target, 0);
    PrefixWhole(coins, k, ValueOf);
    NeededIsLeast(coins, target, 0);
    if n > k {
      PrefixMonotone(coins, k, n - 1, ValueOf);
    } else if n < k {
      PrefixMonotone(coins, n, k - 1, ValueOf);
    }
  }

  /** A coin is left over exactly when not all of them are picked. */
  lemma WholeIsPicked(order: seq<Utxo>, all: set<Utxo>, target: nat)
    requires Enumerates(order, all) && Sum(all, ValueOf) >= target
    ensures var sel := Select(LargestFirst(order), target);
      sel.spare.None? <==> Elements(sel.picked) == all
  {
    var coins := LargestFirst(order);
    LargestFirstSorts(order, all);
    SeqSumIsSum(coins, ValueOf);
    SelectionIsTight(coins, target);
    var picked := Select(coins, target).picked;
    ElementsSize(coins);
    ElementsSize(picked);
    if |picked| == |coins| {
      assert picked == coins;
    }
  }

  // ----- a single coin -----

  lemma OneCoinSorted(coin: Utxo)
    ensures LargestFirst([coin]) == [coin]
  {
    var coins := LargestFirst([coin]);
    assert Enumerates([coin], {coin});
    LargestFirstSorts([coin], {coin});
    ElementsSize(coins);
    assert coins[0] in Elements(coins);
  }

  lemma OneCoinSelected(coin: Utxo, target: nat)
    requires 0 < target <= coin.value
    ensures Select([coin], target) == Selection([coin], coin.value, None)
    ensures SeqSum([coin], ValueOf) == coin.value
  {
    var coins := [coin];
    assert coins[..0] == [] && coins[..1] == coins;
    PrefixStep(coins, 0, ValueOf);
    assert Needed(coins, target, 1) == 1;
  }

  // ----- the spare coin -----

  /** The spare coin that would carry asset change is never an input. */
  lemma SpareIsNotSpent(coins: seq<Utxo>, target: nat)
    requires forall i, j | 0 <= i < j < |coins| :: coins[i].Outpoint() != coins[j].Outpoint()
    ensures var sel := Select(coins, target);
      sel.spare.Some? ==> forall u | u in sel.picked :: u.Outpoint() != sel.spare.value
  {
  }

  /** The spare coin is the largest of those left over. */
  lemma SpareIsLargest(coins: seq<Utxo>, target: nat)
    requires DescendingValues(coins) && Select(coins, target).spare.Some?
    ensures var sel := Select(coins, target);
      |sel.picked| < |coins| && coins[|sel.picked|].Outpoint() == sel.spare.value &&
      forall x | x in coins && x !in sel.picked :: x.value <= coins[|sel.picked|].value
  {
    var n := |Select(coins, target).picked|;
    forall x | x in coins && x !in coins[..n]
      ensures x.value <= coins[n].value
    {
      var i :| 0 <= i < |coins| && coins[i] == x;
      if i < n {
        assert coins[..n][i] == x;
      }
    }
  }

  /** The selecting pass updates its accumulator and the spare coin while it filters.
      No addition leaves the range of u64. */
  method SelectCoins(coins: seq<Utxo>, target: u64) returns (sel: Selection)
    requires DescendingValues(coins)
    requires SeqSum(coins, ValueOf) < U64_LIMIT
    ensures sel == Select(coins, target)
  {
    var amount: u64 := 0;
    var picked: seq<Utxo> := [];
    var spare: Option<OutPoint> := None;
    for i := 0 to |coins|
      invariant |picked| <= i && picked == coins[..|picked|]
      invariant amount == SeqSum(picked, ValueOf)
      invariant Needed(coins, target, |picked|) == Needed(coins, target, 0)
      invariant |picked| < i ==> amount >= target || coins[|picked|].value == 0
      invariant spare == if amount >= target && |picked| < i
                         then Some(coins[|picked|].Outpoint()) else None
    {
      var utxo := coins[i];
      if amount >= target {
        spare := if spare.Some? then spare else Some(utxo.Outpoint());
      } else if utxo.value != 0 {
        assert |picked| == i;
        PrefixStep(coins, i, ValueOf);
        PrefixWhole(coins, i + 1, ValueOf);
        amount := amount + utxo.value;
        picked := picked + [utxo];
      }
    }
    sel := Selection(picked, amount, spare);
  }
}
