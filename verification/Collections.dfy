/** Sums over finite sets and sequences, and the ordered walk over a sorted set. */
module Collections {

  // ----- sums -----

  ghost function Sum<T>(s: set<T>, f: T -> nat): nat {
    if s == {} then 0 else
      var x :| x in s;
      f(x) + Sum(s - {x}, f)
  }

  function SeqSum<T>(s: seq<T>, f: T -> nat): nat {
    if s == [] then 0 else SeqSum(s[..|s| - 1], f) + f(s[|s| - 1])
  }

  function Elements<T>(s: seq<T>): set<T> {
    set x | x in s
  }

  ghost predicate NoDuplicates<T>(s: seq<T>) {
    forall i, j | 0 <= i < j < |s| :: s[i] != s[j]
  }

  lemma {:induction false} SumTake<T>(s: set<T>, f: T -> nat, x: T)
    requires x in s
    ensures Sum(s, f) == f(x) + Sum(s - {x}, f)
    decreases s
  {
    var y :| y in s && Sum(s, f) == f(y) + Sum(s - {y}, f);
    if y != x {
      SumTake(s - {y}, f, x);
      SumTake(s - {x}, f, y);
      assert s - {y} - {x} == s - {x} - {y};
    }
  }

  lemma SumAdd<T>(s: set<T>, f: T -> nat, x: T)
    requires x !in s
    ensures Sum(s + {x}, f) == Sum(s, f) + f(x)
  {
    SumTake(s + {x}, f, x);
    assert s + {x} - {x} == s;
  }

  lemma {:induction false} SumCongruence<T>(s: set<T>, f: T -> nat, g: T -> nat)
    requires forall x | x in s :: f(x) == g(x)
    ensures Sum(s, f) == Sum(s, g)
    decreases s
  {
    if s != {} {
      var x :| x in s;
      SumTake(s, f, x);
      SumTake(s, g, x);
      SumCongruence(s - {x}, f, g);
    }
  }

  lemma {:induction false} SumMonotone<T>(part: set<T>, whole: set<T>, f: T -> nat)
    requires part <= whole
    ensures Sum(part, f) <= Sum(whole, f)
    decreases part
  {
    if part != {} {
      var x :| x in part;
      SumTake(part, f, x);
      SumTake(whole, f, x);
      SumMonotone(part - {x}, whole - {x}, f);
    }
  }

  lemma {:induction false} SumDisjoint<T>(a: set<T>, b: set<T>, f: T -> nat)
    requires a !! b
    ensures Sum(a + b, f) == Sum(a, f) + Sum(b, f)
    decreases b
  {
    if b == {} {
      assert a + b == a;
    } else {
      var x :| x in b;
      SumTake(a + b, f, x);
      SumTake(b, f, x);
      assert a + b - {x} == a + (b - {x});
      SumDisjoint(a, b - {x}, f);
    }
  }

  /** No more terms, each no larger than any of the others, add up to no more. */
  lemma {:induction false} SumExchange<T>(a: set<T>, b: set<T>, f: T -> nat)
    requires |a| <= |b|
    requires forall x, y | x in a && y in b :: f(x) <= f(y)
    ensures Sum(a, f) <= Sum(b, f)
    decreases a
  {
    if a != {} {
      var x :| x in a;
      var y :| y in b;
      SumTake(a, f, x);
      SumTake(b, f, y);
      SumExchange(a - {x}, b - {y}, f);
    }
  }

  /** Sets of one size compare by what they do not share. */
  lemma SumCompare<T>(a: set<T>, b: set<T>, f: T -> nat)
    requires |a| == |b|
    requires forall x, y | x in a - b && y in b - a :: f(x) <= f(y)
    ensures Sum(a, f) <= Sum(b, f)
  {
    var shared := a * b;
    assert a == shared + (a - b) && b == shared + (b - a);
    SumExchange(a - b, b - a, f);
    SumDisjoint(shared, a - b, f);
    SumDisjoint(shared, b - a, f);
  }

  /** A sum of naturals vanishes exactly when every term does. */
  lemma {:induction false} SumZero<T>(s: set<T>, f: T -> nat)
    ensures Sum(s, f) == 0 <==> forall x | x in s :: f(x) == 0
    decreases s
  {
    if s != {} {
      var x :| x in s;
      SumTake(s, f, x);
      SumZero(s - {x}, f);
    }
  }

  lemma {:induction false} SeqSumIsSum<T>(s: seq<T>, f: T -> nat)
    requires NoDuplicates(s)
    ensures SeqSum(s, f) == Sum(Elements(s), f)
  {
    if s != [] {
      var init, last := s[..|s| - 1], s[|s| - 1];
      SeqSumIsSum(init, f);
      assert Elements(s) == Elements(init) + {last};
      SumAdd(Elements(init), f, last);
    }
  }

  lemma {:induction false} ElementsSize<T>(s: seq<T>)
    requires NoDuplicates(s)
    ensures |Elements(s)| == |s|
  {
    if s != [] {
      var init, last := s[..|s| - 1], s[|s| - 1];
      ElementsSize(init);
      assert Elements(s) == Elements(init) + {last};
    }
  }

  lemma PrefixStep<T>(s: seq<T>, k: nat, f: T -> nat)
    requires k < |s|
    ensures SeqSum(s[..k + 1], f) == SeqSum(s[..k], f) + f(s[k])
  {
    assert s[..k + 1][..k] == s[..k];
  }

  lemma {:induction false} PrefixMonotone<T>(s: seq<T>, j: nat, k: nat, f: T -> nat)
    requires j <= k <= |s|
    ensures SeqSum(s[..j], f) <= SeqSum(s[..k], f)
    decreases k - j
  {
    if j < k {
      PrefixMonotone(s, j, k - 1, f);
      PrefixStep(s, k - 1, f);
    }
  }

  lemma PrefixWhole<T>(s: seq<T>, k: nat, f: T -> nat)
    requires k <= |s|
    ensures SeqSum(s[..k], f) <= SeqSum(s, f)
  {
    PrefixMonotone(s, k, |s|, f);
    assert s[..|s|] == s;
  }

  // ----- walking a sorted set -----

  ghost predicate RanksApart<K>(s: set<K>, rank: K -> int) {
    forall x, y | x in s && y in s && rank(x) == rank(y) :: x == y
  }

  ghost predicate StrictlyAscending<K>(s: seq<K>, rank: K -> int) {
    forall i, j | 0 <= i < j < |s| :: rank(s[i]) < rank(s[j])
  }

  predicate IsLeast<K>(x: K, s: set<K>, rank: K -> int) {
    forall y | y in s :: rank(x) <= rank(y)
  }

  lemma {:induction false} LeastExists<K>(s: set<K>, rank: K -> int)
    requires s != {}
    ensures exists x :: x in s && IsLeast(x, s, rank)
    decreases s
  {
    var x :| x in s;
    if !IsLeast(x, s, rank) {
      var z :| z in s && rank(z) < rank(x);
      var rest := s - {x};
      assert z in rest;
      LeastExists(rest, rank);
      var y :| y in rest && IsLeast(y, rest, rank);
      assert IsLeast(y, s, rank);
    }
  }

  /** The order in which a sorted set or map hands out its keys. */
  function Ascending<K(==)>(s: set<K>, rank: K -> int): (r: seq<K>)
    requires RanksApart(s, rank)
    ensures Elements(r) == s
    ensures StrictlyAscending(r, rank)
    decreases s
  {
    if s == {} then [] else
      LeastExists(s, rank);
      var x :| x in s && IsLeast(x, s, rank);
      var rest := Ascending(s - {x}, rank);
      LeastFirst(x, rest, s, rank);
      [x] + rest
  }

  lemma LeastFirst<K>(x: K, rest: seq<K>, s: set<K>, rank: K -> int)
    requires x in s && IsLeast(x, s, rank) && RanksApart(s, rank)
    requires Elements(rest) == s - {x} && StrictlyAscending(rest, rank)
    ensures Elements([x] + rest) == s
    ensures StrictlyAscending([x] + rest, rank)
  {
    forall k | 0 <= k < |rest|
      ensures rank(x) < rank(rest[k])
    {
      assert rest[k] in Elements(rest);
    }
    assert Elements([x] + rest) == {x} + Elements(rest);
  }

  lemma AscendingIsDistinct<K>(s: seq<K>, rank: K -> int)
    requires StrictlyAscending(s, rank)
    ensures NoDuplicates(s)
    ensures |Elements(s)| == |s|
  {
    ElementsSize(s);
  }

  lemma EmptyElements<T>(s: seq<T>)
    ensures s == [] <==> Elements(s) == {}
  {
    if s != [] {
      assert s[0] in Elements(s);
    }
  }

  /** There is only one strictly ascending listing of a set. */
  lemma {:induction false} AscendingIsUnique<K>(s: seq<K>, t: seq<K>, rank: K -> int)
    requires StrictlyAscending(s, rank) && StrictlyAscending(t, rank)
    requires Elements(s) == Elements(t)
    ensures s == t
    decreases |s|
  {
    EmptyElements(s);
    EmptyElements(t);
    if s != [] {
      assert s[0] in Elements(t) && t[0] in Elements(s);
      assert s[0] == t[0];
      forall x
        ensures x in Elements(s[1..]) <==> x in Elements(t[1..])
      {
        assert x in Elements(s[1..]) <==> x in Elements(s) && x != s[0];
        assert x in Elements(t[1..]) <==> x in Elements(t) && x != t[0];
      }
      AscendingIsUnique(s[1..], t[1..], rank);
    }
  }
}
