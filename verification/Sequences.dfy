/** Facts about finite sequences and sets that several components share. */
module Sequences {

  /** No element occurs twice. */
  ghost predicate Distinct<T>(xs: seq<T>) {
    forall i, j :: 0 <= i < j < |xs| ==> xs[i] != xs[j]
  }

  function Elements<T>(xs: seq<T>): set<T> {
    set x | x in xs
  }

  lemma {:induction false} DistinctCardinality<T>(xs: seq<T>)
    ensures |Elements(xs)| <= |xs|
    ensures |Elements(xs)| == |xs| <==> Distinct(xs)
  {
    if xs != [] {
      var init, last := xs[..|xs| - 1], xs[|xs| - 1];
      DistinctCardinality(init);
      assert xs == init + [last];
      assert Elements(xs) == Elements(init) + {last};
      if last in init {
        assert Elements(xs) == Elements(init);
        var i :| 0 <= i < |init| && init[i] == last;
        assert xs[i] == xs[|xs| - 1];
      } else {
        assert Distinct(xs) <==> Distinct(init);
      }
    }
  }

  lemma SubsetCardinality<T>(a: set<T>, b: set<T>)
    requires a <= b
    ensures |a| <= |b|
    ensures |a| == |b| ==> a == b
  {
    assert b == a + (b - a);
    assert |b| == |a| + |b - a|;
  }

  lemma PositionOf<T>(xs: seq<T>, x: T) returns (i: nat)
    requires x in xs
    ensures i < |xs| && xs[i] == x
  {
    i :| 0 <= i < |xs| && xs[i] == x;
  }

  /** A sequence longer than the set it draws from repeats an element. */
  lemma Pigeonhole<T>(xs: seq<T>, pool: set<T>) returns (i: nat, j: nat)
    requires forall x :: x in xs ==> x in pool
    requires |xs| > |pool|
    ensures i < j < |xs| && xs[i] == xs[j]
  {
    DistinctCardinality(xs);
    assert Elements(xs) <= pool;
    SubsetCardinality(Elements(xs), pool);
    assert !Distinct(xs);
    i, j :| 0 <= i < j < |xs| && xs[i] == xs[j];
  }

  /** Total of a sequence of reals. */
  function Sum(xs: seq<real>): real {
    if xs == [] then 0.0 else Sum(xs[..|xs| - 1]) + xs[|xs| - 1]
  }

  lemma SumSnoc(xs: seq<real>, x: real)
    ensures Sum(xs + [x]) == Sum(xs) + x
  {
    assert (xs + [x])[..|xs|] == xs;
  }

  function Map<A, B>(f: A -> B, xs: seq<A>): (ys: seq<B>)
    ensures |ys| == |xs|
    ensures forall i :: 0 <= i < |xs| ==> ys[i] == f(xs[i])
  {
    seq(|xs|, i requires 0 <= i < |xs| => f(xs[i]))
  }

  /** 0, 1, ..., n - 1. */
  function Range(n: nat): (xs: seq<nat>)
    ensures |xs| == n && forall i :: 0 <= i < n ==> xs[i] == i
  {
    seq(n, i requires 0 <= i < n => i)
  }

  function Without<T>(xs: seq<T>, k: nat): seq<T>
    requires k < |xs|
  {
    xs[..k] + xs[k + 1..]
  }

  lemma WithoutMultiset<T>(xs: seq<T>, k: nat)
    requires k < |xs|
    ensures multiset(xs) == multiset(Without(xs, k)) + multiset{xs[k]}
  {
    assert xs == xs[..k] + [xs[k]] + xs[k + 1..];
  }

  /** Drops the last element of `xs` and a matching element of its permutation `ys`. */
  lemma DropMatching<T>(xs: seq<T>, ys: seq<T>) returns (k: nat)
    requires xs != [] && multiset(xs) == multiset(ys)
    ensures k < |ys| && ys[k] == xs[|xs| - 1]
    ensures multiset(xs[..|xs| - 1]) == multiset(Without(ys, k))
  {
    var x := xs[|xs| - 1];
    assert xs == xs[..|xs| - 1] + [x];
    assert x in multiset(ys);
    k :| 0 <= k < |ys| && ys[k] == x;
    WithoutMultiset(ys, k);
    assert multiset(xs[..|xs| - 1]) + multiset{x} == multiset(Without(ys, k)) + multiset{x};
    assert multiset(xs[..|xs| - 1]) == (multiset(xs[..|xs| - 1]) + multiset{x}) - multiset{x};
    assert multiset(Without(ys, k)) == (multiset(Without(ys, k)) + multiset{x}) - multiset{x};
  }

  lemma EmptyPermutation<T>(ys: seq<T>)
    requires multiset(ys) == multiset{}
    ensures ys == []
  {
    assert |multiset(ys)| == |ys|;
  }

  lemma PermutationLength<T>(xs: seq<T>, ys: seq<T>)
    requires multiset(xs) == multiset(ys)
    ensures |xs| == |ys|
  {
    assert |multiset(xs)| == |xs|;
  }

  /** Mapping a permutation gives a permutation of the mapped values. */
  lemma {:induction false} MapPermutes<A, B>(f: A -> B, xs: seq<A>, ys: seq<A>)
    requires multiset(xs) == multiset(ys)
    ensures multiset(Map(f, xs)) == multiset(Map(f, ys))
    decreases |xs|
  {
    if xs == [] {
      EmptyPermutation(ys);
    } else {
      var k := DropMatching(xs, ys);
      var init, x := xs[..|xs| - 1], xs[|xs| - 1];
      MapPermutes(f, init, Without(ys, k));
      assert Map(f, xs) == Map(f, init) + [f(x)];
      assert Map(f, Without(ys, k)) == Without(Map(f, ys), k);
      WithoutMultiset(Map(f, ys), k);
    }
  }

  lemma {:induction false} SumConcat(xs: seq<real>, ys: seq<real>)
    ensures Sum(xs + ys) == Sum(xs) + Sum(ys)
  {
    if ys == [] {
      assert xs + ys == xs;
    } else {
      var init, last := ys[..|ys| - 1], ys[|ys| - 1];
      assert xs + ys == (xs + init) + [last];
      SumConcat(xs, init);
      SumSnoc(xs + init, last);
    }
  }

  lemma SumWithout(ys: seq<real>, k: nat)
    requires k < |ys|
    ensures Sum(ys) == Sum(Without(ys, k)) + ys[k]
  {
    var front, back := ys[..k], ys[k + 1..];
    SumConcat(front, back);
    SumConcat(front + [ys[k]], back);
    SumSnoc(front, ys[k]);
    assert ys == front + [ys[k]] + back;
    assert Without(ys, k) == front + back;
  }

  lemma {:induction false} SumPermutes(xs: seq<real>, ys: seq<real>)
    requires multiset(xs) == multiset(ys)
    ensures Sum(xs) == Sum(ys)
    decreases |xs|
  {
    if xs == [] {
      EmptyPermutation(ys);
    } else {
      var k := DropMatching(xs, ys);
      SumPermutes(xs[..|xs| - 1], Without(ys, k));
      SumWithout(ys, k);
    }
  }

  /** Pointwise comparison carries over to the totals. */
  lemma {:induction false} SumMonotone(xs: seq<real>, ys: seq<real>)
    requires |xs| == |ys|
    requires forall i :: 0 <= i < |xs| ==> xs[i] <= ys[i]
    ensures Sum(xs) <= Sum(ys)
  {
    if xs != [] {
      SumMonotone(xs[..|xs| - 1], ys[..|ys| - 1]);
    }
  }

  function Count<T>(p: T -> bool, xs: seq<T>): nat {
    if xs == [] then 0 else Count(p, xs[..|xs| - 1]) + if p(xs[|xs| - 1]) then 1 else 0
  }

  lemma CountSnoc<T>(p: T -> bool, xs: seq<T>, x: T)
    ensures Count(p, xs + [x]) == Count(p, xs) + if p(x) then 1 else 0
  {
    assert (xs + [x])[..|xs|] == xs;
  }

  lemma {:induction false} CountConcat<T>(p: T -> bool, xs: seq<T>, ys: seq<T>)
    ensures Count(p, xs + ys) == Count(p, xs) + Count(p, ys)
  {
    if ys == [] {
      assert xs + ys == xs;
    } else {
      var init, last := ys[..|ys| - 1], ys[|ys| - 1];
      assert xs + ys == (xs + init) + [last];
      CountConcat(p, xs, init);
      CountSnoc(p, xs + init, last);
    }
  }

  lemma CountPrefix<T>(p: T -> bool, xs: seq<T>, k: nat)
    requires k <= |xs|
    ensures Count(p, xs[..k]) <= Count(p, xs)
    ensures k < |xs| && p(xs[k]) ==> Count(p, xs[..k]) < Count(p, xs)
  {
    CountConcat(p, xs[..k], xs[k..]);
    assert xs == xs[..k] + xs[k..];
    if k < |xs| && p(xs[k]) {
      CountConcat(p, [xs[k]], xs[k + 1..]);
      assert xs[k..] == [xs[k]] + xs[k + 1..];
      assert [xs[k]][..0] == [];
    }
  }

  lemma CountWithout<T>(p: T -> bool, ys: seq<T>, k: nat)
    requires k < |ys|
    ensures Count(p, ys) == Count(p, Without(ys, k)) + if p(ys[k]) then 1 else 0
  {
    var front, rest := ys[..k], ys[k..];
    assert ys == front + rest;
    CountConcat(p, front, rest);
    CountConcat(p, front, ys[k + 1..]);
    CountHead(p, rest);
    assert rest[1..] == ys[k + 1..];
  }

  lemma CountHead<T>(p: T -> bool, xs: seq<T>)
    requires xs != []
    ensures Count(p, xs) == Count(p, xs[1..]) + if p(xs[0]) then 1 else 0
  {
    assert xs == [xs[0]] + xs[1..];
    CountConcat(p, [xs[0]], xs[1..]);
    CountSnoc(p, [], xs[0]);
    assert [] + [xs[0]] == [xs[0]];
  }

  lemma {:induction false} CountPermutes<T>(p: T -> bool, xs: seq<T>, ys: seq<T>)
    requires multiset(xs) == multiset(ys)
    ensures Count(p, xs) == Count(p, ys)
    decreases |xs|
  {
    if xs == [] {
      EmptyPermutation(ys);
    } else {
      var k := DropMatching(xs, ys);
      CountPermutes(p, xs[..|xs| - 1], Without(ys, k));
      CountWithout(p, ys, k);
    }
  }

  lemma {:induction false} CountPointwise<A, B>(p: A -> bool, xs: seq<A>, q: B -> bool, ys: seq<B>)
    requires |xs| == |ys|
    requires forall k :: 0 <= k < |xs| ==> p(xs[k]) == q(ys[k])
    ensures Count(p, xs) == Count(q, ys)
  {
    if xs != [] {
      CountPointwise(p, xs[..|xs| - 1], q, ys[..|ys| - 1]);
    }
  }

  lemma {:induction false} CountAtMost<T>(p: T -> bool, xs: seq<T>)
    ensures Count(p, xs) <= |xs|
    ensures Count(p, xs) == |xs| <==> forall k :: 0 <= k < |xs| ==> p(xs[k])
  {
    if xs != [] {
      CountAtMost(p, xs[..|xs| - 1]);
      assert forall k :: 0 <= k < |xs| - 1 ==> xs[..|xs| - 1][k] == xs[k];
    }
  }

  lemma MapSnoc<A, B>(f: A -> B, xs: seq<A>, x: A)
    ensures Map(f, xs + [x]) == Map(f, xs) + [f(x)]
  {
  }

  lemma RangeSnoc(n: nat)
    ensures Range(n + 1) == Range(n) + [n]
  {
  }

  lemma {:induction false} SumZero(n: nat)
    ensures Sum(Map<nat, real>((j: nat) => 0.0, Range(n))) == 0.0
  {
    if n > 0 {
      SumZero(n - 1);
      RangeSnoc(n - 1);
      MapSnoc<nat, real>((j: nat) => 0.0, Range(n - 1), n - 1);
      SumSnoc(Map<nat, real>((j: nat) => 0.0, Range(n - 1)), 0.0);
    }
  }

  /** Totals of functions that differ by `v` in column `x` only. */
  lemma {:induction false} SumBump(f: nat -> real, g: nat -> real, n: nat, x: nat, v: real)
    requires forall j :: 0 <= j < n ==> g(j) == f(j) + if j == x then v else 0.0
    ensures Sum(Map<nat, real>(g, Range(n))) == Sum(Map<nat, real>(f, Range(n))) + if x < n then v else 0.0
  {
    if n > 0 {
      SumBump(f, g, n - 1, x, v);
      RangeSnoc(n - 1);
      MapSnoc<nat, real>(f, Range(n - 1), n - 1);
      MapSnoc<nat, real>(g, Range(n - 1), n - 1);
      SumSnoc(Map<nat, real>(f, Range(n - 1)), f(n - 1));
      SumSnoc(Map<nat, real>(g, Range(n - 1)), g(n - 1));
    }
  }

  function Occurrences(xs: seq<nat>, j: nat): nat {
    Count<nat>((x: nat) => x == j, xs)
  }

  /** The column totals of `f` over `xs`, added up. */
  function ByColumn(f: nat -> real, xs: seq<nat>, m: nat): real {
    Sum(Map<nat, real>((j: nat) => Occurrences(xs, j) as real * f(j), Range(m)))
  }

  lemma ByColumnMonotone(f: nat -> real, xs: seq<nat>, ys: seq<nat>, m: nat)
    requires forall j :: 0 <= j < m ==> Occurrences(xs, j) as real * f(j) <= Occurrences(ys, j) as real * f(j)
    ensures ByColumn(f, xs, m) <= ByColumn(f, ys, m)
  {
    SumMonotone(Map<nat, real>((j: nat) => Occurrences(xs, j) as real * f(j), Range(m)),
                Map<nat, real>((j: nat) => Occurrences(ys, j) as real * f(j), Range(m)));
  }

  /** Summing over the entries equals summing over the columns they fall into. */
  lemma {:induction false} DoubleCount(f: nat -> real, xs: seq<nat>, m: nat)
    requires forall k :: 0 <= k < |xs| ==> xs[k] < m
    ensures Sum(Map(f, xs)) == ByColumn(f, xs, m)
  {
    var total := (j: nat) => Occurrences(xs, j) as real * f(j);
    if xs == [] {
      SumZero(m);
      forall j: nat
        ensures total(j) == 0.0
      {
        assert Occurrences(xs, j) as real == 0.0;
      }
      assert Map<nat, real>(total, Range(m)) == Map<nat, real>((j: nat) => 0.0, Range(m));
    } else {
      var init, x := xs[..|xs| - 1], xs[|xs| - 1];
      var before := (j: nat) => Occurrences(init, j) as real * f(j);
      DoubleCount(f, init, m);
      forall j | 0 <= j < m
        ensures total(j) == before(j) + if j == x then f(x) else 0.0
      {
        assert Occurrences(xs, j) == Occurrences(init, j) + if x == j then 1 else 0;
        if j == x {
          assert Occurrences(xs, j) as real == Occurrences(init, j) as real + 1.0;
        }
      }
      SumBump(before, total, m, x, f(x));
      assert xs == init + [x];
      MapSnoc(f, init, x);
      SumSnoc(Map(f, init), f(x));
    }
  }

  lemma {:induction false} SumPlus<A>(f: A -> real, g: A -> real, h: A -> real, xs: seq<A>)
    requires forall k :: 0 <= k < |xs| ==> h(xs[k]) == f(xs[k]) + g(xs[k])
    ensures Sum(Map(h, xs)) == Sum(Map(f, xs)) + Sum(Map(g, xs))
  {
    if xs != [] {
      var init, x := xs[..|xs| - 1], xs[|xs| - 1];
      assert xs == init + [x];
      forall k | 0 <= k < |init|
        ensures h(init[k]) == f(init[k]) + g(init[k])
      {
        assert init[k] == xs[k];
      }
      SumPlus(f, g, h, init);
      MapSnoc(f, init, x);
      MapSnoc(g, init, x);
      MapSnoc(h, init, x);
      SumSnoc(Map(f, init), f(x));
      SumSnoc(Map(g, init), g(x));
      SumSnoc(Map(h, init), h(x));
    }
  }

  lemma OneMore(n: nat, c: real)
    ensures (n + 1) as real * c == n as real * c + c
  {
  }

  lemma {:induction false} SumConstant<A>(c: real, xs: seq<A>)
    ensures Sum(Map((x: A) => c, xs)) == |xs| as real * c
  {
    if xs != [] {
      var init, x := xs[..|xs| - 1], xs[|xs| - 1];
      assert xs == init + [x];
      SumConstant(c, init);
      MapSnoc((y: A) => c, init, x);
      SumSnoc(Map((y: A) => c, init), c);
      OneMore(|init|, c);
    }
  }

  /** Pointwise `f + g <= h` carries over to the totals. */
  lemma SumCompare(f: nat -> real, g: nat -> real, h: nat -> real, n: nat)
    requires forall i :: 0 <= i < n ==> f(i) + g(i) <= h(i)
    ensures Sum(Map<nat, real>(f, Range(n))) + Sum(Map<nat, real>(g, Range(n))) <= Sum(Map<nat, real>(h, Range(n)))
  {
    var both := (i: nat) => f(i) + g(i);
    SumPlus<nat>(f, g, both, Range(n));
    SumMonotone(Map<nat, real>(both, Range(n)), Map<nat, real>(h, Range(n)));
  }
}
