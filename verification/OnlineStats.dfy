/**
  The arithmetic the stream operators share: Welford's running moments, exponentially
  weighted averages, bounded windows and the 95th percentile of a sample.
 */
module OnlineStats {
  import opened Sequences
  import opened Sorting

  // ---- Welford's running moments ----

  /** A count, a running mean and a running sum of squared deviations. */
  datatype Moments = Moments(count: nat, mean: real, m2: real) {

    function MeanWith(v: real): real {
      mean + (v - mean) / (count + 1) as real
    }

    /** One more value. */
    function Add(v: real): Moments {
      Moments(count + 1, MeanWith(v), m2 + (v - mean) * (v - MeanWith(v)))
    }
  }

  function MomentsOf(xs: seq<real>): Moments {
    if xs == [] then Moments(0, 0.0, 0.0) else MomentsOf(xs[..|xs| - 1]).Add(xs[|xs| - 1])
  }

  function Square(x: real): real {
    x * x
  }

  /** The batch mean. */
  function Mean(xs: seq<real>): real
    requires xs != []
  {
    Sum(xs) / |xs| as real
  }

  /** The batch sum of squared distances from `c`. */
  function SquaredDeviations(xs: seq<real>, c: real): real {
    Sum(Map((x: real) => Square(x - c), xs))
  }

  lemma OneMoreTimes(n: nat, mean: real, v: real)
    ensures (n + 1) as real * (mean + (v - mean) / (n + 1) as real) == n as real * mean + v
  {
    var d := (v - mean) / (n + 1) as real;
    assert (n + 1) as real * d == v - mean;
    assert (n + 1) as real * (mean + d) == n as real * mean + mean + (n + 1) as real * d;
  }

  /** One step of Welford's recurrence, in plain numbers. */
  lemma StepBalances(n: real, m: real, mean: real, m2: real, next: real, v: real, total: real, squares: real)
    requires m == n + 1.0
    requires n * mean == total
    requires m2 == squares - n * mean * mean
    requires m * next == n * mean + v
    ensures m * next == total + v
    ensures m2 + (v - mean) * (v - next) == squares + v * v - m * next * next
  {
    assert n * mean * mean == total * mean;
    assert m * next * next == (total + v) * next;
    assert m * next * mean == (total + v) * mean;
    assert m * next * mean == n * mean * next + next * mean;
    assert n * mean * next == total * next;
  }

  function SumOfSquares(xs: seq<real>): real {
    Sum(Map((x: real) => Square(x), xs))
  }

  lemma MapLast(f: real -> real, xs: seq<real>)
    requires xs != []
    ensures Sum(Map(f, xs)) == Sum(Map(f, xs[..|xs| - 1])) + f(xs[|xs| - 1])
  {
    assert Map(f, xs)[..|xs| - 1] == Map(f, xs[..|xs| - 1]);
  }

  /** Count times mean is the total, and m2 is the sum of squares less count times the squared mean. */
  predicate Expands(m: Moments, total: real, squares: real) {
    && m.count as real * m.mean == total
    && m.m2 == squares - m.count as real * m.mean * m.mean
  }

  lemma AddExpands(m: Moments, v: real, total: real, squares: real)
    requires Expands(m, total, squares)
    ensures Expands(m.Add(v), total + v, squares + Square(v))
  {
    var next := m.Add(v);
    OneMoreTimes(m.count, m.mean, v);
    StepBalances(m.count as real, next.count as real, m.mean, m.m2, next.mean, v, total, squares);
  }

  lemma {:induction false} MomentsCount(xs: seq<real>)
    ensures MomentsOf(xs).count == |xs|
    ensures xs == [] ==> MomentsOf(xs) == Moments(0, 0.0, 0.0)
  {
    if xs != [] {
      MomentsCount(xs[..|xs| - 1]);
    }
  }

  lemma {:induction false} MomentsExpand(xs: seq<real>)
    ensures MomentsOf(xs).count == |xs|
    ensures Expands(MomentsOf(xs), Sum(xs), SumOfSquares(xs))
  {
    if xs != [] {
      var init, v := xs[..|xs| - 1], xs[|xs| - 1];
      MomentsExpand(init);
      AddExpands(MomentsOf(init), v, Sum(init), SumOfSquares(init));
      MapLast((x: real) => Square(x), xs);
      assert Sum(xs) == Sum(init) + v;
      assert SumOfSquares(xs) == SumOfSquares(init) + Square(v);
    }
  }

  lemma SquareOfDifference(x: real, c: real)
    ensures Square(x - c) == Square(x) - 2.0 * c * x + c * c
  {
  }

  lemma OneMoreTerm(n: nat, s: real, c: real, x: real)
    ensures (n + 1) as real * c * c == n as real * c * c + c * c
    ensures 2.0 * c * (s + x) == 2.0 * c * s + 2.0 * c * x
  {
  }

  /** How the squared distances of `n` values from `c` follow from their total and their squares. */
  predicate Splits(n: nat, c: real, total: real, squares: real, deviations: real) {
    deviations == squares - 2.0 * c * total + n as real * c * c
  }

  lemma SplitsOneMore(n: nat, c: real, x: real, total: real, squares: real, deviations: real)
    requires Splits(n, c, total, squares, deviations)
    ensures Splits(n + 1, c, total + x, squares + Square(x), deviations + Square(x - c))
  {
    SquareOfDifference(x, c);
    OneMoreTerm(n, total, c, x);
  }

  lemma {:induction false} DeviationsSplit(xs: seq<real>, c: real)
    ensures Splits(|xs|, c, Sum(xs), SumOfSquares(xs), SquaredDeviations(xs, c))
  {
    if xs != [] {
      var init, x := xs[..|xs| - 1], xs[|xs| - 1];
      DeviationsSplit(init, c);
      SplitsOneMore(|init|, c, x, Sum(init), SumOfSquares(init), SquaredDeviations(init, c));
      MapLast((y: real) => Square(y - c), xs);
      MapLast((y: real) => Square(y), xs);
    }
  }

  /** Squared deviations from the mean, given how the moments expand. */
  lemma CompleteSquare(n: real, mean: real, m2: real, total: real, squares: real, deviations: real)
    requires n * mean == total
    requires m2 == squares - n * mean * mean
    requires deviations == squares - 2.0 * mean * total + n * mean * mean
    ensures m2 == deviations
  {
    assert n * mean * mean == total * mean;
  }

  lemma Quotient(n: real, mean: real, total: real)
    requires n != 0.0 && n * mean == total
    ensures mean == total / n
  {
  }

  lemma ExpandedMean(m: Moments, total: real, squares: real)
    requires Expands(m, total, squares) && m.count != 0
    ensures m.mean == total / m.count as real
  {
    Quotient(m.count as real, m.mean, total);
  }

  lemma ExpandedM2(m: Moments, total: real, squares: real, deviations: real)
    requires Expands(m, total, squares)
    requires Splits(m.count, m.mean, total, squares, deviations)
    ensures m.m2 == deviations
  {
    CompleteSquare(m.count as real, m.mean, m.m2, total, squares, deviations);
  }

  lemma MomentsMean(xs: seq<real>)
    requires xs != []
    ensures MomentsOf(xs).mean == Mean(xs)
  {
    MomentsExpand(xs);
    ExpandedMean(MomentsOf(xs), Sum(xs), SumOfSquares(xs));
  }

  lemma MomentsM2(xs: seq<real>, m: Moments)
    requires m.count == |xs| && Expands(m, Sum(xs), SumOfSquares(xs))
    ensures m.m2 == SquaredDeviations(xs, m.mean)
  {
    DeviationsSplit(xs, m.mean);
    ExpandedM2(m, Sum(xs), SumOfSquares(xs), SquaredDeviations(xs, m.mean));
  }

  /** The running moments are the batch moments. */
  lemma MomentsAreBatchMoments(xs: seq<real>)
    ensures MomentsOf(xs).count == |xs|
    ensures xs != [] ==> MomentsOf(xs).mean == Mean(xs)
    ensures MomentsOf(xs).m2 == SquaredDeviations(xs, MomentsOf(xs).mean)
  {
    MomentsExpand(xs);
    if xs != [] {
      MomentsMean(xs);
    }
    MomentsM2(xs, MomentsOf(xs));
  }

  lemma SquareNonNegative(x: real)
    ensures Square(x) >= 0.0
  {
  }

  lemma SquaresNonNegative(xs: seq<real>, c: real)
    ensures SquaredDeviations(xs, c) >= 0.0
  {
    forall i | 0 <= i < |xs|
      ensures Square(xs[i] - c) >= 0.0
    {
      SquareNonNegative(xs[i] - c);
    }
    SumNonNegative(Map((x: real) => Square(x - c), xs));
  }

  lemma {:induction false} SumNonNegative(xs: seq<real>)
    requires forall i :: 0 <= i < |xs| ==> xs[i] >= 0.0
    ensures Sum(xs) >= 0.0
  {
    if xs != [] {
      SumNonNegative(xs[..|xs| - 1]);
    }
  }

  function AtLeast(x: real, floor: real): real {
    if x < floor then floor else x
  }

  // ---- exponentially weighted averages ----

  /** One step of an exponentially weighted average. */
  function Blend(alpha: real, average: real, v: real): real {
    (1.0 - alpha) * average + alpha * v
  }

  lemma ProductNonNegative(a: real, b: real)
    requires a >= 0.0 && b >= 0.0
    ensures a * b >= 0.0
  {
  }

  lemma BlendFromBound(alpha: real, average: real, v: real, lo: real)
    ensures Blend(alpha, average, v) == lo + (1.0 - alpha) * (average - lo) + alpha * (v - lo)
  {
    assert (1.0 - alpha) * (average - lo) == (1.0 - alpha) * average - lo + alpha * lo;
    assert alpha * (v - lo) == alpha * v - alpha * lo;
  }

  lemma BlendAbove(alpha: real, average: real, v: real, lo: real)
    requires 0.0 <= alpha <= 1.0
    requires lo <= average && lo <= v
    ensures lo <= Blend(alpha, average, v)
  {
    ProductNonNegative(1.0 - alpha, average - lo);
    ProductNonNegative(alpha, v - lo);
    BlendFromBound(alpha, average, v, lo);
  }

  /** An average lies between any bounds on its start and its input. */
  lemma BlendBetween(alpha: real, average: real, v: real, lo: real, hi: real)
    requires 0.0 <= alpha <= 1.0
    requires lo <= average <= hi && lo <= v <= hi
    ensures lo <= Blend(alpha, average, v) <= hi
  {
    BlendAbove(alpha, average, v, lo);
    BlendAbove(alpha, -average, -v, -hi);
    BlendNegates(alpha, average, v);
  }

  lemma BlendNegates(alpha: real, average: real, v: real)
    ensures Blend(alpha, -average, -v) == -Blend(alpha, average, v)
  {
  }

  /** The average after a run of values. */
  function Running(alpha: real, start: real, xs: seq<real>): real {
    if xs == [] then start else Blend(alpha, Running(alpha, start, xs[..|xs| - 1]), xs[|xs| - 1])
  }

  function Power(x: real, n: nat): real {
    if n == 0 then 1.0 else x * Power(x, n - 1)
  }

  /** What a value contributes when `age` others have come after it. */
  function Contribution(alpha: real, age: nat, x: real): real {
    alpha * Power(1.0 - alpha, age) * x
  }

  /**
    What the first `n` of `total` values contribute together: the latest of all weighs `alpha`,
    each earlier one less by the factor `1 - alpha`.
   */
  function Contributions(alpha: real, xs: seq<real>, total: nat, n: nat): real
    requires n <= |xs| && n <= total
  {
    if n == 0 then 0.0
    else Contributions(alpha, xs, total, n - 1) + Contribution(alpha, total - n, xs[n - 1])
  }

  /** The average in one piece: what is left of the start, and the contributions. */
  function BatchAverage(alpha: real, start: real, xs: seq<real>): real {
    Power(1.0 - alpha, |xs|) * start + Contributions(alpha, xs, |xs|, |xs|)
  }

  lemma OneOlder(alpha: real, age: nat, x: real)
    ensures Contribution(alpha, age + 1, x) == (1.0 - alpha) * Contribution(alpha, age, x)
    ensures Contribution(alpha, 0, x) == alpha * x
  {
    var c, p := 1.0 - alpha, Power(1.0 - alpha, age);
    assert alpha * (c * p) * x == c * (alpha * p * x);
  }

  /** With one more value to come the contributions so far shrink by the factor `1 - alpha`. */
  lemma {:induction false} EarlierShrink(alpha: real, xs: seq<real>, total: nat, n: nat)
    requires n <= |xs| && n <= total
    ensures Contributions(alpha, xs, total + 1, n) == (1.0 - alpha) * Contributions(alpha, xs, total, n)
  {
    if n > 0 {
      EarlierShrink(alpha, xs, total, n - 1);
      OneOlder(alpha, total - n, xs[n - 1]);
      Distributes(1.0 - alpha, Contributions(alpha, xs, total, n - 1), Contribution(alpha, total - n, xs[n - 1]));
    }
  }

  lemma Distributes(c: real, a: real, b: real)
    ensures c * a + c * b == c * (a + b)
  {
  }

  lemma {:induction false} OnlyFirst(alpha: real, xs: seq<real>, ys: seq<real>, total: nat, n: nat)
    requires n <= |xs| && n <= |ys| && n <= total && xs[..n] == ys[..n]
    ensures Contributions(alpha, xs, total, n) == Contributions(alpha, ys, total, n)
  {
    if n > 0 {
      assert xs[n - 1] == xs[..n][n - 1] && ys[n - 1] == ys[..n][n - 1];
      assert xs[..n - 1] == xs[..n][..n - 1] && ys[..n - 1] == ys[..n][..n - 1];
      OnlyFirst(alpha, xs, ys, total, n - 1);
    }
  }

  lemma OneMoreContribution(alpha: real, xs: seq<real>)
    requires xs != []
    ensures var n := |xs| - 1;
            Contributions(alpha, xs, n + 1, n + 1)
              == (1.0 - alpha) * Contributions(alpha, xs[..n], n, n) + alpha * xs[n]
  {
    var n := |xs| - 1;
    EarlierShrink(alpha, xs, n, n);
    OnlyFirst(alpha, xs, xs[..n], n, n);
    OneOlder(alpha, 0, xs[n]);
  }

  lemma BlendOfSums(alpha: real, p: real, start: real, sum: real, x: real)
    ensures Blend(alpha, p * start + sum, x) == (1.0 - alpha) * p * start + ((1.0 - alpha) * sum + alpha * x)
  {
  }

  /** The running average is the batch average. */
  lemma {:induction false} RunningIsBatch(alpha: real, start: real, xs: seq<real>)
    ensures Running(alpha, start, xs) == BatchAverage(alpha, start, xs)
  {
    if xs != [] {
      var init := xs[..|xs| - 1];
      RunningIsBatch(alpha, start, init);
      OneMoreContribution(alpha, xs);
      BlendOfSums(alpha, Power(1.0 - alpha, |init|), start, Contributions(alpha, init, |init|, |init|), xs[|xs| - 1]);
    }
  }

  // ---- bounded windows ----

  /** The last `n` elements, all of them when there are fewer. */
  function LastN<T>(xs: seq<T>, n: nat): (ys: seq<T>)
    ensures |ys| == if |xs| <= n then |xs| else n
  {
    if |xs| <= n then xs else xs[|xs| - n..]
  }

  /** Appending to a bounded deque. */
  function Push<T>(window: seq<T>, x: T, cap: nat): seq<T> {
    LastN(window + [x], cap)
  }

  lemma PushKeepsLast<T>(xs: seq<T>, x: T, cap: nat)
    ensures Push(LastN(xs, cap), x, cap) == LastN(xs + [x], cap)
  {
  }

  function Least(xs: seq<real>): (x: real)
    requires xs != []
    ensures x in xs && forall i :: 0 <= i < |xs| ==> x <= xs[i]
  {
    if |xs| == 1 then xs[0]
    else
      var rest := Least(xs[..|xs| - 1]);
      if rest <= xs[|xs| - 1] then rest else xs[|xs| - 1]
  }

  function Greatest(xs: seq<real>): (x: real)
    requires xs != []
    ensures x in xs && forall i :: 0 <= i < |xs| ==> xs[i] <= x
  {
    if |xs| == 1 then xs[0]
    else
      var rest := Greatest(xs[..|xs| - 1]);
      if xs[|xs| - 1] <= rest then rest else xs[|xs| - 1]
  }

  // ---- the 95th percentile ----

  /** `ceil(0.95 * n)`, exactly. */
  function Ceil95(n: nat): (c: nat)
    ensures 20 * c >= 19 * n && 20 * (c - 1) < 19 * n
    ensures n > 0 ==> 1 <= c <= n
  {
    (19 * n + 19) / 20
  }

  /** `sorted(xs)[min(n - 1, max(0, ceil(0.95 * n) - 1))]`. */
  function P95(xs: seq<real>): real
    requires xs != []
  {
    var ordered := SortOn((x: real) => x, xs);
    SortOnPermutes((x: real) => x, xs);
    var wanted := Ceil95(|ordered|) - 1;
    var atLeastZero := if wanted < 0 then 0 else wanted;
    ordered[if |ordered| - 1 < atLeastZero then |ordered| - 1 else atLeastZero]
  }

  /** How many samples do not exceed `v`. */
  function AtMost(xs: seq<real>, v: real): nat {
    Count((x: real) => x <= v, xs)
  }

  lemma AtMostInOrder(ordered: seq<real>, k: nat, v: real)
    requires Ascending((x: real) => x, ordered)
    requires k < |ordered|
    ensures ordered[k] <= v ==> AtMost(ordered, v) >= k + 1
    ensures v < ordered[k] ==> AtMost(ordered, v) <= k
  {
    var p := (x: real) => x <= v;
    if ordered[k] <= v {
      var low := ordered[..k + 1];
      CountAtMost(p, low);
      forall i | 0 <= i < |low|
        ensures p(low[i])
      {
        assert i < k ==> ordered[i] <= ordered[k];
      }
      CountPrefix(p, ordered, k + 1);
    } else {
      var low, high := ordered[..k], ordered[k..];
      assert ordered == low + high;
      CountConcat(p, low, high);
      CountAtMost(p, low);
      forall i | 0 <= i < |high|
        ensures !p(high[i])
      {
        assert i > 0 ==> ordered[k] <= ordered[k + i];
      }
      CountNone(p, high);
    }
  }

  lemma {:induction false} CountNone<T>(p: T -> bool, xs: seq<T>)
    requires forall i :: 0 <= i < |xs| ==> !p(xs[i])
    ensures Count(p, xs) == 0
  {
    if xs != [] {
      CountNone(p, xs[..|xs| - 1]);
    }
  }

  /** P95 is the least value that at least 95% of the samples do not exceed, and it is a sample. */
  lemma P95IsLeast(xs: seq<real>)
    requires xs != []
    ensures P95(xs) in xs
    ensures forall v {:trigger AtMost(xs, v)} :: 20 * AtMost(xs, v) >= 19 * |xs| <==> P95(xs) <= v
  {
    var id := (x: real) => x;
    var ordered := SortOn(id, xs);
    SortOnPermutes(id, xs);
    SortOnAscends(id, xs);
    var k := Ceil95(|xs|) - 1;
    assert P95(xs) == ordered[k];
    SortOnMember(id, xs, ordered[k]);
    forall v: real
      ensures 20 * AtMost(xs, v) >= 19 * |xs| <==> P95(xs) <= v
    {
      CountPermutes((x: real) => x <= v, ordered, xs);
      AtMostInOrder(ordered, k, v);
    }
  }
}
