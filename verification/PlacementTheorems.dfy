/** What the greedy allocator achieves, for arbitrary and for separable score tables. */
module PlacementTheorems {
  import opened Wrappers
  import opened Sequences
  import opened Placement

  /** A problem as the optimizer poses it: operators and tiers are keys of dictionaries. */
  ghost predicate Posed(p: Problem) {
    p.WellFormed() && Distinct(p.operators) && Distinct(p.tiers)
  }

  /** Some operator found every tier full. */
  ghost predicate FallsBack(p: Problem) {
    exists k :: 0 <= k < |AllChoices(p)| && AllChoices(p)[k].None?
  }

  function AllChoices(p: Problem): seq<Option<nat>> {
    p.Choices(|p.ProcessingOrder()|)
  }

  // ---- The run, step by step ----------------------------------------------------

  lemma {:induction false} ChoicesPrefix(p: Problem, k: nat, n: nat)
    requires k <= n <= |p.ProcessingOrder()|
    ensures p.Choices(n)[..k] == p.Choices(k)
  {
    if k < n {
      ChoicesPrefix(p, k, n - 1);
      assert p.Choices(n)[..n - 1] == p.Choices(n - 1);
      assert p.Choices(n)[..k] == p.Choices(n - 1)[..k];
    }
  }

  lemma ChoiceAt(p: Problem, k: nat)
    requires k < |p.ProcessingOrder()|
    ensures AllChoices(p)[k] == p.FirstWithRoom(p.TierOrder(p.ProcessingOrder()[k]), p.Choices(k))
  {
    ChoicesPrefix(p, k + 1, |p.ProcessingOrder()|);
    assert AllChoices(p)[k] == AllChoices(p)[..k + 1][k];
  }

  /** The operator served `k`-th takes a tier with room, and no better tier had room. */
  lemma ChoiceIsBestWithRoom(p: Problem, k: nat)
    requires k < |p.ProcessingOrder()|
    ensures AllChoices(p)[k].Some? ==>
              && AllChoices(p)[k].value < |p.tiers|
              && p.HasRoom(p.Choices(k), AllChoices(p)[k].value)
              && forall j :: 0 <= j < |p.tiers| && p.HasRoom(p.Choices(k), j)
                             ==> p.AtLeastAsGood(p.ProcessingOrder()[k], AllChoices(p)[k].value, j)
    ensures AllChoices(p)[k].None? ==>
              forall j :: 0 <= j < |p.tiers| ==> !p.HasRoom(p.Choices(k), j)
  {
    var i := p.ProcessingOrder()[k];
    var preference, before := p.TierOrder(i), p.Choices(k);
    ChoiceAt(p, k);
    p.TierOrderFacts(i);
    p.FirstWithRoomIsFirst(preference, before);
    var c := AllChoices(p)[k];
    if c.Some? {
      var g :| 0 <= g < |preference| && preference[g] == c.value && p.HasRoom(before, preference[g])
               && forall h :: 0 <= h < g ==> !p.HasRoom(before, preference[h]);
      forall j | 0 <= j < |p.tiers| && p.HasRoom(before, j)
        ensures p.AtLeastAsGood(i, c.value, j)
      {
        var h := p.PositionInTierOrder(i, j);
        assert g <= h;
      }
    } else {
      forall j | 0 <= j < |p.tiers|
        ensures !p.HasRoom(before, j)
      {
        var h := p.PositionInTierOrder(i, j);
      }
    }
  }

  lemma UsageSnoc(p: Problem, choices: seq<Option<nat>>, c: Option<nat>, t: string)
    ensures p.Usage(choices + [c], t) == p.Usage(choices, t) + if p.OnTier(c, t) then 1 else 0
  {
    CountSnoc(x => p.OnTier(x, t), choices, c);
  }

  lemma {:induction false} UsageWithinCapacity(p: Problem, k: nat, t: string)
    requires k <= |p.ProcessingOrder()|
    ensures p.Usage(p.Choices(k), t) <= p.Cap(t)
  {
    if k > 0 {
      var before := p.Choices(k - 1);
      var c := p.FirstWithRoom(p.TierOrder(p.ProcessingOrder()[k - 1]), before);
      UsageWithinCapacity(p, k - 1, t);
      UsageSnoc(p, before, c, t);
      p.FirstWithRoomIsFirst(p.TierOrder(p.ProcessingOrder()[k - 1]), before);
    }
  }

  lemma UsageGrows(p: Problem, k: nat, t: string)
    requires k <= |p.ProcessingOrder()|
    ensures p.Usage(p.Choices(k), t) <= p.Usage(AllChoices(p), t)
    ensures k < |p.ProcessingOrder()| && p.OnTier(AllChoices(p)[k], t)
            ==> p.Usage(p.Choices(k), t) < p.Usage(AllChoices(p), t)
  {
    ChoicesPrefix(p, k, |p.ProcessingOrder()|);
    CountPrefix((x: Option<nat>) => p.OnTier(x, t), AllChoices(p), k);
  }

  // ---- From positions to the returned dictionary ----------------------------------

  lemma {:induction false} NamedChoice(p: Problem, k: nat, n: nat)
    requires Posed(p) && k < n <= |p.ProcessingOrder()|
    ensures p.OperatorName(p.ProcessingOrder()[k]) in p.NamedChoices(n)
    ensures p.NamedChoices(n)[p.OperatorName(p.ProcessingOrder()[k])] == p.ChoiceName(p.Choices(n)[k])
  {
    if k < n - 1 {
      NamedChoice(p, k, n - 1);
      ServedApart(p, k, n - 1);
    }
  }

  lemma ServedApart(p: Problem, h: nat, k: nat)
    requires Posed(p) && h < k < |p.ProcessingOrder()|
    ensures p.OperatorName(p.ProcessingOrder()[h]) != p.OperatorName(p.ProcessingOrder()[k])
  {
    p.ProcessingOrderFacts();
  }

  lemma GreedyAt(p: Problem, k: nat)
    requires Posed(p) && k < |p.ProcessingOrder()|
    ensures p.TierOf(p.Greedy(), p.ProcessingOrder()[k]) == p.ChoiceName(AllChoices(p)[k])
  {
    NamedChoice(p, k, |p.ProcessingOrder()|);
  }

  /** In the dictionary the operator is on the tier it took, or on "cloud" if it found every tier full. */
  lemma PlacedOn(p: Problem, k: nat)
    requires Posed(p) && k < |p.operators|
    ensures var op := p.OperatorName(p.ProcessingOrder()[k]);
            && op in p.Greedy()
            && if AllChoices(p)[k].Some? && AllChoices(p)[k].value < |p.tiers|
               then p.Greedy()[op] == p.tiers[AllChoices(p)[k].value]
               else AllChoices(p)[k].None? && p.Greedy()[op] == "cloud"
  {
    p.ServedIsKnown(k);
    NamedChoice(p, k, |p.ProcessingOrder()|);
    ChoiceIsBestWithRoom(p, k);
  }

  lemma {:induction false} NamedOnly(p: Problem, n: nat)
    requires n <= |p.ProcessingOrder()|
    ensures forall op :: op in p.NamedChoices(n) ==> op in p.operators
  {
    if n > 0 {
      NamedOnly(p, n - 1);
      p.ServedIsKnown(n - 1);
    }
  }

  /** Exactly the operators are placed. */
  lemma PlacesExactly(p: Problem)
    requires Posed(p)
    ensures forall op :: op in p.Greedy() <==> op in p.operators
  {
    NamedOnly(p, |p.ProcessingOrder()|);
    forall op | op in p.operators
      ensures op in p.Greedy()
    {
      var i := PositionOf(p.operators, op);
      var k := p.PositionInOrder(i);
      PlacedOn(p, k);
    }
  }

  lemma TierIndexOfName(p: Problem, j: nat)
    requires Distinct(p.tiers) && j < |p.tiers|
    ensures p.TierIndex(p.TierName(j)) == j
  {
  }

  /** The tier index each operator gets, in processing order. */
  function Indices(p: Problem, placement: map<string, string>): seq<nat> {
    Map<nat, nat>((i: nat) => p.TierIndex(p.TierOf(placement, i)), p.ProcessingOrder())
  }

  /** Every operator sits on a listed tier. */
  ghost predicate Listed(p: Problem, placement: map<string, string>) {
    forall i :: 0 <= i < |p.operators| ==> p.TierOf(placement, i) in p.tiers
  }

  lemma FeasibleIsListed(p: Problem, placement: map<string, string>)
    requires p.Feasible(placement)
    ensures Listed(p, placement)
  {
  }

  lemma IndicesInRange(p: Problem, placement: map<string, string>)
    requires Posed(p) && Listed(p, placement)
    ensures |Indices(p, placement)| == |p.operators|
    ensures forall k :: 0 <= k < |p.operators| ==> Indices(p, placement)[k] < |p.tiers|
  {
    p.ProcessingOrderFacts();
  }

  /** The load of a tier is the number of times its column occurs. */
  lemma LoadIsOccurrences(p: Problem, placement: map<string, string>, j: nat)
    requires Posed(p) && Listed(p, placement) && j < |p.tiers|
    ensures p.Load(placement, p.TierName(j)) == Occurrences(Indices(p, placement), j)
  {
    p.ProcessingOrderFacts();
    var t := p.TierName(j);
    var onTier := (i: nat) => p.TierOf(placement, i) == t;
    CountPermutes<nat>(onTier, Range(|p.operators|), p.ProcessingOrder());
    TierIndexOfName(p, j);
    CountPointwise<nat, nat>(onTier, p.ProcessingOrder(), (x: nat) => x == j, Indices(p, placement));
  }

  /** The load the allocator produced on a tier is what it counted, unless it fell back. */
  lemma GreedyLoad(p: Problem, t: string)
    requires Posed(p) && !FallsBack(p)
    ensures p.Load(p.Greedy(), t) == p.Usage(AllChoices(p), t)
  {
    p.ProcessingOrderFacts();
    var onTier := (i: nat) => p.TierOf(p.Greedy(), i) == t;
    CountPermutes<nat>(onTier, Range(|p.operators|), p.ProcessingOrder());
    forall k | 0 <= k < |p.operators|
      ensures onTier(p.ProcessingOrder()[k]) == p.OnTier(AllChoices(p)[k], t)
    {
      GreedyAt(p, k);
      assert AllChoices(p)[k].Some?;
    }
    CountPointwise<nat, Option<nat>>(onTier, p.ProcessingOrder(), c => p.OnTier(c, t), AllChoices(p));
  }

  lemma GreedyListed(p: Problem)
    requires Posed(p) && !FallsBack(p)
    ensures Listed(p, p.Greedy())
    ensures forall k :: 0 <= k < |p.operators| ==>
              AllChoices(p)[k].Some? && Indices(p, p.Greedy())[k] == AllChoices(p)[k].value
  {
    p.ProcessingOrderFacts();
    forall k | 0 <= k < |p.operators|
      ensures AllChoices(p)[k].Some? && Indices(p, p.Greedy())[k] == AllChoices(p)[k].value
      ensures p.TierOf(p.Greedy(), p.ProcessingOrder()[k]) in p.tiers
    {
      GreedyAt(p, k);
      assert !AllChoices(p)[k].None?;
      ChoiceIsBestWithRoom(p, k);
      TierIndexOfName(p, AllChoices(p)[k].value);
    }
    forall i | 0 <= i < |p.operators|
      ensures p.TierOf(p.Greedy(), i) in p.tiers
    {
      var k := p.PositionInOrder(i);
    }
  }

  // ---- Capacity -------------------------------------------------------------------

  /** Column counts add up to the number of entries. */
  lemma OccurrencesTotal(xs: seq<nat>, m: nat)
    requires forall k :: 0 <= k < |xs| ==> xs[k] < m
    ensures Sum(Map<nat, real>((j: nat) => Occurrences(xs, j) as real, Range(m))) == |xs| as real
  {
    var one := (x: nat) => 1.0;
    DoubleCount(one, xs, m);
    SumConstant(1.0, xs);
    assert Map(one, xs) == Map<nat, real>((x: nat) => 1.0, xs);
    assert Map<nat, real>((j: nat) => Occurrences(xs, j) as real * one(j), Range(m))
        == Map<nat, real>((j: nat) => Occurrences(xs, j) as real, Range(m));
  }

  /** A capacity-respecting placement exists only where there is room for everyone. */
  lemma FeasibleNeedsCapacity(p: Problem, placement: map<string, string>)
    requires Posed(p) && p.Feasible(placement)
    ensures p.TotalCapacity() >= |p.operators| as real
  {
    FeasibleIsListed(p, placement);
    IndicesInRange(p, placement);
    var xs := Indices(p, placement);
    OccurrencesTotal(xs, |p.tiers|);
    var count := (j: nat) => Occurrences(xs, j) as real;
    var cap := (j: nat) => p.Cap(p.TierName(j)) as real;
    forall j | 0 <= j < |p.tiers|
      ensures count(j) <= cap(j)
    {
      LoadIsOccurrences(p, placement, j);
    }
    SumMonotone(Map<nat, real>(count, Range(|p.tiers|)), Map<nat, real>(cap, Range(|p.tiers|)));
  }

  function ChosenValues(choices: seq<Option<nat>>): seq<nat> {
    if choices == [] then []
    else
      var rest := ChosenValues(choices[..|choices| - 1]);
      var c := choices[|choices| - 1];
      if c.Some? then rest + [c.value] else rest
  }

  lemma {:induction false} ChosenValuesCount(p: Problem, choices: seq<Option<nat>>)
    requires Distinct(p.tiers)
    requires forall k :: 0 <= k < |choices| && choices[k].Some? ==> choices[k].value < |p.tiers|
    ensures |ChosenValues(choices)| <= |choices|
    ensures (exists k :: 0 <= k < |choices| && choices[k].None?) <==> |ChosenValues(choices)| < |choices|
    ensures forall k :: 0 <= k < |ChosenValues(choices)| ==> ChosenValues(choices)[k] < |p.tiers|
    ensures forall j :: 0 <= j < |p.tiers| ==>
              Occurrences(ChosenValues(choices), j) == p.Usage(choices, p.TierName(j))
  {
    if choices != [] {
      var init, c := choices[..|choices| - 1], choices[|choices| - 1];
      assert choices == init + [c];
      ChosenValuesCount(p, init);
      forall j | 0 <= j < |p.tiers|
        ensures Occurrences(ChosenValues(choices), j) == p.Usage(choices, p.TierName(j))
      {
        UsageSnoc(p, init, c, p.TierName(j));
        if c.Some? {
          CountSnoc((x: nat) => x == j, ChosenValues(init), c.value);
        }
      }
      if exists k :: 0 <= k < |init| && init[k].None? {
        var k :| 0 <= k < |init| && init[k].None?;
        assert choices[k].None?;
      }
    }
  }

  /** The fallback is taken exactly when the tiers together cannot hold all operators. */
  lemma FallbackIffOverCommitted(p: Problem)
    requires Posed(p)
    ensures FallsBack(p) <==> p.TotalCapacity() < |p.operators| as real
  {
    var n, m := |p.operators|, |p.tiers|;
    var all := AllChoices(p);
    var xs := ChosenValues(all);
    forall k | 0 <= k < n && all[k].Some?
      ensures all[k].value < m
    {
      ChoiceIsBestWithRoom(p, k);
    }
    ChosenValuesCount(p, all);
    OccurrencesTotal(xs, m);
    UsageBelowCapacity(p, xs);
    if FallsBack(p) {
      var k :| 0 <= k < n && all[k].None?;
      FallbackMeansFull(p, xs, k);
    }
  }

  lemma UsageBelowCapacity(p: Problem, xs: seq<nat>)
    requires Posed(p)
    requires forall j :: 0 <= j < |p.tiers| ==> Occurrences(xs, j) == p.Usage(AllChoices(p), p.TierName(j))
    ensures Sum(Map<nat, real>((j: nat) => Occurrences(xs, j) as real, Range(|p.tiers|))) <= p.TotalCapacity()
  {
    var count := (j: nat) => Occurrences(xs, j) as real;
    var cap := (j: nat) => p.Cap(p.TierName(j)) as real;
    forall j | 0 <= j < |p.tiers|
      ensures count(j) <= cap(j)
    {
      UsageWithinCapacity(p, |p.operators|, p.TierName(j));
    }
    SumMonotone(Map<nat, real>(count, Range(|p.tiers|)), Map<nat, real>(cap, Range(|p.tiers|)));
  }

  lemma FallbackMeansFull(p: Problem, xs: seq<nat>, k: nat)
    requires Posed(p) && k < |p.operators| && AllChoices(p)[k].None?
    requires forall j :: 0 <= j < |p.tiers| ==> Occurrences(xs, j) == p.Usage(AllChoices(p), p.TierName(j))
    ensures p.TotalCapacity() <= Sum(Map<nat, real>((j: nat) => Occurrences(xs, j) as real, Range(|p.tiers|)))
  {
    var count := (j: nat) => Occurrences(xs, j) as real;
    var cap := (j: nat) => p.Cap(p.TierName(j)) as real;
    ChoiceIsBestWithRoom(p, k);
    forall j | 0 <= j < |p.tiers|
      ensures cap(j) <= count(j)
    {
      assert !p.HasRoom(p.Choices(k), j);
      UsageGrows(p, k, p.TierName(j));
    }
    SumMonotone(Map<nat, real>(cap, Range(|p.tiers|)), Map<nat, real>(count, Range(|p.tiers|)));
  }

  /** With room for everyone the returned placement respects every capacity. */
  lemma GreedyIsFeasible(p: Problem)
    requires Posed(p) && p.TotalCapacity() >= |p.operators| as real
    ensures p.Feasible(p.Greedy())
  {
    FallbackIffOverCommitted(p);
    GreedyListed(p);
    p.ProcessingOrderFacts();
    forall t | t in p.tiers
      ensures p.Load(p.Greedy(), t) <= p.Cap(t)
    {
      GreedyLoad(p, t);
      UsageWithinCapacity(p, |p.operators|, t);
    }
    forall i | 0 <= i < |p.operators|
      ensures p.operators[i] in p.Greedy() && p.Greedy()[p.operators[i]] in p.tiers
    {
      var k := p.PositionInOrder(i);
      NamedChoice(p, k, |p.operators|);
      assert p.TierOf(p.Greedy(), i) in p.tiers;
    }
  }

  // ---- Arbitrary scores -------------------------------------------------------------

  /** The index of the tier that placement `q` gives to operator `i`. */
  function At(p: Problem, q: map<string, string>, i: nat): nat {
    p.TierIndex(p.TierOf(q, i))
  }

  /**
    Serial dictatorship: where a capacity-respecting placement agrees with the allocator on
    everyone served earlier, it cannot serve the next operator better than the allocator does.
   */
  lemma GreedyIsLexicographicallyBest(p: Problem, other: map<string, string>, k: nat)
    requires Posed(p) && p.Feasible(other) && k < |p.operators|
    requires forall h :: 0 <= h < k ==>
               p.TierOf(other, p.ProcessingOrder()[h]) == p.TierOf(p.Greedy(), p.ProcessingOrder()[h])
    ensures p.AtLeastAsGood(p.ProcessingOrder()[k], At(p, p.Greedy(), p.ProcessingOrder()[k]),
                            At(p, other, p.ProcessingOrder()[k]))
  {
    p.ProcessingOrderFacts();
    FeasibleNeedsCapacity(p, other);
    FallbackIffOverCommitted(p);
    GreedyListed(p);
    var order := p.ProcessingOrder();
    var i := order[k];
    var t := p.TierOf(other, i);
    assert t in p.tiers;
    var j := p.TierIndex(t);
    var onTier := (x: nat) => p.TierOf(other, x) == t;
    CountPermutes<nat>(onTier, Range(|p.operators|), order);
    CountPrefix<nat>(onTier, order, k);
    forall h | 0 <= h < k
      ensures onTier(order[..k][h]) == p.OnTier(p.Choices(k)[h], t)
    {
      GreedyAt(p, h);
      ChoicesPrefix(p, k, |p.operators|);
      assert p.Choices(k)[h] == AllChoices(p)[h];
      assert AllChoices(p)[h].Some?;
    }
    CountPointwise<nat, Option<nat>>(onTier, order[..k], c => p.OnTier(c, t), p.Choices(k));
    assert p.HasRoom(p.Choices(k), j);
    ChoiceIsBestWithRoom(p, k);
    assert AllChoices(p)[k].Some?;
    assert Indices(p, p.Greedy())[k] == AllChoices(p)[k].value;
  }

  /** No capacity-respecting placement is at least as good for everyone unless it is the same. */
  lemma GreedyIsParetoEfficient(p: Problem, other: map<string, string>)
    requires Posed(p) && p.Feasible(other)
    requires forall i :: 0 <= i < |p.operators| ==> p.AtLeastAsGood(i, At(p, other, i), At(p, p.Greedy(), i))
    ensures forall i :: 0 <= i < |p.operators| ==> p.TierOf(other, i) == p.TierOf(p.Greedy(), i)
  {
    p.ProcessingOrderFacts();
    var n := |p.operators|;
    AgreesUpTo(p, other, n);
    forall i | 0 <= i < n
      ensures p.TierOf(other, i) == p.TierOf(p.Greedy(), i)
    {
      var k := p.PositionInOrder(i);
      assert AgreeAt(p, other, p.Greedy(), k);
    }
  }

  lemma SameIndexSameTier(p: Problem, a: map<string, string>, b: map<string, string>, i: nat)
    requires p.TierOf(a, i) in p.tiers && p.TierOf(b, i) in p.tiers && At(p, a, i) == At(p, b, i)
    ensures p.TierOf(a, i) == p.TierOf(b, i)
  {
  }

  /** Both placements put the operator served `k`-th on the same tier. */
  predicate AgreeAt(p: Problem, a: map<string, string>, b: map<string, string>, k: nat) {
    k < |p.ProcessingOrder()| && p.TierOf(a, p.ProcessingOrder()[k]) == p.TierOf(b, p.ProcessingOrder()[k])
  }

  /** One operator: the allocator is at least as good given the earlier ones agree, and so is the other placement. */
  lemma AgreesNext(p: Problem, other: map<string, string>, k: nat, i: nat)
    requires Posed(p) && p.Feasible(other) && k < |p.operators| && i < |p.operators| && i == p.ProcessingOrder()[k]
    requires p.AtLeastAsGood(i, At(p, other, i), At(p, p.Greedy(), i))
    requires forall h: nat {:trigger AgreeAt(p, other, p.Greedy(), h)} :: h < k ==> AgreeAt(p, other, p.Greedy(), h)
    ensures AgreeAt(p, other, p.Greedy(), k)
  {
    forall h | 0 <= h < k
      ensures p.TierOf(other, p.ProcessingOrder()[h]) == p.TierOf(p.Greedy(), p.ProcessingOrder()[h])
    {
      assert AgreeAt(p, other, p.Greedy(), h);
    }
    GreedyIsLexicographicallyBest(p, other, k);
    FeasibleNeedsCapacity(p, other);
    GreedyIsFeasible(p);
    OnListedTier(p, other, i);
    OnListedTier(p, p.Greedy(), i);
    SameIndexSameTier(p, other, p.Greedy(), i);
  }

  lemma OnListedTier(p: Problem, placement: map<string, string>, i: nat)
    requires p.Feasible(placement) && i < |p.operators|
    ensures p.TierOf(placement, i) in p.tiers
  {
  }

  ghost predicate AsGoodForAll(p: Problem, other: map<string, string>) {
    forall i :: 0 <= i < |p.operators| ==> p.AtLeastAsGood(i, At(p, other, i), At(p, p.Greedy(), i))
  }

  lemma AsGoodForServed(p: Problem, other: map<string, string>, k: nat)
    requires AsGoodForAll(p, other) && k < |p.ProcessingOrder()|
    ensures p.ProcessingOrder()[k] < |p.operators|
    ensures p.AtLeastAsGood(p.ProcessingOrder()[k], At(p, other, p.ProcessingOrder()[k]),
                            At(p, p.Greedy(), p.ProcessingOrder()[k]))
  {
    p.ServedIsKnown(k);
  }

  lemma {:induction false} AgreesUpTo(p: Problem, other: map<string, string>, n: nat)
    requires Posed(p) && p.Feasible(other) && n <= |p.operators| == |p.ProcessingOrder()|
    requires AsGoodForAll(p, other)
    ensures forall k: nat {:trigger AgreeAt(p, other, p.Greedy(), k)} :: k < n ==> AgreeAt(p, other, p.Greedy(), k)
  {
    if n > 0 {
      AgreesUpTo(p, other, n - 1);
      AsGoodForServed(p, other, n - 1);
      AgreesNext(p, other, n - 1, p.ProcessingOrder()[n - 1]);
    }
  }

  /** A tier cheaper than the one chosen `k`-th was full then and took nobody afterwards. */
  lemma CheaperTierWasFull(p: Problem, k: nat, j: nat)
    requires k < |p.operators| && j < |p.tiers| && p.tiers[j] in p.capacities
    requires AllChoices(p)[k].Some?
    requires p.Score(p.ProcessingOrder()[k], j) < p.Score(p.ProcessingOrder()[k], AllChoices(p)[k].value)
    ensures p.Usage(p.Choices(k), p.tiers[j]) == p.Usage(AllChoices(p), p.tiers[j]) == p.Cap(p.tiers[j])
  {
    ChoiceIsBestWithRoom(p, k);
    assert !p.HasRoom(p.Choices(k), j);
    UsageGrows(p, k, p.tiers[j]);
    UsageWithinCapacity(p, |p.operators|, p.tiers[j]);
  }

  /**
    A tier cheaper for operator `i` than its own is full, and everyone on it has a best score
    at least as high as operator `i` has.
   */
  lemma CheaperTiersAreFull(p: Problem, i: nat, j: nat)
    requires Posed(p) && p.TotalCapacity() >= |p.operators| as real
    requires i < |p.operators| && j < |p.tiers|
    requires p.Score(i, j) < p.Score(i, At(p, p.Greedy(), i))
    ensures p.Load(p.Greedy(), p.tiers[j]) == p.Cap(p.tiers[j])
    ensures forall o :: 0 <= o < |p.operators| && p.TierOf(p.Greedy(), o) == p.tiers[j]
                        ==> RowMin(p.scores[o]) >= RowMin(p.scores[i])
  {
    FallbackIffOverCommitted(p);
    var t := p.tiers[j];
    var k := p.PositionInOrder(i);
    GreedyChoiceAt(p, k);
    CheaperTierWasFull(p, k, j);
    GreedyLoad(p, t);
    forall o | 0 <= o < |p.operators| && p.TierOf(p.Greedy(), o) == t
      ensures RowMin(p.scores[o]) >= RowMin(p.scores[i])
    {
      var h := p.PositionInOrder(o);
      GreedyAt(p, h);
      GreedyChoiceAt(p, h);
      if k <= h {
        ServedWhileFull(p, k, h, t);
      }
      EarlierIsNotLower(p, h, k);
    }
  }

  lemma GreedyChoiceAt(p: Problem, k: nat)
    requires Posed(p) && !FallsBack(p) && k < |p.operators|
    ensures AllChoices(p)[k].Some? && At(p, p.Greedy(), p.ProcessingOrder()[k]) == AllChoices(p)[k].value
  {
    GreedyListed(p);
    assert Indices(p, p.Greedy())[k] == AllChoices(p)[k].value;
  }

  lemma EarlierIsNotLower(p: Problem, h: nat, k: nat)
    requires p.WellFormed() && h < k < |p.operators|
    ensures p.ProcessingOrder()[h] < |p.operators| && p.ProcessingOrder()[k] < |p.operators|
    ensures RowMin(p.scores[p.ProcessingOrder()[h]]) >= RowMin(p.scores[p.ProcessingOrder()[k]])
  {
    p.ProcessingOrderFacts();
    var o, i := p.ProcessingOrder()[h], p.ProcessingOrder()[k];
    assert p.MinScore(o) == RowMin(p.scores[o]) && p.MinScore(i) == RowMin(p.scores[i]);
  }

  lemma ServedWhileFull(p: Problem, k: nat, h: nat, t: string)
    requires k <= h < |p.ProcessingOrder()|
    requires p.Usage(p.Choices(k), t) >= p.Usage(AllChoices(p), t)
    ensures !p.OnTier(AllChoices(p)[h], t)
  {
    UsageGrows(p, h, t);
    ChoicesPrefix(p, k, h);
    CountPrefix((x: Option<nat>) => p.OnTier(x, t), p.Choices(h), k);
  }

  /** Operator-wise comparison of two placements carries over to their totals. */
  lemma TotalsCompared(p: Problem, a: map<string, string>, b: map<string, string>, extra: nat -> real)
    requires forall i :: 0 <= i < |p.operators| ==> p.CostAt(a, i) + extra(i) <= p.CostAt(b, i)
    ensures p.TotalScore(a) + Sum(Map<nat, real>(extra, Range(|p.operators|))) <= p.TotalScore(b)
  {
    SumCompare((i: nat) => p.CostAt(a, i), extra, (i: nat) => p.CostAt(b, i), |p.operators|);
  }

  // ---- Separable scores ---------------------------------------------------------------

  /** Tier `j` is better or worse than tier `k` by the same amount for operators `i` and `o`. */
  ghost predicate SameAdvantage(p: Problem, i: nat, o: nat, j: nat, k: nat) {
    p.Score(i, j) - p.Score(i, k) == p.Score(o, j) - p.Score(o, k)
  }

  /** The advantage of one tier over another is the same for every operator. */
  ghost predicate Separable(p: Problem) {
    forall i, o, j, k {:trigger SameAdvantage(p, i, o, j, k)} ::
      0 <= i < |p.operators| && 0 <= o < |p.operators| && 0 <= j < |p.tiers| && 0 <= k < |p.tiers|
      ==> SameAdvantage(p, i, o, j, k)
  }

  lemma {:induction false} DearestUsed(b: nat -> real, xs: seq<nat>) returns (x: nat)
    requires xs != []
    ensures x in xs && forall k :: 0 <= k < |xs| ==> b(xs[k]) <= b(x)
  {
    x := xs[0];
    if |xs| > 1 {
      var y := DearestUsed(b, xs[1..]);
      x := if b(xs[0]) < b(y) then y else xs[0];
      forall k | 0 <= k < |xs|
        ensures b(xs[k]) <= b(x)
      {
        if k > 0 { assert xs[k] == xs[1..][k - 1]; }
      }
    }
  }

  lemma NoOccurrence(xs: seq<nat>, j: nat)
    ensures j !in xs <==> Occurrences(xs, j) == 0
  {
    NoneCounted((x: nat) => x == j, xs);
    if j in xs {
      var k := PositionOf(xs, j);
    }
  }

  lemma {:induction false} NoneCounted<T>(q: T -> bool, xs: seq<T>)
    ensures Count(q, xs) == 0 <==> forall k :: 0 <= k < |xs| ==> !q(xs[k])
  {
    if xs != [] {
      NoneCounted(q, xs[..|xs| - 1]);
      assert forall k :: 0 <= k < |xs| - 1 ==> xs[..|xs| - 1][k] == xs[k];
    }
  }

  lemma ShiftedSum(b: nat -> real, beta: real, xs: seq<nat>)
    ensures Sum(Map<nat, real>((j: nat) => b(j) - beta, xs)) == Sum(Map(b, xs)) - |xs| as real * beta
  {
    SumConstant(-beta, xs);
    SumPlus<nat>(b, (j: nat) => -beta, (j: nat) => b(j) - beta, xs);
  }

  /**
    The exchange argument: if every column cheaper than one in use is filled to its limit, no
    other way of choosing as many columns within the limits costs less.
   */
  lemma CheapestFillIsOptimal(b: nat -> real, limit: nat -> nat, xs: seq<nat>, ys: seq<nat>, m: nat)
    requires |xs| == |ys|
    requires forall k :: 0 <= k < |xs| ==> xs[k] < m && ys[k] < m
    requires forall j :: 0 <= j < m ==> Occurrences(ys, j) <= limit(j)
    requires forall j, k :: 0 <= j < m && 0 <= k < |xs| && b(j) < b(xs[k]) ==> Occurrences(xs, j) >= limit(j)
    ensures Sum(Map(b, xs)) <= Sum(Map(b, ys))
  {
    if xs != [] {
      var dearest := DearestUsed(b, xs);
      var at := PositionOf(xs, dearest);
      forall j | 0 <= j < m && b(j) < b(dearest)
        ensures Occurrences(xs, j) >= Occurrences(ys, j)
      {
        assert b(j) < b(xs[at]);
      }
      RelativeToDearest(b, b(dearest), xs, ys, m);
    }
  }

  lemma RelativeToDearest(b: nat -> real, beta: real, xs: seq<nat>, ys: seq<nat>, m: nat)
    requires |xs| == |ys|
    requires forall k :: 0 <= k < |xs| ==> xs[k] < m && ys[k] < m && b(xs[k]) <= beta
    requires forall j :: 0 <= j < m && b(j) < beta ==> Occurrences(xs, j) >= Occurrences(ys, j)
    ensures Sum(Map(b, xs)) <= Sum(Map(b, ys))
  {
    var c := (j: nat) => b(j) - beta;
    CheaperShifted(c, xs, ys, m);
    ShiftedAlike(b, beta, c, xs, ys);
  }

  lemma CheaperShifted(c: nat -> real, xs: seq<nat>, ys: seq<nat>, m: nat)
    requires forall k :: 0 <= k < |xs| ==> xs[k] < m && c(xs[k]) <= 0.0
    requires forall k :: 0 <= k < |ys| ==> ys[k] < m
    requires forall j :: 0 <= j < m && c(j) < 0.0 ==> Occurrences(xs, j) >= Occurrences(ys, j)
    ensures Sum(Map<nat, real>(c, xs)) <= Sum(Map<nat, real>(c, ys))
  {
    CheaperByColumn(c, xs, ys, m);
    DoubleCount(c, xs, m);
    DoubleCount(c, ys, m);
  }

  /** Shifting all costs by the same amount does not change which of two equally long choices is cheaper. */
  lemma ShiftedAlike(b: nat -> real, beta: real, c: nat -> real, xs: seq<nat>, ys: seq<nat>)
    requires |xs| == |ys| && c == ((j: nat) => b(j) - beta)
    requires Sum(Map<nat, real>(c, xs)) <= Sum(Map<nat, real>(c, ys))
    ensures Sum(Map(b, xs)) <= Sum(Map(b, ys))
  {
    ShiftedSum(b, beta, xs);
    ShiftedSum(b, beta, ys);
  }

  /** The same comparison column by column, for costs relative to the dearest column in use. */
  lemma CheaperByColumn(c: nat -> real, xs: seq<nat>, ys: seq<nat>, m: nat)
    requires forall k :: 0 <= k < |xs| ==> c(xs[k]) <= 0.0
    requires forall j :: 0 <= j < m && c(j) < 0.0 ==> Occurrences(xs, j) >= Occurrences(ys, j)
    ensures ByColumn(c, xs, m) <= ByColumn(c, ys, m)
  {
    forall j | 0 <= j < m
      ensures Occurrences(xs, j) as real * c(j) <= Occurrences(ys, j) as real * c(j)
    {
      if c(j) > 0.0 {
        NoOccurrence(xs, j);
        if j in xs {
          var k := PositionOf(xs, j);
        }
      }
      ColumnCheaper(Occurrences(xs, j), Occurrences(ys, j), c(j));
    }
    ByColumnMonotone(c, xs, ys, m);
  }

  /** A column's contribution, for excess cost `c` and `a` against `b` entries in it. */
  lemma ColumnCheaper(a: nat, b: nat, c: real)
    requires c < 0.0 ==> a >= b
    requires c > 0.0 ==> a == 0
    ensures a as real * c <= b as real * c
  {
    if c < 0.0 {
      assert (a - b) as real * c <= 0.0;
      assert a as real * c == b as real * c + (a - b) as real * c;
    }
  }

  /** For separable scores the total is an operator part plus a tier part. */
  lemma TotalSplits(p: Problem, placement: map<string, string>)
    requires Posed(p) && Separable(p) && Listed(p, placement) && p.tiers != []
    ensures p.TotalScore(placement)
         == Sum(Map<nat, real>((i: nat) => p.Score(i, 0), p.ProcessingOrder()))
          + Sum(Map<nat, real>((j: nat) => p.Score(0, j) - p.Score(0, 0), Indices(p, placement)))
  {
    p.ProcessingOrderFacts();
    var order := p.ProcessingOrder();
    var cost := (i: nat) => p.CostAt(placement, i);
    var base := (i: nat) => p.Score(i, 0);
    var extra := (j: nat) => p.Score(0, j) - p.Score(0, 0);
    var moved := (i: nat) => extra(p.TierIndex(p.TierOf(placement, i)));
    MapPermutes<nat, real>(cost, Range(|p.operators|), order);
    SumPermutes(Map<nat, real>(cost, Range(|p.operators|)), Map(cost, order));
    forall k | 0 <= k < |order|
      ensures cost(order[k]) == base(order[k]) + moved(order[k])
    {
      assert SameAdvantage(p, order[k], 0, p.TierIndex(p.TierOf(placement, order[k])), 0);
    }
    SumPlus(base, moved, cost, order);
    assert Map(moved, order) == Map(extra, Indices(p, placement));
  }

  /** Columns cheaper than one the allocator uses are filled to capacity. */
  lemma CheaperColumnsAreFull(p: Problem, j: nat, k: nat)
    requires Posed(p) && Separable(p) && !FallsBack(p) && Listed(p, p.Greedy())
    requires j < |p.tiers| && k < |p.operators|
    requires p.Score(0, j) < p.Score(0, Indices(p, p.Greedy())[k])
    ensures Occurrences(Indices(p, p.Greedy()), j) >= p.Cap(p.TierName(j))
  {
    p.ProcessingOrderFacts();
    var i := p.ProcessingOrder()[k];
    GreedyChoiceAt(p, k);
    IndicesInRange(p, p.Greedy());
    assert SameAdvantage(p, i, 0, j, Indices(p, p.Greedy())[k]);
    CheaperTierWasFull(p, k, j);
    GreedyLoad(p, p.TierName(j));
    LoadIsOccurrences(p, p.Greedy(), j);
  }

  /**
    Global optimality: for separable scores no capacity-respecting placement has a smaller
    total score than the one the allocator returns.
   */
  lemma GreedyIsOptimal(p: Problem, other: map<string, string>)
    requires Posed(p) && Separable(p) && p.Feasible(other)
    ensures p.Feasible(p.Greedy())
    ensures p.TotalScore(p.Greedy()) <= p.TotalScore(other)
  {
    FeasibleNeedsCapacity(p, other);
    GreedyIsFeasible(p);
    if p.operators == [] {
      assert Map<nat, real>((i: nat) => p.CostAt(p.Greedy(), i), Range(0)) == [];
      assert Map<nat, real>((i: nat) => p.CostAt(other, i), Range(0)) == [];
    } else {
      FallbackIffOverCommitted(p);
      FeasibleIsListed(p, p.Greedy());
      FeasibleIsListed(p, other);
      TotalSplits(p, p.Greedy());
      TotalSplits(p, other);
      var extra := (j: nat) => p.Score(0, j) - p.Score(0, 0);
      TierCostsCompared(p, other);
    }
  }

  lemma TierCostsCompared(p: Problem, other: map<string, string>)
    requires Posed(p) && Separable(p) && !FallsBack(p) && Listed(p, p.Greedy())
    requires p.Feasible(other) && Listed(p, other)
    ensures Sum(Map<nat, real>((j: nat) => p.Score(0, j) - p.Score(0, 0), Indices(p, p.Greedy())))
         <= Sum(Map<nat, real>((j: nat) => p.Score(0, j) - p.Score(0, 0), Indices(p, other)))
  {
    var xs, ys := Indices(p, p.Greedy()), Indices(p, other);
    var extra := (j: nat) => p.Score(0, j) - p.Score(0, 0);
    var limit := (j: nat) => p.Cap(p.TierName(j));
    IndicesInRange(p, p.Greedy());
    IndicesInRange(p, other);
    forall j | 0 <= j < |p.tiers|
      ensures Occurrences(ys, j) <= limit(j)
    {
      LoadIsOccurrences(p, other, j);
      assert p.TierName(j) in p.tiers;
    }
    forall j, k | 0 <= j < |p.tiers| && 0 <= k < |xs| && extra(j) < extra(xs[k])
      ensures Occurrences(xs, j) >= limit(j)
    {
      CheaperColumnsAreFull(p, j, k);
    }
    CheapestFillIsOptimal(extra, limit, xs, ys, |p.tiers|);
  }
}
