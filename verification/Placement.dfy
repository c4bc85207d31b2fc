/**
  The capacity-limited greedy allocator.

  Operators are served in descending order of their best score; each takes the cheapest
  tier (lowest index among equals) that still has room, or falls back to "cloud".
 */
module Placement {
  import opened Wrappers
  import opened Sequences
  import opened Sorting

  const CLOUD := "cloud"

  function RowMin(row: seq<real>): (m: real)
    requires row != []
    ensures m in row
    ensures forall j :: 0 <= j < |row| ==> m <= row[j]
  {
    if |row| == 1 then row[0]
    else
      var m := RowMin(row[..|row| - 1]);
      if row[|row| - 1] < m then row[|row| - 1] else m
  }

  datatype Problem = Problem(scores: seq<seq<real>>, operators: seq<string>, tiers: seq<string>,
                             capacities: map<string, int>) {

    /** One row per operator, one column per tier, a capacity for every tier. */
    ghost predicate WellFormed() {
      && |scores| == |operators|
      && (forall i :: 0 <= i < |scores| ==> |scores[i]| == |tiers|)
      && (forall t :: t in tiers ==> t in capacities)
      && (operators != [] ==> tiers != [])
    }

    function Score(i: nat, j: nat): real {
      if i < |scores| && j < |scores[i]| then scores[i][j] else 0.0
    }

    function MinScore(i: nat): real {
      if i < |scores| && scores[i] != [] then RowMin(scores[i]) else 0.0
    }

    function TierName(j: nat): string {
      if j < |tiers| then tiers[j] else ""
    }

    function OperatorName(i: nat): string {
      if i < |operators| then operators[i] else ""
    }

    /** Operators by descending row minimum, ties in the given order. */
    function ProcessingOrder(): (order: seq<nat>)
      ensures |order| == |operators|
    {
      SortOnPermutes((i: nat) => -MinScore(i), Range(|operators|));
      SortOn((i: nat) => -MinScore(i), Range(|operators|))
    }

    /** Tiers by ascending score for operator `i`, ties by index. */
    function TierOrder(i: nat): seq<nat> {
      SortOn((j: nat) => Score(i, j), Range(|tiers|))
    }

    predicate OnTier(c: Option<nat>, t: string) {
      c.Some? && TierName(c.value) == t
    }

    /** How many of the choices made so far use tier `t`; a fallback is not counted. */
    function Usage(choices: seq<Option<nat>>, t: string): nat {
      Count(c => OnTier(c, t), choices)
    }

    /** The usage table counts the choices made so far. */
    ghost predicate Counted(tierUsage: map<string, int>, choices: seq<Option<nat>>) {
      forall t :: t in tiers ==> t in tierUsage && tierUsage[t] == Usage(choices, t)
    }

    predicate HasRoom(choices: seq<Option<nat>>, j: nat) {
      TierName(j) in capacities && Usage(choices, TierName(j)) < capacities[TierName(j)]
    }

    function FirstWithRoom(preference: seq<nat>, choices: seq<Option<nat>>): Option<nat> {
      if preference == [] then None
      else if HasRoom(choices, preference[0]) then Some(preference[0])
      else FirstWithRoom(preference[1..], choices)
    }

    /** The first tier in the preference that the capacity table lacks, if no tier before it has room. */
    function LackingBeforeRoom(preference: seq<nat>, choices: seq<Option<nat>>): Option<string> {
      if preference == [] then None
      else if TierName(preference[0]) !in capacities then Some(TierName(preference[0]))
      else if HasRoom(choices, preference[0]) then None
      else LackingBeforeRoom(preference[1..], choices)
    }

    /** The operator served `k`-th reaches a tier missing from the capacity table before one with room. */
    function LackingAt(k: nat): Option<string>
      requires k < |ProcessingOrder()|
    {
      LackingBeforeRoom(TierOrder(ProcessingOrder()[k]), Choices(k))
    }

    /** The missing tier that is reached first among the first `n` operators in processing order. */
    function FirstLacking(n: nat): Option<string>
      requires n <= |ProcessingOrder()|
    {
      if n == 0 then None
      else if FirstLacking(n - 1).Some? then FirstLacking(n - 1)
      else LackingAt(n - 1)
    }

    lemma {:induction false} FirstLackingStays(k: nat, n: nat)
      requires k <= n <= |ProcessingOrder()| && FirstLacking(k).Some?
      ensures FirstLacking(n) == FirstLacking(k)
    {
      if k < n {
        FirstLackingStays(k, n - 1);
      }
    }

    /** Where every tier has a capacity nothing is missing. */
    lemma {:induction false} WellFormedLacksNothing(n: nat)
      requires WellFormed() && n <= |ProcessingOrder()|
      ensures FirstLacking(n).None?
    {
      if n > 0 {
        WellFormedLacksNothing(n - 1);
        ProcessingOrderFacts();
        var preference := TierOrder(ProcessingOrder()[n - 1]);
        TierOrderFacts(ProcessingOrder()[n - 1]);
        LackingIsReached(preference, Choices(n - 1));
      }
    }

    /** A missing tier is reached exactly if some operator reaches one before a tier with room. */
    lemma {:induction false} FirstLackingIff(n: nat)
      requires n <= |ProcessingOrder()|
      ensures FirstLacking(n).Some? <==> exists k: nat {:trigger Lacks(k)} :: k < n && Lacks(k)
    {
      if n > 0 {
        FirstLackingIff(n - 1);
        assert Lacks(n - 1) <==> LackingAt(n - 1).Some?;
      }
    }

    predicate Lacks(k: nat) {
      k < |ProcessingOrder()| && LackingAt(k).Some?
    }

    /** The choices of the first `k` operators in processing order; `None` is the fallback. */
    function Choices(k: nat): (choices: seq<Option<nat>>)
      requires k <= |ProcessingOrder()|
      ensures |choices| == k
    {
      if k == 0 then []
      else
        var before := Choices(k - 1);
        before + [FirstWithRoom(TierOrder(ProcessingOrder()[k - 1]), before)]
    }

    function ChoiceName(c: Option<nat>): string {
      if c.Some? then TierName(c.value) else CLOUD
    }

    function NamedChoices(k: nat): map<string, string>
      requires k <= |ProcessingOrder()|
    {
      if k == 0 then map[]
      else NamedChoices(k - 1)[OperatorName(ProcessingOrder()[k - 1]) := ChoiceName(Choices(k)[k - 1])]
    }

    /** The placement the allocator returns. */
    function Greedy(): map<string, string> {
      NamedChoices(|ProcessingOrder()|)
    }

    // ---- Meaning of a placement -------------------------------------------------

    function TierIndex(t: string): nat
    {
      if t in tiers then IndexOf(tiers, t) else |tiers|
    }

    function Cap(t: string): nat {
      if t in capacities && capacities[t] > 0 then capacities[t] else 0
    }

    function TotalCapacity(): real {
      Sum(Map<nat, real>((j: nat) => Cap(TierName(j)) as real, Range(|tiers|)))
    }

    /** The tier a placement gives to operator `i`. */
    function TierOf(placement: map<string, string>, i: nat): string {
      if OperatorName(i) in placement then placement[OperatorName(i)] else ""
    }

    function Load(placement: map<string, string>, t: string): nat {
      Count<nat>((i: nat) => TierOf(placement, i) == t, Range(|operators|))
    }

    function CostAt(placement: map<string, string>, i: nat): real {
      Score(i, TierIndex(TierOf(placement, i)))
    }

    function TotalScore(placement: map<string, string>): real {
      Sum(Map<nat, real>((i: nat) => CostAt(placement, i), Range(|operators|)))
    }

    /** Every operator on a listed tier, no tier above its capacity. */
    ghost predicate Feasible(placement: map<string, string>) {
      && (forall i :: 0 <= i < |operators| ==> operators[i] in placement && placement[operators[i]] in tiers)
      && (forall t :: t in tiers ==> Load(placement, t) <= Cap(t))
    }

    /** Operator `i` likes tier `j` at least as much as tier `k`. */
    predicate AtLeastAsGood(i: nat, j: nat, k: nat) {
      Score(i, j) < Score(i, k) || (Score(i, j) == Score(i, k) && j <= k)
    }

    lemma OneMoreServed(k: nat)
      requires k < |ProcessingOrder()|
      ensures Choices(k + 1) == Choices(k) + [FirstWithRoom(TierOrder(ProcessingOrder()[k]), Choices(k))]
      ensures NamedChoices(k + 1) == NamedChoices(k)[OperatorName(ProcessingOrder()[k]) :=
                ChoiceName(FirstWithRoom(TierOrder(ProcessingOrder()[k]), Choices(k)))]
      ensures FirstLacking(k).None? && LackingAt(k).None? ==> FirstLacking(k + 1).None?
    {
      assert Choices(k + 1)[k] == FirstWithRoom(TierOrder(ProcessingOrder()[k]), Choices(k));
    }

    // ---- Orders -----------------------------------------------------------------

    lemma ProcessingOrderFacts()
      ensures multiset(ProcessingOrder()) == multiset(Range(|operators|))
      ensures forall k :: 0 <= k < |operators| ==> ProcessingOrder()[k] < |operators|
      ensures forall h, k :: 0 <= h < k < |operators| ==>
                ProcessingOrder()[h] != ProcessingOrder()[k]
                && MinScore(ProcessingOrder()[h]) >= MinScore(ProcessingOrder()[k])
      ensures forall h, k :: 0 <= h < k < |operators|
                && MinScore(ProcessingOrder()[h]) == MinScore(ProcessingOrder()[k])
                ==> ProcessingOrder()[h] < ProcessingOrder()[k]
    {
      var key := (i: nat) => -MinScore(i);
      var order := ProcessingOrder();
      SortOnPermutes(key, Range(|operators|));
      SortOnStable(key, (i: nat) => i, Range(|operators|));
      forall k | 0 <= k < |operators|
        ensures order[k] < |operators|
      {
        SortOnMember<nat>(key, Range(|operators|), order[k]);
        var h := PositionOf<nat>(Range(|operators|), order[k]);
      }
      forall h, k | 0 <= h < k < |operators|
        ensures order[h] != order[k] && MinScore(order[h]) >= MinScore(order[k])
      {
        assert key(order[h]) <= key(order[k]);
      }
    }

    lemma ServedIsKnown(k: nat)
      requires k < |ProcessingOrder()|
      ensures |ProcessingOrder()| == |operators| && ProcessingOrder()[k] < |operators|
    {
      ProcessingOrderFacts();
    }

    lemma PositionInOrder(i: nat) returns (k: nat)
      requires i < |operators|
      ensures k < |ProcessingOrder()| && ProcessingOrder()[k] == i
    {
      assert Range(|operators|)[i] == i;
      SortOnMember((x: nat) => -MinScore(x), Range(|operators|), i);
      k := PositionOf(ProcessingOrder(), i);
    }

    lemma TierOrderFacts(i: nat)
      ensures |TierOrder(i)| == |tiers|
      ensures forall h :: 0 <= h < |tiers| ==> TierOrder(i)[h] < |tiers|
      ensures forall g, h :: 0 <= g <= h < |tiers| ==> AtLeastAsGood(i, TierOrder(i)[g], TierOrder(i)[h])
      ensures forall g, h :: 0 <= g < h < |tiers| ==> TierOrder(i)[g] != TierOrder(i)[h]
    {
      var key := (j: nat) => Score(i, j);
      SortOnPermutes(key, Range(|tiers|));
      SortOnStable(key, (j: nat) => j, Range(|tiers|));
      var order := TierOrder(i);
      forall h | 0 <= h < |tiers|
        ensures order[h] < |tiers|
      {
        SortOnMember<nat>(key, Range(|tiers|), order[h]);
        var x := PositionOf<nat>(Range(|tiers|), order[h]);
      }
      forall g, h | 0 <= g < h < |tiers|
        ensures AtLeastAsGood(i, order[g], order[h]) && order[g] != order[h]
      {
        assert key(order[g]) == Score(i, order[g]) && key(order[h]) == Score(i, order[h]);
      }
    }

    lemma PositionInTierOrder(i: nat, j: nat) returns (h: nat)
      requires j < |tiers|
      ensures h < |TierOrder(i)| && TierOrder(i)[h] == j
    {
      assert Range(|tiers|)[j] == j;
      SortOnMember((x: nat) => Score(i, x), Range(|tiers|), j);
      h := PositionOf(TierOrder(i), j);
    }

    /** What is reached: a missing tier, with no tier before it missing or with room. */
    lemma {:induction false} LackingIsReached(preference: seq<nat>, choices: seq<Option<nat>>)
      ensures LackingBeforeRoom(preference, choices).Some? <==>
                exists h :: 0 <= h < |preference| && TierName(preference[h]) !in capacities
                            && forall g :: 0 <= g < h ==> !HasRoom(choices, preference[g])
      ensures LackingBeforeRoom(preference, choices).Some? ==>
          LackingBeforeRoom(preference, choices).value !in capacities
    {
      if preference != [] && TierName(preference[0]) in capacities && !HasRoom(choices, preference[0]) {
        var rest := preference[1..];
        LackingIsReached(rest, choices);
        if h :| 0 <= h < |rest| && TierName(rest[h]) !in capacities
                && forall g :: 0 <= g < h ==> !HasRoom(choices, rest[g]) {
          assert preference[h + 1] == rest[h];
          forall g | 0 <= g < h + 1
            ensures !HasRoom(choices, preference[g])
          {
            assert g > 0 ==> preference[g] == rest[g - 1];
          }
        }
        if h :| 0 <= h < |preference| && TierName(preference[h]) !in capacities
                && forall g :: 0 <= g < h ==> !HasRoom(choices, preference[g]) {
          assert h > 0 && rest[h - 1] == preference[h];
          forall g | 0 <= g < h - 1
            ensures !HasRoom(choices, rest[g])
          {
            assert rest[g] == preference[g + 1];
          }
        }
      }
    }

    lemma {:induction false} FirstWithRoomIsFirst(preference: seq<nat>, choices: seq<Option<nat>>)
      ensures FirstWithRoom(preference, choices).None? ==>
                forall h :: 0 <= h < |preference| ==> !HasRoom(choices, preference[h])
      ensures FirstWithRoom(preference, choices).Some? ==>
                exists h :: 0 <= h < |preference| && preference[h] == FirstWithRoom(preference, choices).value
                            && HasRoom(choices, preference[h])
                            && forall g :: 0 <= g < h ==> !HasRoom(choices, preference[g])
    {
      if preference != [] && !HasRoom(choices, preference[0]) {
        FirstWithRoomIsFirst(preference[1..], choices);
        var r := FirstWithRoom(preference[1..], choices);
        if r.Some? {
          var h :| 0 <= h < |preference| - 1 && preference[1..][h] == r.value
                   && HasRoom(choices, preference[1..][h])
                   && forall g :: 0 <= g < h ==> !HasRoom(choices, preference[1..][g]);
          assert preference[h + 1] == r.value;
          forall g | 0 <= g < h + 1
            ensures !HasRoom(choices, preference[g])
          {
            if g > 0 {
              assert preference[g] == preference[1..][g - 1];
            }
          }
        } else {
          forall g | 0 <= g < |preference|
            ensures !HasRoom(choices, preference[g])
          {
            if g > 0 {
              assert preference[g] == preference[1..][g - 1];
            }
          }
        }
      }
    }
  }

  function IndexOf(xs: seq<string>, x: string): (i: nat)
    requires x in xs
    ensures i < |xs| && xs[i] == x
    ensures forall j :: 0 <= j < i ==> xs[j] != x
  {
    if xs[0] == x then 0 else 1 + IndexOf(xs[1..], x)
  }

  /** The rows of a score array. */
  function Rows(scores: array2<real>): (rows: seq<seq<real>>)
    reads scores
    ensures |rows| == scores.Length0
    ensures forall i :: 0 <= i < |rows| ==> |rows[i]| == scores.Length1
    ensures forall i, j :: 0 <= i < |rows| && 0 <= j < scores.Length1 ==> rows[i][j] == scores[i, j]
  {
    seq(scores.Length0, i requires 0 <= i < scores.Length0 reads scores =>
      seq(scores.Length1, j requires 0 <= j < scores.Length1 reads scores => scores[i, j]))
  }

  /** `EmptyRow` is the minimum over no tiers, `NoCapacity` the missing key of the capacity table. */
  datatype PlacementError = EmptyRow | NoCapacity(tier: string)

  /** The placement, or the exception: no tiers at all, or the missing tier that is reached first. */
  function Outcome(p: Problem): Result<map<string, string>, PlacementError> {
    if p.operators != [] && p.tiers == [] then Failure(EmptyRow)
    else if p.FirstLacking(|p.operators|).Some? then Failure(NoCapacity(p.FirstLacking(|p.operators|).value))
    else Success(p.Greedy())
  }

  lemma FailsHere(p: Problem, k: nat)
    requires k < |p.ProcessingOrder()| && p.tiers != []
    requires p.FirstLacking(k).None? && p.LackingAt(k).Some?
    ensures Outcome(p) == Failure(NoCapacity(p.LackingAt(k).value))
  {
    p.ServedIsKnown(k);
    p.FirstLackingStays(k + 1, |p.operators|);
  }

  /** The allocator's loops; `tierUsage` and the result are updated one operator at a time. */
  method FindOptimalPlacement(scores: array2<real>, operators: seq<string>, tiers: seq<string>,
                              capacities: map<string, int>)
    returns (r: Result<map<string, string>, PlacementError>)
    requires scores.Length0 == |operators| && scores.Length1 == |tiers|
    ensures r == Outcome(Problem(Rows(scores), operators, tiers, capacities))
  {
    if operators != [] && tiers == [] {
      return Failure(EmptyRow);
    }
    r := AssignAll(Problem(Rows(scores), operators, tiers, capacities));
  }

  method AssignAll(p: Problem) returns (r: Result<map<string, string>, PlacementError>)
    requires p.operators == [] || p.tiers != []
    ensures r == Outcome(p)
  {
    var placement: map<string, string> := map[];
    var tierUsage: map<string, int> := map t | t in p.tiers :: 0;
    var order := p.ProcessingOrder();
    assert |order| == |p.operators| by {
      p.ProcessingOrderFacts();
    }
    for k := 0 to |order|
      invariant placement == p.NamedChoices(k)
      invariant p.FirstLacking(k).None?
      invariant p.Counted(tierUsage, p.Choices(k))
    {
      p.ServedIsKnown(k);
      var round := AssignOne(p, order[k], p.Choices(k), placement, tierUsage);
      if round.Failure? {
        FailsHere(p, k);
        return Failure(round.error);
      }
      placement, tierUsage := round.value.0, round.value.1;
      p.OneMoreServed(k);
    }
    return Success(placement);
  }

  /** One round of the outer loop: scan the tiers from cheapest to dearest and take the first with room. */
  method AssignOne(p: Problem, i: nat, ghost before: seq<Option<nat>>, placement: map<string, string>,
                   tierUsage: map<string, int>)
    returns (r: Result<(map<string, string>, map<string, int>), PlacementError>)
    requires i < |p.operators|
    requires p.Counted(tierUsage, before)
    ensures r.Success? ==>
              r.value.0 == placement[p.operators[i] := p.ChoiceName(p.FirstWithRoom(p.TierOrder(i), before))]
    ensures r.Success? ==> p.Counted(r.value.1, before + [p.FirstWithRoom(p.TierOrder(i), before)])
    ensures r.Failure? <==> p.LackingBeforeRoom(p.TierOrder(i), before).Some?
    ensures r.Failure? ==> r.error == NoCapacity(p.LackingBeforeRoom(p.TierOrder(i), before).value)
  {
    var tierScores := p.TierOrder(i);
    ghost var choice := p.FirstWithRoom(tierScores, before);
    p.TierOrderFacts(i);
    forall t | t in p.tiers
      ensures p.Usage(before + [choice], t) == p.Usage(before, t) + if p.OnTier(choice, t) then 1 else 0
    {
      CountSnoc(c => p.OnTier(c, t), before, choice);
    }
    for h := 0 to |tierScores|
      invariant p.FirstWithRoom(tierScores[h..], before) == choice
      invariant p.LackingBeforeRoom(tierScores[h..], before) == p.LackingBeforeRoom(tierScores, before)
    {
      var tier := p.tiers[tierScores[h]];
      if tier !in p.capacities {
        return Failure(NoCapacity(tier));
      }
      if tierUsage[tier] < p.capacities[tier] {
        assert choice == Some(tierScores[h]);
        return Success((placement[p.operators[i] := tier], tierUsage[tier := tierUsage[tier] + 1]));
      }
    }
    return Success((placement[p.operators[i] := CLOUD], tierUsage));
  }
}
