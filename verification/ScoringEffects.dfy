/**
  What the cells of the score array are worth, in plain numbers: how much class, latency, SLO,
  load and network weigh, and whom the allocator therefore serves first.
 */
module ScoringEffects {
  import opened Placement
  import opened Scoring

  /** The cell of operator `i` and tier `j` in the array that is computed. */
  function Cell(s: Situation, ops: seq<string>, tiers: seq<string>, i: nat, j: nat): real
    requires s.AllUsable(ops) && i < |ops| && j < |tiers|
  {
    s.ScoreRows(ops, tiers)[i][j]
  }

  // ---- The parts, in plain numbers ----------------------------------------------------------------

  predicate InClass(s: Situation, op: string, class_: string) {
    op in s.lambdaMap && s.lambdaMap[op] == class_
  }

  /** Everything that is neither critical nor batch counts as standard: no class, or an unknown one. */
  predicate Standard(s: Situation, op: string) {
    !InClass(s, op, "critical") && !InClass(s, op, "batch")
  }

  predicate Reachable(s: Situation, tier: string) {
    tier in s.reports.last && s.reports.last[tier].reachable
  }

  /** The greater of the two utilizations that a reachable tier reports. */
  function Busier(s: Situation, tier: string): real
    requires Reachable(s, tier)
  {
    var t := s.reports.last[tier];
    if t.cpuUtilization > t.memoryUtilization then t.cpuUtilization else t.memoryUtilization
  }

  /** The load a tier is taken to have: what it reports up to 0.99, and 0.9 if it cannot be reached. */
  function Load(s: Situation, tier: string): real {
    if !Reachable(s, tier) then 0.9 else if Busier(s, tier) > 0.99 then 0.99 else Busier(s, tier)
  }

  /** The network cost of a tier in milliseconds. */
  function Distance(s: Situation, tier: string): real {
    if tier == "cloud" then 0.0 else if Reachable(s, tier) then s.reports.last[tier].rttMs else 1000.0
  }

  /** The SLO, an hour if there is none. */
  function SloOf(s: Situation, op: string): real {
    if op in s.sloMap && s.sloMap[op].Some? then s.sloMap[op].value else 3600.0 * 1000.0
  }

  /** How far a latency exceeds the SLO, relative to the SLO. */
  function Overrun(latency: real, slo: real): real
    requires slo != 0.0 || latency <= slo
  {
    if latency <= slo then 0.0 else latency / slo - 1.0
  }

  lemma QuotientLessOne(x: real, y: real)
    requires y != 0.0
    ensures (x - y) / y == x / y - 1.0
  {
    var q := x / y;
    assert q * y == x;
    QuotientIs(x - y, y, q - 1.0);
  }

  lemma QuotientIs(a: real, y: real, q: real)
    requires y != 0.0 && q * y == a
    ensures a / y == q
  {
    var p := a / y;
    assert p * y == a;
    assert (p - q) * y == 0.0;
  }

  /** The latency is the greatest reported one; if nobody reports one, or none is above zero, it may be 1 ms. */
  lemma LatencyIs(s: Situation, op: string)
    ensures forall h :: h in s.reports.heas && s.reports.ReportsOn(h, op) ==>
              s.reports.last[h].operatorP95Ms[op] <= s.Latency(op)
    ensures (exists h :: h in s.reports.heas && s.reports.ReportsOn(h, op)
                         && s.reports.last[h].operatorP95Ms[op] == s.Latency(op))
         || (s.Latency(op) == 1.0
             && forall h :: h in s.reports.heas && s.reports.ReportsOn(h, op) ==>
                  s.reports.last[h].operatorP95Ms[op] <= 0.0)
  {
    var n := |s.reports.heas|;
    s.reports.WorstAmongIsMaximum(n, op);
    assert forall h :: h in s.reports.heas ==> exists k :: 0 <= k < n && s.reports.heas[k] == h;
  }

  function ClassFactor(s: Situation, op: string): real {
    if InClass(s, op, "critical") then 3.0 else if InClass(s, op, "batch") then 0.1 else 1.0
  }

  lemma LoadIs(s: Situation, tier: string)
    ensures var (cpu, mem) := s.reports.Utilization(tier);
            Min(Max(cpu, mem), 0.99) == Load(s, tier) < 1.0
  {
  }

  lemma SloPartIs(s: Situation, op: string)
    requires s.SloUsable(op)
    ensures s.PhiSlo(op) == s.config.sloPenaltyFactor * Overrun(s.Latency(op), SloOf(s, op))
  {
    if s.Latency(op) > SloOf(s, op) {
      QuotientLessOne(s.Latency(op), SloOf(s, op));
    }
  }

  lemma LatencyPartIs(s: Situation, op: string)
    ensures s.PhiLat(op) == ClassFactor(s, op) * s.Latency(op)
  {
    assert s.LambdaFactor(op) == ClassFactor(s, op);
  }

  /** A cell is the sum of its parts: one for the operator, one for the tier. */
  lemma CellIs(s: Situation, ops: seq<string>, tiers: seq<string>, i: nat, j: nat)
    requires s.AllUsable(ops) && i < |ops| && j < |tiers|
    ensures Cell(s, ops, tiers, i, j) == OperatorPart(s, ops[i]) + TierPart(s, tiers[j])
  {
    var op, tier := ops[i], tiers[j];
    OperatorPartIs(s, op);
    TierPartIs(s, tier);
    SumOfParts(s, op, tier, s.weights.lat * s.PhiLat(op), s.weights.res * s.PhiRes(tier),
               s.weights.net * s.PhiNet(tier), s.weights.slo * s.PhiSlo(op));
  }

  lemma OperatorPartIs(s: Situation, op: string)
    requires s.SloUsable(op)
    ensures s.weights.lat * s.PhiLat(op) + s.weights.slo * s.PhiSlo(op) == OperatorPart(s, op)
  {
    LatencyPartIs(s, op);
    SloPartIs(s, op);
  }

  lemma TierPartIs(s: Situation, tier: string)
    ensures s.weights.res * s.PhiRes(tier) + s.weights.net * s.PhiNet(tier) == TierPart(s, tier)
  {
    LoadIs(s, tier);
    LoadCostIs(s.weights.res, s.config.kappa, Load(s, tier));
    assert s.PhiRes(tier) == Queueing(s.config.kappa, Load(s, tier)) && s.PhiNet(tier) == Distance(s, tier);
  }

  lemma LoadCostIs(w: real, kappa: real, load: real)
    requires load < 1.0
    ensures w * Queueing(kappa, load) == LoadCost(w, kappa, load)
  {
  }

  lemma SumOfParts(s: Situation, op: string, tier: string, lat: real, res: real, net: real, slo: real)
    requires s.SloUsable(op)
    requires lat == s.weights.lat * s.PhiLat(op) && res == s.weights.res * s.PhiRes(tier)
    requires net == s.weights.net * s.PhiNet(tier) && slo == s.weights.slo * s.PhiSlo(op)
    ensures s.ScoreOf(op, tier) == (lat + slo) + (res + net)
  {
  }

  /** What the operator contributes, in closed form. */
  function OperatorPart(s: Situation, op: string): real
    requires s.SloUsable(op)
  {
    s.weights.lat * (ClassFactor(s, op) * s.Latency(op))
      + s.weights.slo * (s.config.sloPenaltyFactor * Overrun(s.Latency(op), SloOf(s, op)))
  }

  /** The weighted queueing cost of a load. */
  function LoadCost(w: real, kappa: real, load: real): real
    requires load < 1.0
  {
    w * (kappa * load / (1.0 - load))
  }

  /** What the tier contributes, in closed form. */
  function TierPart(s: Situation, tier: string): real {
    LoadCost(s.weights.res, s.config.kappa, Load(s, tier)) + s.weights.net * Distance(s, tier)
  }

  // ---- Class ------------------------------------------------------------------------------------------

  /** Two operators alike in everything but their class. */
  predicate AlikeButClass(s: Situation, a: string, b: string) {
    s.Latency(a) == s.Latency(b) && SloOf(s, a) == SloOf(s, b)
  }

  lemma Factored(w: real, f: real, g: real, latency: real)
    ensures w * (f * latency) - w * (g * latency) == w * latency * (f - g)
  {
  }

  lemma OperatorPartsDifferBy(s: Situation, a: string, b: string)
    requires s.SloUsable(a) && s.SloUsable(b) && AlikeButClass(s, a, b)
    ensures OperatorPart(s, a) - OperatorPart(s, b)
         == s.weights.lat * (ClassFactor(s, a) * s.Latency(a)) - s.weights.lat * (ClassFactor(s, b) * s.Latency(a))
  {
  }

  lemma OperatorsDifferBy(s: Situation, a: string, b: string)
    requires s.SloUsable(a) && s.SloUsable(b) && AlikeButClass(s, a, b)
    ensures OperatorPart(s, a) - OperatorPart(s, b)
         == s.weights.lat * s.Latency(a) * (ClassFactor(s, a) - ClassFactor(s, b))
  {
    OperatorPartsDifferBy(s, a, b);
    Factored(s.weights.lat, ClassFactor(s, a), ClassFactor(s, b), s.Latency(a));
  }

  /** The classes differ by their factors times the weighted latency, on every tier. */
  lemma ClassesDifferBy(s: Situation, ops: seq<string>, tiers: seq<string>, i: nat, o: nat, j: nat)
    requires s.AllUsable(ops) && i < |ops| && o < |ops| && j < |tiers| && AlikeButClass(s, ops[i], ops[o])
    ensures Cell(s, ops, tiers, i, j) - Cell(s, ops, tiers, o, j)
         == s.weights.lat * s.Latency(ops[i]) * (ClassFactor(s, ops[i]) - ClassFactor(s, ops[o]))
  {
    CellsDifferBy(s, ops, tiers, i, o, j);
    OperatorsDifferBy(s, ops[i], ops[o]);
  }

  /** On one tier the cells of two operators differ by what the operators contribute. */
  lemma CellsDifferBy(s: Situation, ops: seq<string>, tiers: seq<string>, i: nat, o: nat, j: nat)
    requires s.AllUsable(ops) && i < |ops| && o < |ops| && j < |tiers|
    ensures Cell(s, ops, tiers, i, j) - Cell(s, ops, tiers, o, j)
         == OperatorPart(s, ops[i]) - OperatorPart(s, ops[o])
  {
    CellIs(s, ops, tiers, i, j);
    CellIs(s, ops, tiers, o, j);
    Differences(Cell(s, ops, tiers, i, j), Cell(s, ops, tiers, o, j), OperatorPart(s, ops[i]),
                OperatorPart(s, ops[o]), TierPart(s, tiers[j]));
  }

  lemma Differences(x: real, y: real, a: real, b: real, c: real)
    requires x == a + c && y == b + c
    ensures x - y == a - b
  {
  }

  /** The first operator's class weighs more: critical before standard before batch. */
  predicate HigherClass(s: Situation, a: string, b: string) {
    (InClass(s, a, "critical") && !InClass(s, b, "critical")) || (Standard(s, a) && InClass(s, b, "batch"))
  }

  lemma PositiveProduct(a: real, b: real)
    requires a > 0.0 && b > 0.0
    ensures a * b > 0.0
  {
  }

  /**
    With equal latency and SLO, a positive latency and latency weight, the operator of the higher
    class has the greater cell on every tier.  The latency parts are as 3 to 1 to 1/10.
   */
  lemma HigherClassScoresMore(s: Situation, ops: seq<string>, tiers: seq<string>, i: nat, o: nat, j: nat)
    requires s.AllUsable(ops) && i < |ops| && o < |ops| && j < |tiers| && AlikeButClass(s, ops[i], ops[o])
    requires s.Latency(ops[i]) > 0.0 && s.weights.lat > 0.0
    ensures HigherClass(s, ops[i], ops[o]) ==> Cell(s, ops, tiers, i, j) > Cell(s, ops, tiers, o, j)
    ensures InClass(s, ops[i], "critical") && Standard(s, ops[o]) ==> s.PhiLat(ops[i]) == 3.0 * s.PhiLat(ops[o])
    ensures InClass(s, ops[i], "batch") && Standard(s, ops[o]) ==> s.PhiLat(ops[o]) == 10.0 * s.PhiLat(ops[i])
  {
    ClassesDifferBy(s, ops, tiers, i, o, j);
    LatencyPartIs(s, ops[i]);
    LatencyPartIs(s, ops[o]);
    PositiveProduct(s.weights.lat, s.Latency(ops[i]));
    if HigherClass(s, ops[i], ops[o]) {
      PositiveProduct(s.weights.lat * s.Latency(ops[i]), ClassFactor(s, ops[i]) - ClassFactor(s, ops[o]));
    }
  }

  /** If every cell of a row is greater, so is the least one. */
  lemma GreaterRow(p: Problem, i: nat, o: nat)
    requires i < |p.scores| && o < |p.scores| && |p.scores[i]| == |p.scores[o]| > 0
    requires forall j :: 0 <= j < |p.scores[i]| ==> p.scores[i][j] > p.scores[o][j]
    ensures p.MinScore(i) > p.MinScore(o)
  {
    var j :| 0 <= j < |p.scores[i]| && p.scores[i][j] == p.MinScore(i);
    assert p.scores[o][j] >= RowMin(p.scores[o]);
  }

  lemma HigherClassGreaterRow(s: Situation, ops: seq<string>, tiers: seq<string>, capacities: map<string, int>,
                              i: nat, o: nat)
    requires s.AllUsable(ops) && i < |ops| && o < |ops| && tiers != [] && AlikeButClass(s, ops[i], ops[o])
    requires s.Latency(ops[i]) > 0.0 && s.weights.lat > 0.0 && HigherClass(s, ops[i], ops[o])
    ensures s.PlacementProblem(ops, tiers, capacities).MinScore(i)
          > s.PlacementProblem(ops, tiers, capacities).MinScore(o)
  {
    var p := s.PlacementProblem(ops, tiers, capacities);
    forall j | 0 <= j < |tiers|
      ensures p.scores[i][j] > p.scores[o][j]
    {
      HigherClassScoresMore(s, ops, tiers, i, o, j);
    }
    GreaterRow(p, i, o);
  }

  lemma ServedByRow(p: Problem, i: nat, o: nat) returns (h: nat, k: nat)
    requires i < |p.operators| && o < |p.operators| && p.MinScore(i) > p.MinScore(o)
    ensures h < k < |p.operators| && p.ProcessingOrder()[h] == i && p.ProcessingOrder()[k] == o
  {
    h := p.PositionInOrder(i);
    k := p.PositionInOrder(o);
    p.ProcessingOrderFacts();
  }

  /** The allocator serves the operator of the higher class first. */
  lemma HigherClassServedFirst(s: Situation, ops: seq<string>, tiers: seq<string>, capacities: map<string, int>,
                               i: nat, o: nat)
    returns (h: nat, k: nat)
    requires s.AllUsable(ops) && i < |ops| && o < |ops| && tiers != [] && AlikeButClass(s, ops[i], ops[o])
    requires s.Latency(ops[i]) > 0.0 && s.weights.lat > 0.0 && HigherClass(s, ops[i], ops[o])
    ensures h < k < |ops|
    ensures s.PlacementProblem(ops, tiers, capacities).ProcessingOrder()[h] == i
    ensures s.PlacementProblem(ops, tiers, capacities).ProcessingOrder()[k] == o
  {
    HigherClassGreaterRow(s, ops, tiers, capacities, i, o);
    h, k := ServedByRow(s.PlacementProblem(ops, tiers, capacities), i, o);
  }

  // ---- Load and network -------------------------------------------------------------------------------

  lemma OddsGrow(x: real, y: real)
    requires x < 1.0 && y < 1.0
    ensures x <= y <==> x / (1.0 - x) <= y / (1.0 - y)
  {
    var a, b := x / (1.0 - x), y / (1.0 - y);
    assert a * (1.0 - x) == x && b * (1.0 - y) == y;
    assert (a + 1.0) * (1.0 - x) == 1.0 && (b + 1.0) * (1.0 - y) == 1.0;
    OddsAgainst(a + 1.0, 1.0 - x, b + 1.0, 1.0 - y);
  }

  /** Of two pairs with product one, the greater first factor has the smaller second one. */
  lemma OddsAgainst(a: real, x: real, b: real, y: real)
    requires x > 0.0 && y > 0.0 && a * x == 1.0 && b * y == 1.0
    ensures a <= b <==> y <= x
  {
    assert a > 0.0 && b > 0.0;
    assert (b - a) * x * y == x - y;
    PositiveProduct(x, y);
    if a < b {
      PositiveProduct(b - a, x * y);
    } else if b < a {
      PositiveProduct(a - b, x * y);
    }
  }

  lemma ScaledOrder(w: real, a: real, b: real)
    requires w > 0.0
    ensures a <= b <==> w * a <= w * b
  {
    if a < b {
      PositiveProduct(w, b - a);
    } else if b < a {
      PositiveProduct(w, a - b);
    }
  }

  lemma Regrouped(w: real, kappa: real, x: real, d: real)
    requires d != 0.0
    ensures w * (kappa * x / d) == w * kappa * (x / d)
  {
  }

  /** Between tiers at the same distance the one with less load is cheaper, for every operator. */
  lemma LessLoadIsCheaper(s: Situation, ops: seq<string>, tiers: seq<string>, i: nat, j: nat, k: nat)
    requires s.AllUsable(ops) && i < |ops| && j < |tiers| && k < |tiers|
    requires s.weights.res * s.config.kappa > 0.0 && Distance(s, tiers[j]) == Distance(s, tiers[k])
    ensures Cell(s, ops, tiers, i, j) <= Cell(s, ops, tiers, i, k) <==> Load(s, tiers[j]) <= Load(s, tiers[k])
  {
    CellIs(s, ops, tiers, i, j);
    CellIs(s, ops, tiers, i, k);
    LessLoadIsLess(s, tiers[j], tiers[k]);
  }

  lemma LessLoadIsLess(s: Situation, a: string, b: string)
    requires s.weights.res * s.config.kappa > 0.0 && Distance(s, a) == Distance(s, b)
    ensures TierPart(s, a) <= TierPart(s, b) <==> Load(s, a) <= Load(s, b)
  {
    LoadCostGrows(s.weights.res, s.config.kappa, Load(s, a), Load(s, b));
  }

  lemma LoadCostGrows(w: real, kappa: real, x: real, y: real)
    requires w * kappa > 0.0 && x < 1.0 && y < 1.0
    ensures LoadCost(w, kappa, x) <= LoadCost(w, kappa, y) <==> x <= y
  {
    Regrouped(w, kappa, x, 1.0 - x);
    Regrouped(w, kappa, y, 1.0 - y);
    OddsGrow(x, y);
    ScaledOrder(w * kappa, x / (1.0 - x), y / (1.0 - y));
  }

  /** Tiers with the same load differ by their weighted distance. */
  lemma DistancesDifferBy(s: Situation, ops: seq<string>, tiers: seq<string>, i: nat, j: nat, k: nat)
    requires s.AllUsable(ops) && i < |ops| && j < |tiers| && k < |tiers| && Load(s, tiers[j]) == Load(s, tiers[k])
    ensures Cell(s, ops, tiers, i, j) - Cell(s, ops, tiers, i, k)
         == s.weights.net * (Distance(s, tiers[j]) - Distance(s, tiers[k]))
  {
    CellIs(s, ops, tiers, i, j);
    CellIs(s, ops, tiers, i, k);
  }

  /** A tier that cannot be reached scores as one with load 0.9 that is 1000 ms away; cloud is never away. */
  lemma UnreachableScoresAs(s: Situation, ops: seq<string>, tiers: seq<string>, i: nat, j: nat, k: nat)
    requires s.AllUsable(ops) && i < |ops| && j < |tiers| && k < |tiers|
    requires !Reachable(s, tiers[j]) && Reachable(s, tiers[k]) && Busier(s, tiers[k]) == 0.9
    requires tiers[j] != "cloud" && tiers[k] != "cloud"
    ensures s.reports.last[tiers[k]].rttMs == 1000.0 ==> Cell(s, ops, tiers, i, j) == Cell(s, ops, tiers, i, k)
    ensures forall c :: 0 <= c < |tiers| && tiers[c] == "cloud" && Load(s, "cloud") == 0.9 ==>
              Cell(s, ops, tiers, i, j) - Cell(s, ops, tiers, i, c) == s.weights.net * 1000.0
  {
    DistancesDifferBy(s, ops, tiers, i, j, k);
    forall c | 0 <= c < |tiers| && tiers[c] == "cloud" && Load(s, "cloud") == 0.9
      ensures Cell(s, ops, tiers, i, j) - Cell(s, ops, tiers, i, c) == s.weights.net * 1000.0
    {
      DistancesDifferBy(s, ops, tiers, i, j, c);
    }
  }

  // ---- SLO ----------------------------------------------------------------------------------------------

  /** The SLO part is zero exactly if the latency is within the SLO. */
  lemma SloPartIsZeroIff(s: Situation, op: string)
    requires s.SloUsable(op) && s.config.sloPenaltyFactor != 0.0
    ensures s.PhiSlo(op) == 0.0 <==> s.Latency(op) <= SloOf(s, op)
  {
    SloPartIs(s, op);
    if s.Latency(op) > SloOf(s, op) {
      OverrunPositive(s.Latency(op), SloOf(s, op));
    }
  }

  lemma OverrunPositive(latency: real, slo: real)
    requires slo != 0.0 && latency > slo
    ensures Overrun(latency, slo) != 0.0
  {
    assert latency / slo * slo == latency;
  }

  lemma OverrunsDifferBy(s: Situation, a: string, b: string)
    requires s.SloUsable(a) && s.SloUsable(b)
    requires s.Latency(a) == s.Latency(b) && ClassFactor(s, a) == ClassFactor(s, b)
    ensures OperatorPart(s, a) - OperatorPart(s, b)
         == s.weights.slo * (s.config.sloPenaltyFactor * Overrun(s.Latency(a), SloOf(s, a)))
          - s.weights.slo * (s.config.sloPenaltyFactor * Overrun(s.Latency(b), SloOf(s, b)))
  {
  }

  lemma NothingTimes(w: real, f: real)
    ensures w * (f * 0.0) == 0.0
  {
  }

  /** Missing the SLO costs the weighted penalty for the overrun, on every tier. */
  lemma MissingTheSloCosts(s: Situation, ops: seq<string>, tiers: seq<string>, i: nat, o: nat, j: nat)
    requires s.AllUsable(ops) && i < |ops| && o < |ops| && j < |tiers|
    requires s.Latency(ops[i]) == s.Latency(ops[o]) && ClassFactor(s, ops[i]) == ClassFactor(s, ops[o])
    requires s.Latency(ops[o]) <= SloOf(s, ops[o]) && s.Latency(ops[i]) > SloOf(s, ops[i]) > 0.0
    ensures Cell(s, ops, tiers, i, j) - Cell(s, ops, tiers, o, j)
         == s.weights.slo * (s.config.sloPenaltyFactor * (s.Latency(ops[i]) / SloOf(s, ops[i]) - 1.0))
  {
    CellsDifferBy(s, ops, tiers, i, o, j);
    OverrunsDifferBy(s, ops[i], ops[o]);
    NothingTimes(s.weights.slo, s.config.sloPenaltyFactor);
  }
}
