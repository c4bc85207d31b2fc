/** Telemetry and the placement score of an operator on a tier. */
module Scoring {
  import opened Wrappers
  import opened Sequences
  import opened Sorting
  import opened Placement
  import opened PlacementTheorems

  /** What one edge agent last reported. */
  datatype HeaTelemetry = HeaTelemetry(cpuUtilization: real, memoryUtilization: real, rttMs: real,
                                       operatorP95Ms: map<string, real>, reachable: bool)

  const UNREGISTERED := HeaTelemetry(0.0, 0.0, 1000.0, map[], false)

  function Max(a: real, b: real): real {
    if a < b then b else a
  }

  function Min(a: real, b: real): real {
    if b < a then b else a
  }

  /** The collector's table: agents in registration order, one report for each. */
  datatype Reports = Reports(heas: seq<string>, last: map<string, HeaTelemetry>) {

    ghost predicate Valid() {
      Distinct(heas) && forall h :: h in heas <==> h in last
    }

    /** Agent `h` is reachable and reports a latency for operator `op`. */
    predicate ReportsOn(h: string, op: string) {
      h in last && last[h].reachable && op in last[h].operatorP95Ms
    }

    function Utilization(tier: string): (real, real) {
      if tier in last && last[tier].reachable then (last[tier].cpuUtilization, last[tier].memoryUtilization)
      else (0.9, 0.9)
    }

    /** The greatest latency reported for `op` by the first `n` agents. */
    function WorstAmong(n: nat, op: string): Option<real>
      requires n <= |heas|
    {
      if n == 0 then None
      else
        var worst := WorstAmong(n - 1, op);
        var h := heas[n - 1];
        if !ReportsOn(h, op) then worst
        else if worst.None? then Some(last[h].operatorP95Ms[op])
        else Some(Max(worst.value, last[h].operatorP95Ms[op]))
    }

    function OperatorLatency(op: string): Option<real> {
      WorstAmong(|heas|, op)
    }

    lemma {:induction false} WorstAmongIsMaximum(n: nat, op: string)
      requires n <= |heas|
      ensures WorstAmong(n, op).None? <==> forall k :: 0 <= k < n ==> !ReportsOn(heas[k], op)
      ensures WorstAmong(n, op).Some? ==>
                && (exists k :: 0 <= k < n && ReportsOn(heas[k], op)
                                && last[heas[k]].operatorP95Ms[op] == WorstAmong(n, op).value)
                && forall k :: 0 <= k < n && ReportsOn(heas[k], op)
                               ==> last[heas[k]].operatorP95Ms[op] <= WorstAmong(n, op).value
    {
      if n > 0 {
        WorstAmongIsMaximum(n - 1, op);
      }
    }
  }

  /** The telemetry collector: a table that registrations and collections update in place. */
  class TelemetryCollector {
    var reports: Reports

    constructor ()
      ensures reports == Reports([], map[]) && reports.Valid()
    {
      reports := Reports([], map[]);
    }

    method RegisterHea(hea: string)
      requires reports.Valid()
      modifies this
      ensures reports.Valid()
      ensures hea in old(reports.last) ==> reports == old(reports)
      ensures hea !in old(reports.last) ==>
                && reports == Reports(old(reports.heas) + [hea], old(reports.last)[hea := UNREGISTERED])
                && !reports.last[hea].reachable && reports.last[hea].rttMs == 1000.0
    {
      if hea !in reports.last {
        reports := Reports(reports.heas + [hea], reports.last[hea := UNREGISTERED]);
      }
    }

    /** One agent's turn in a collection round. */
    method Collected(hea: string, telemetry: HeaTelemetry)
      requires reports.Valid() && hea in reports.last
      modifies this
      ensures reports.Valid()
      ensures reports == Reports(old(reports.heas), old(reports.last)[hea := telemetry])
    {
      reports := reports.(last := reports.last[hea := telemetry]);
    }

    /** The worst latency any reachable agent reports for the operator, if one does. */
    method GetOperatorLatency(op: string) returns (latency: Option<real>)
      requires reports.Valid()
      ensures latency == reports.OperatorLatency(op)
      ensures latency.None? <==> forall h :: h in reports.last ==> !reports.ReportsOn(h, op)
      ensures latency.Some? ==>
                && (exists h :: h in reports.last && reports.ReportsOn(h, op)
                                && reports.last[h].operatorP95Ms[op] == latency.value)
                && forall h :: h in reports.last && reports.ReportsOn(h, op)
                               ==> reports.last[h].operatorP95Ms[op] <= latency.value
    {
      latency := None;
      for k := 0 to |reports.heas|
        invariant latency == reports.WorstAmong(k, op)
      {
        var h := reports.heas[k];
        if reports.ReportsOn(h, op) {
          var ms := reports.last[h].operatorP95Ms[op];
          latency := if latency.None? then Some(ms) else Some(Max(latency.value, ms));
        }
      }
      reports.WorstAmongIsMaximum(|reports.heas|, op);
      forall h | h in reports.last
        ensures exists k :: 0 <= k < |reports.heas| && reports.heas[k] == h
      {
        assert h in reports.heas;
      }
    }
  }

  datatype Weights = Weights(lat: real, res: real, net: real, slo: real)

  datatype ScoringConfig = ScoringConfig(kappa: real, sloPenaltyFactor: real)

  const DEFAULT_SLO_MS := 3600000.0

  /** The cost of queueing at load `rho`, which grows without limit towards a full load. */
  function Queueing(kappa: real, rho: real): real
    requires rho < 1.0
  {
    kappa * rho / (1.0 - rho)
  }

  /** Everything a score depends on. */
  datatype Situation = Situation(reports: Reports, weights: Weights, config: ScoringConfig,
                                 sloMap: map<string, Option<real>>, lambdaMap: map<string, string>) {

    /** The observed latency; a missing or zero one counts as 1 ms. */
    function Latency(op: string): real {
      var l := reports.OperatorLatency(op);
      if l.Some? && l.value != 0.0 then l.value else 1.0
    }

    function LambdaFactor(op: string): real {
      var lambdaClass := if op in lambdaMap then lambdaMap[op] else "standard";
      if lambdaClass == "critical" then 3.0
      else if lambdaClass == "standard" then 1.0
      else if lambdaClass == "batch" then 0.1
      else 1.0
    }

    function SloMs(op: string): real {
      if op in sloMap && sloMap[op].Some? then sloMap[op].value else DEFAULT_SLO_MS
    }

    /** The violation ratio is never a division by zero. */
    predicate SloUsable(op: string) {
      SloMs(op) != 0.0 || Latency(op) <= 0.0
    }

    function PhiLat(op: string): real {
      LambdaFactor(op) * Latency(op)
    }

    function PhiRes(tier: string): real {
      var (cpu, mem) := reports.Utilization(tier);
      Queueing(config.kappa, Min(Max(cpu, mem), 0.99))
    }

    function PhiNet(tier: string): real {
      if tier == CLOUD then 0.0
      else if tier in reports.last && reports.last[tier].reachable then reports.last[tier].rttMs
      else 1000.0
    }

    function PhiSlo(op: string): real
      requires SloUsable(op)
    {
      if Latency(op) <= SloMs(op) then 0.0
      else config.sloPenaltyFactor * ((Latency(op) - SloMs(op)) / SloMs(op))
    }

    function ScoreOf(op: string, tier: string): real
      requires SloUsable(op)
    {
      weights.lat * PhiLat(op) + weights.res * PhiRes(tier) + weights.net * PhiNet(tier) + weights.slo * PhiSlo(op)
    }

    predicate AllUsable(ops: seq<string>) {
      forall op :: op in ops ==> SloUsable(op)
    }

    /** The score where it is defined. */
    function CellOf(op: string, tier: string): real {
      if SloUsable(op) then ScoreOf(op, tier) else 0.0
    }

    function ScoreRows(ops: seq<string>, tiers: seq<string>): (rows: seq<seq<real>>)
      requires AllUsable(ops)
      ensures |rows| == |ops|
      ensures forall i :: 0 <= i < |ops| ==> |rows[i]| == |tiers|
      ensures forall i, j :: 0 <= i < |ops| && 0 <= j < |tiers| ==> rows[i][j] == ScoreOf(ops[i], tiers[j])
    {
      seq(|ops|, i requires 0 <= i < |ops| =>
        seq(|tiers|, j requires 0 <= j < |tiers| => ScoreOf(ops[i], tiers[j])))
    }

    /** The allocation problem these scores pose. */
    function PlacementProblem(ops: seq<string>, tiers: seq<string>, capacities: map<string, int>): Problem
      requires AllUsable(ops)
    {
      Problem(ScoreRows(ops, tiers), ops, tiers, capacities)
    }

    /** Neither the latency nor the SLO term reads the tier, so tier preferences are shared. */
    lemma ScoresAreSeparable(ops: seq<string>, tiers: seq<string>, capacities: map<string, int>)
      requires AllUsable(ops)
      ensures Separable(PlacementProblem(ops, tiers, capacities))
    {
      var p := PlacementProblem(ops, tiers, capacities);
      forall i, o, j, k | 0 <= i < |ops| && 0 <= o < |ops| && 0 <= j < |tiers| && 0 <= k < |tiers|
        ensures SameAdvantage(p, i, o, j, k)
      {
        assert p.Score(i, j) == ScoreOf(ops[i], tiers[j]) && p.Score(i, k) == ScoreOf(ops[i], tiers[k]);
        assert p.Score(o, j) == ScoreOf(ops[o], tiers[j]) && p.Score(o, k) == ScoreOf(ops[o], tiers[k]);
      }
    }

    /**
      For every telemetry state, weighting and capacity table, no capacity-respecting placement
      scores better in total than the computed one.
     */
    lemma ComputedPlacementIsOptimal(ops: seq<string>, tiers: seq<string>, capacities: map<string, int>,
                                     other: map<string, string>)
      requires AllUsable(ops)
      requires Posed(PlacementProblem(ops, tiers, capacities))
      requires PlacementProblem(ops, tiers, capacities).Feasible(other)
      ensures PlacementProblem(ops, tiers, capacities).Feasible(PlacementProblem(ops, tiers, capacities).Greedy())
      ensures PlacementProblem(ops, tiers, capacities).TotalScore(PlacementProblem(ops, tiers, capacities).Greedy())
           <= PlacementProblem(ops, tiers, capacities).TotalScore(other)
    {
      ScoresAreSeparable(ops, tiers, capacities);
      GreedyIsOptimal(PlacementProblem(ops, tiers, capacities), other);
    }

    /** Latency, latency class and SLO never change which tier an operator prefers. */
    lemma OperatorsPreferAlike(ops: seq<string>, tiers: seq<string>, capacities: map<string, int>, i: nat, o: nat)
      requires AllUsable(ops)
      requires i < |ops| && o < |ops|
      ensures PlacementProblem(ops, tiers, capacities).TierOrder(i) ==
          PlacementProblem(ops, tiers, capacities).TierOrder(o)
    {
      var p := PlacementProblem(ops, tiers, capacities);
      ScoresAreSeparable(ops, tiers, capacities);
      var m := |tiers|;
      if m > 0 {
        forall j, k | 0 <= j < m && 0 <= k < m
          ensures p.Score(i, j) < p.Score(i, k) <==> p.Score(o, j) < p.Score(o, k)
        {
          assert SameAdvantage(p, i, o, j, k);
        }
        SortDependsOnOrder((j: nat) => p.Score(i, j), (j: nat) => p.Score(o, j), Range(m));
      }
    }
  }

  /** Keys that compare alike sort alike. */
  lemma {:induction false} SortDependsOnOrder(f: nat -> real, g: nat -> real, xs: seq<nat>)
    requires forall x, y :: x in xs && y in xs ==> (f(x) < f(y) <==> g(x) < g(y))
    ensures SortOn(f, xs) == SortOn(g, xs)
  {
    if xs != [] {
      SortDependsOnOrder(f, g, xs[1..]);
      var ys := SortOn(f, xs[1..]);
      forall y | y in ys
        ensures y in xs
      {
        SortOnMember(f, xs[1..], y);
      }
      InsertDependsOnOrder(f, g, xs[0], ys, xs);
    }
  }

  lemma {:induction false} InsertDependsOnOrder(f: nat -> real, g: nat -> real, x: nat, ys: seq<nat>, pool: seq<nat>)
    requires forall a, b :: a in pool && b in pool ==> (f(a) < f(b) <==> g(a) < g(b))
    requires x in pool && forall y :: y in ys ==> y in pool
    ensures Insert(f, x, ys) == Insert(g, x, ys)
  {
    if ys != [] {
      assert ys[0] in pool;
      InsertDependsOnOrder(f, g, x, ys[1..], pool);
    }
  }

  class ScoringAlgorithm {
    const config: ScoringConfig
    const telemetry: TelemetryCollector
    var weights: Weights

    constructor (config: ScoringConfig, telemetry: TelemetryCollector, weights: Weights)
      ensures this.config == config && this.telemetry == telemetry && this.weights == weights
    {
      this.config, this.telemetry, this.weights := config, telemetry, weights;
    }

    function CurrentSituation(sloMap: map<string, Option<real>>, lambdaMap: map<string, string>): Situation
      reads this, telemetry
    {
      Situation(telemetry.reports, weights, config, sloMap, lambdaMap)
    }

    /** Fills the score array cell by cell; an unusable SLO raises at its operator's first cell. */
    method ComputeScores(ops: seq<string>, tiers: seq<string>, sloMap: map<string, Option<real>>,
                         lambdaMap: map<string, string>)
      returns (r: Option<array2<real>>)
      ensures r.None? <==> tiers != [] && !CurrentSituation(sloMap, lambdaMap).AllUsable(ops)
      ensures r.Some? ==> fresh(r.value) && r.value.Length0 == |ops| && r.value.Length1 == |tiers|
      ensures r.Some? && CurrentSituation(sloMap, lambdaMap).AllUsable(ops) ==>
                Rows(r.value) == CurrentSituation(sloMap, lambdaMap).ScoreRows(ops, tiers)
    {
      var situation := CurrentSituation(sloMap, lambdaMap);
      var scores := new real[|ops|, |tiers|]((i, j) => 0.0);
      for i := 0 to |ops|
        invariant forall a :: 0 <= a < i && tiers != [] ==> situation.SloUsable(ops[a])
        invariant forall a, b :: 0 <= a < i && 0 <= b < |tiers| ==> scores[a, b] == situation.CellOf(ops[a], tiers[b])
      {
        for j := 0 to |tiers|
          invariant j > 0 ==> situation.SloUsable(ops[i])
          invariant forall a, b :: 0 <= a < i && 0 <= b < |tiers| ==> scores[a, b] == situation.CellOf(ops[a], tiers[b])
          invariant forall b :: 0 <= b < j ==> scores[i, b] == situation.CellOf(ops[i], tiers[b])
        {
          if !situation.SloUsable(ops[i]) {
            return None;
          }
          var score := ScoreCell(situation, ops[i], tiers[j]);
          scores[i, j] := score;
        }
      }
      if situation.AllUsable(ops) {
        SameRows(Rows(scores), situation.ScoreRows(ops, tiers), |tiers|);
      }
      return Some(scores);
    }
  }

  /** The body of the inner loop. */
  method ScoreCell(situation: Situation, op: string, tier: string) returns (score: real)
    requires situation.SloUsable(op)
    ensures score == situation.CellOf(op, tier)
  {
    var phiLat, phiRes := situation.PhiLat(op), situation.PhiRes(tier);
    var phiNet, phiSlo := situation.PhiNet(tier), situation.PhiSlo(op);
    score := situation.weights.lat * phiLat + situation.weights.res * phiRes
           + situation.weights.net * phiNet + situation.weights.slo * phiSlo;
  }

  lemma SameRows(a: seq<seq<real>>, b: seq<seq<real>>, m: nat)
    requires |a| == |b|
    requires forall i :: 0 <= i < |a| ==> |a[i]| == |b[i]| == m
    requires forall i, j :: 0 <= i < |a| && 0 <= j < m ==> a[i][j] == b[i][j]
    ensures a == b
  {
    forall i | 0 <= i < |a|
      ensures a[i] == b[i]
    {
    }
  }
}
