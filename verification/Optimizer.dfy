/** The placement table and the recalibration round that moves operators towards the computed placement. */
module Optimizer {
  import opened Wrappers
  import opened Sequences
  import opened Sorting
  import opened Placement
  import opened PlacementTheorems
  import opened Scoring

  /** Where every known operator currently runs; `operators` is the dictionary's key order. */
  class PlacementState {
    var operators: seq<string>
    var cache: map<string, string>

    ghost predicate Valid()
      reads this
    {
      Distinct(operators) && forall op :: op in operators <==> op in cache
    }

    constructor ()
      ensures Valid() && operators == [] && cache == map[]
    {
      operators, cache := [], map[];
    }

    method UpdateOperatorPlacement(op: string, tier: string)
      requires Valid()
      modifies this
      ensures Valid() && cache == old(cache)[op := tier]
      ensures operators == if op in old(cache) then old(operators) else old(operators) + [op]
    {
      if op !in cache {
        operators := operators + [op];
      }
      cache := cache[op := tier];
    }

    method RemoveOperator(op: string)
      requires Valid()
      modifies this
      ensures Valid() && cache == old(cache) - {op}
      ensures op !in old(cache) ==> operators == old(operators)
      ensures op in old(cache) ==> exists k :: 0 <= k < |old(operators)| && old(operators)[k] == op
                                               && operators == Without(old(operators), k)
    {
      if op in cache {
        var k := IndexOf(operators, op);
        operators := Without(operators, k);
        cache := cache - {op};
      }
      assert cache == old(cache) - {op};
    }

    /** The operators placed on a tier, in key order. */
    method GetOperatorsOnTier(tier: string) returns (ops: seq<string>)
      requires Valid()
      ensures Distinct(ops)
      ensures forall op :: op in ops <==> op in cache && cache[op] == tier
      ensures forall a, b :: 0 <= a < b < |ops| ==> Before(operators, ops[a], ops[b])
    {
      ops := [];
      for k := 0 to |operators|
        invariant Distinct(ops)
        invariant forall op :: op in ops <==> op in operators[..k] && cache[op] == tier
        invariant forall a, b :: 0 <= a < b < |ops| ==> Before(operators, ops[a], ops[b])
      {
        if cache[operators[k]] == tier {
          assert operators[k] !in operators[..k];
          forall a | 0 <= a < |ops|
            ensures Before(operators, ops[a], operators[k])
          {
            assert ops[a] in ops;
            StandsBefore(operators, k, ops[a]);
          }
          ops := ops + [operators[k]];
        }
        assert operators[..k + 1] == operators[..k] + [operators[k]];
      }
      assert operators[..|operators|] == operators;
    }
  }

  datatype Candidate = Candidate(op: string, source: string, target: string, gain: real)

  /** A recalibration setting: the allocation problem and the hysteresis threshold. */
  datatype Setting = Setting(p: Problem, deltaH: real) {

    function Target(i: nat): string {
      p.TierOf(p.Greedy(), i)
    }

    function Gain(current: map<string, string>, i: nat): real {
      p.Score(i, p.TierIndex(p.TierOf(current, i))) - p.Score(i, p.TierIndex(Target(i)))
    }

    /** Both tiers are known and differ, so the two scores can be compared. */
    predicate Comparable(current: map<string, string>, i: nat) {
      var source, target := p.TierOf(current, i), Target(i);
      source != "" && target != "" && source != target && source in p.tiers && target in p.tiers
    }

    predicate IsCandidate(current: map<string, string>, i: nat) {
      Comparable(current, i) && Gain(current, i) >= deltaH
    }

    function CandidateFor(current: map<string, string>, i: nat): Candidate {
      Candidate(p.OperatorName(i), p.TierOf(current, i), Target(i), Gain(current, i))
    }

    /** The candidate for moving operator `i` from one tier to the other, if the gain is worth it. */
    function Between(i: nat, source: string, target: string): Option<Candidate> {
      var gain := p.Score(i, p.TierIndex(source)) - p.Score(i, p.TierIndex(target));
      if source != "" && target != "" && source != target && source in p.tiers && target in p.tiers && gain >= deltaH
      then Some(Candidate(p.OperatorName(i), source, target, gain)) else None
    }

    lemma BetweenTiers(current: map<string, string>, i: nat)
      ensures Between(i, p.TierOf(current, i), Target(i))
           == if IsCandidate(current, i) then Some(CandidateFor(current, i)) else None
    {
    }

    /** The candidates among the first `n` operators, in operator order. */
    function CandidatesAmong(current: map<string, string>, n: nat): seq<Candidate> {
      if n == 0 then []
      else
        var rest := CandidatesAmong(current, n - 1);
        if IsCandidate(current, n - 1) then rest + [CandidateFor(current, n - 1)] else rest
    }

    /** Candidates by descending gain. */
    function Candidates(current: map<string, string>): seq<Candidate> {
      SortOn((c: Candidate) => -c.gain, CandidatesAmong(current, |p.operators|))
    }

    /** The migrations a round starts when those of `refused` operators are turned down. */
    function Started(current: map<string, string>, refused: set<string>): seq<Candidate> {
      Accepted(Candidates(current), refused)
    }

    /** The placement after a round. */
    function After(current: map<string, string>, refused: set<string>): map<string, string> {
      Recorded(current, Started(current, refused))
    }

    /** The operators migrated over a sequence of rounds, in order. */
    function MigratedOver(current: map<string, string>, rounds: seq<set<string>>): seq<string>
      decreases |rounds|
    {
      if rounds == [] then []
      else Operators(Started(current, rounds[0])) + MigratedOver(After(current, rounds[0]), rounds[1..])
    }
  }

  function Accepted(candidates: seq<Candidate>, refused: set<string>): seq<Candidate> {
    if candidates == [] then []
    else
      var rest := Accepted(candidates[..|candidates| - 1], refused);
      var c := candidates[|candidates| - 1];
      if c.op in refused then rest else rest + [c]
  }

  function Recorded(current: map<string, string>, started: seq<Candidate>): map<string, string> {
    if started == [] then current
    else
      var c := started[|started| - 1];
      Recorded(current, started[..|started| - 1])[c.op := c.target]
  }

  function Operators(started: seq<Candidate>): seq<string> {
    Map((c: Candidate) => c.op, started)
  }

  /** `ScoringFailed` is the division by an SLO of zero. */
  datatype RoundReport = NoOperators | ScoringFailed | Completed(evaluated: nat, started: seq<Candidate>)

  class PlacementOptimizer {
    const scoring: ScoringAlgorithm
    const placement: PlacementState
    const tiers: seq<string>
    const capacities: map<string, int>
    const sloMap: map<string, Option<real>>
    const lambdaMap: map<string, string>
    const deltaH: real

    constructor (scoring: ScoringAlgorithm, placement: PlacementState, tiers: seq<string>, capacities: map<string, int>,
                 sloMap: map<string, Option<real>>, lambdaMap: map<string, string>, deltaH: real)
      ensures this.scoring == scoring && this.placement == placement && this.tiers == tiers
      ensures this.capacities == capacities && this.sloMap == sloMap && this.lambdaMap == lambdaMap
          && this.deltaH == deltaH
    {
      this.scoring, this.placement, this.tiers, this.capacities := scoring, placement, tiers, capacities;
      this.sloMap, this.lambdaMap, this.deltaH := sloMap, lambdaMap, deltaH;
    }

    /** Tiers are the keys of the capacity table. */
    ghost predicate Ready()
      reads this, placement, scoring, scoring.telemetry
    {
      && placement.Valid()
      && Distinct(tiers) && forall t :: t in tiers ==> t in capacities
    }

    predicate Scorable()
      reads this, placement, scoring, scoring.telemetry
    {
      scoring.CurrentSituation(sloMap, lambdaMap).AllUsable(placement.operators)
    }

    function CurrentSetting(): Setting
      requires Ready() && Scorable()
      reads this, placement, scoring, scoring.telemetry
    {
      Setting(scoring.CurrentSituation(sloMap, lambdaMap).PlacementProblem(placement.operators, tiers, capacities),
              deltaH)
    }

    /** One recalibration round; a migration of a `refused` operator is turned down by the orchestrator. */
    method RunOptimization(refused: set<string>) returns (report: RoundReport)
      requires Ready()
      modifies placement
      ensures placement.Valid() && placement.operators == old(placement.operators)
      ensures report.NoOperators? <==> old(placement.operators) == [] || |tiers| < 2
      ensures report.ScoringFailed? <==> !report.NoOperators? && !old(Scorable())
      ensures !report.Completed? ==> placement.cache == old(placement.cache)
      ensures report.Completed? ==>
                && old(Scorable())
                && placement.cache == old(CurrentSetting()).After(old(placement.cache), refused)
                && report.evaluated == |old(CurrentSetting()).Candidates(old(placement.cache))|
                && report.started == old(CurrentSetting()).Started(old(placement.cache), refused)
                && ByGain(old(placement.operators), report.started)
    {
      var current := placement.cache;
      var operators := placement.operators;
      if operators == [] || |tiers| < 2 {
        return NoOperators;
      }
      var computed := scoring.ComputeScores(operators, tiers, sloMap, lambdaMap);
      if computed.None? {
        return ScoringFailed;
      }
      var scores := computed.value;
      ghost var setting := CurrentSetting();
      assert Problem(Rows(scores), operators, tiers, capacities) == setting.p;
      var found := FindOptimalPlacement(scores, operators, tiers, capacities);
      setting.p.WellFormedLacksNothing(|operators|);
      var optimal := found.value;
      var candidates := IdentifyMigrationCandidates(Setting(Problem(Rows(scores), operators, tiers, capacities),
                                                            deltaH),
                                                    current, optimal);
      forall c | c in candidates
        ensures c.op in operators
      {
        CandidatesAreOperators(setting, current, c);
      }
      var started := StartMigrations(candidates, refused);
      StartedByGain(setting, current, refused);
      return Completed(|candidates|, started);
    }

    /** Starts the candidates in turn; one that is turned down is passed over, one that starts is recorded. */
    method StartMigrations(candidates: seq<Candidate>, refused: set<string>) returns (started: seq<Candidate>)
      requires placement.Valid() && forall c :: c in candidates ==> c.op in placement.operators
      modifies placement
      ensures placement.Valid() && placement.operators == old(placement.operators)
      ensures started == Accepted(candidates, refused)
      ensures placement.cache == Recorded(old(placement.cache), started)
    {
      started := [];
      for k := 0 to |candidates|
        invariant placement.Valid() && placement.operators == old(placement.operators)
        invariant started == Accepted(candidates[..k], refused)
        invariant placement.cache == Recorded(old(placement.cache), started)
      {
        var c := candidates[k];
        assert candidates[..k + 1][..k] == candidates[..k];
        if c.op !in refused {
          started := started + [c];
          placement.UpdateOperatorPlacement(c.op, c.target);
        }
      }
      assert candidates[..|candidates|] == candidates;
    }

    /** The comparison loop: skips operators that cannot or need not move, keeps gains of at least `deltaH`. */
    method IdentifyMigrationCandidates(setting: Setting, current: map<string, string>, optimal: map<string, string>)
      returns (candidates: seq<Candidate>)
      requires setting.p.WellFormed() && optimal == setting.p.Greedy()
      ensures candidates == setting.Candidates(current)
      ensures Distinct(setting.p.operators) ==> ByGain(setting.p.operators, candidates)
    {
      candidates := [];
      for i := 0 to |setting.p.operators|
        invariant candidates == setting.CandidatesAmong(current, i)
      {
        var candidate := Compare(setting, current, optimal, i);
        if candidate.Some? {
          candidates := candidates + [candidate.value];
        }
      }
      candidates := SortOn((c: Candidate) => -c.gain, candidates);
      if Distinct(setting.p.operators) {
        CandidatesByGain(setting, current);
      }
    }

    method Compare(setting: Setting, current: map<string, string>, optimal: map<string, string>, i: nat)
      returns (candidate: Option<Candidate>)
      requires setting.p.WellFormed() && optimal == setting.p.Greedy() && i < |setting.p.operators|
      ensures candidate == if setting.IsCandidate(current, i) then Some(setting.CandidateFor(current, i)) else None
    {
      var op := setting.p.operators[i];
      var currentTier := if op in current then current[op] else "";
      var optimalTier := if op in optimal then optimal[op] else "";
      setting.BetweenTiers(current, i);
      assert currentTier == setting.p.TierOf(current, i) && optimalTier == setting.Target(i);
      candidate := CompareTiers(setting, i, currentTier, optimalTier);
    }

    method CompareTiers(setting: Setting, i: nat, currentTier: string, optimalTier: string)
      returns (candidate: Option<Candidate>)
      requires setting.p.WellFormed() && i < |setting.p.operators|
      ensures candidate == setting.Between(i, currentTier, optimalTier)
    {
      var p := setting.p;
      if currentTier == "" || optimalTier == "" || currentTier == optimalTier {
        return None;
      }
      if currentTier !in p.tiers || optimalTier !in p.tiers {
        return None;
      }
      var currentScore := p.scores[i][IndexOf(p.tiers, currentTier)];
      var optimalScore := p.scores[i][IndexOf(p.tiers, optimalTier)];
      assert currentScore == p.Score(i, p.TierIndex(currentTier));
      assert optimalScore == p.Score(i, p.TierIndex(optimalTier));
      if currentScore - optimalScore >= setting.deltaH {
        return Some(Candidate(p.operators[i], currentTier, optimalTier, currentScore - optimalScore));
      }
      return None;
    }
  }

  // ---- The order of a round --------------------------------------------------------------

  /** `x` stands before `y` in the table. */
  ghost predicate Before(ops: seq<string>, x: string, y: string) {
    exists i, j :: 0 <= i < j < |ops| && ops[i] == x && ops[j] == y
  }

  lemma StandsBefore(ops: seq<string>, k: nat, x: string)
    requires k < |ops| && x in ops[..k]
    ensures Before(ops, x, ops[k])
  {
    var i := PositionOf(ops[..k], x);
    assert ops[i] == x;
  }

  /** `a` promises more than `b`, or as much and its operator comes earlier in the table. */
  ghost predicate Sooner(ops: seq<string>, a: Candidate, b: Candidate) {
    a.gain > b.gain || (a.gain == b.gain && Before(ops, a.op, b.op))
  }

  ghost predicate ByGain(ops: seq<string>, candidates: seq<Candidate>) {
    forall a, b :: 0 <= a < b < |candidates| ==> Sooner(ops, candidates[a], candidates[b])
  }

  /** The candidate's place in the table. */
  function Rank(ops: seq<string>, c: Candidate): int {
    if c.op in ops then IndexOf(ops, c.op) else -1
  }

  lemma RankAt(ops: seq<string>, i: nat, c: Candidate)
    requires Distinct(ops) && i < |ops| && c.op == ops[i]
    ensures Rank(ops, c) == i
  {
    assert IndexOf(ops, c.op) <= i;
  }

  predicate InTableOrder(ops: seq<string>, cs: seq<Candidate>) {
    forall a, b :: 0 <= a < b < |cs| ==> Rank(ops, cs[a]) < Rank(ops, cs[b])
  }

  lemma {:induction false} AmongInTableOrder(s: Setting, current: map<string, string>, n: nat)
    requires Distinct(s.p.operators) && n <= |s.p.operators|
    ensures forall c :: c in s.CandidatesAmong(current, n) ==> 0 <= Rank(s.p.operators, c) < n
    ensures InTableOrder(s.p.operators, s.CandidatesAmong(current, n))
  {
    if n > 0 {
      AmongInTableOrder(s, current, n - 1);
      RankAt(s.p.operators, n - 1, s.CandidateFor(current, n - 1));
      var rest := s.CandidatesAmong(current, n - 1);
      forall a | 0 <= a < |rest|
        ensures Rank(s.p.operators, rest[a]) < n - 1
      {
        assert rest[a] in rest;
      }
    }
  }

  lemma SoonerByRank(ops: seq<string>, a: Candidate, b: Candidate)
    requires a.op in ops && b.op in ops
    requires -a.gain < -b.gain || (-a.gain == -b.gain && Rank(ops, a) < Rank(ops, b))
    ensures Sooner(ops, a, b)
  {
  }

  /** Candidates come by descending gain; equal gains in the order of the table. */
  lemma CandidatesByGain(s: Setting, current: map<string, string>)
    requires Distinct(s.p.operators)
    ensures ByGain(s.p.operators, s.Candidates(current))
  {
    var ops, cs := s.p.operators, s.Candidates(current);
    AmongInTableOrder(s, current, |ops|);
    SortOnStable((c: Candidate) => -c.gain, (c: Candidate) => Rank(ops, c), s.CandidatesAmong(current, |ops|));
    forall a, b | 0 <= a < b < |cs|
      ensures Sooner(ops, cs[a], cs[b])
    {
      CandidatesAreOperators(s, current, cs[a]);
      CandidatesAreOperators(s, current, cs[b]);
      SoonerByRank(ops, cs[a], cs[b]);
    }
  }

  /** Refusals leave gaps and change no order. */
  lemma {:induction false} AcceptedByGain(ops: seq<string>, candidates: seq<Candidate>, refused: set<string>)
    requires ByGain(ops, candidates)
    ensures ByGain(ops, Accepted(candidates, refused))
  {
    if candidates != [] {
      var init, last := candidates[..|candidates| - 1], candidates[|candidates| - 1];
      AcceptedByGain(ops, init, refused);
      var rest := Accepted(init, refused);
      forall a | 0 <= a < |rest|
        ensures Sooner(ops, rest[a], last)
      {
        assert rest[a] in rest;
        AcceptedMember(init, refused, rest[a]);
        var k := PositionOf(init, rest[a]);
        assert candidates[k] == rest[a];
      }
    }
  }

  lemma StartedByGain(s: Setting, current: map<string, string>, refused: set<string>)
    requires Distinct(s.p.operators)
    ensures ByGain(s.p.operators, s.Started(current, refused))
  {
    CandidatesByGain(s, current);
    AcceptedByGain(s.p.operators, s.Candidates(current), refused);
  }

  /**
    What a candidate is worth: moving operator `i` from tier `j`, where it runs, to tier `k`,
    where the allocator puts it, is a candidate with the difference of the two scores exactly if
    that difference reaches the threshold.
   */
  lemma CandidateIff(s: Setting, current: map<string, string>, i: nat, j: nat, k: nat)
    requires Posed(s.p) && "" !in s.p.tiers && i < |s.p.operators| && j < |s.p.tiers| && k < |s.p.tiers| && j != k
    requires s.p.operators[i] in current && current[s.p.operators[i]] == s.p.tiers[j]
    requires s.p.operators[i] in s.p.Greedy() && s.p.Greedy()[s.p.operators[i]] == s.p.tiers[k]
    ensures var gain := s.p.scores[i][j] - s.p.scores[i][k];
            Candidate(s.p.operators[i], s.p.tiers[j], s.p.tiers[k], gain) in s.Candidates(current) <==> gain >= s.deltaH
  {
    var c := Candidate(s.p.operators[i], s.p.tiers[j], s.p.tiers[k], s.p.scores[i][j] - s.p.scores[i][k]);
    TierIndexOfName(s.p, j);
    TierIndexOfName(s.p, k);
    assert c == s.CandidateFor(current, i);
    CandidatesExactly(s, current, c);
    if c in s.Candidates(current) {
      var o :| 0 <= o < |s.p.operators| && s.IsCandidate(current, o) && c == s.CandidateFor(current, o);
      assert o == i;
    }
  }

  // ---- What a round does ---------------------------------------------------------------

  /** The candidates of a round are exactly the operators that pass the comparison. */
  lemma CandidatesExactly(s: Setting, current: map<string, string>, c: Candidate)
    ensures c in s.Candidates(current) <==>
              exists i :: 0 <= i < |s.p.operators| && s.IsCandidate(current, i) && c == s.CandidateFor(current, i)
  {
    SortOnMember((x: Candidate) => -x.gain, s.CandidatesAmong(current, |s.p.operators|), c);
    CandidatesAmongExactly(s, current, |s.p.operators|, c);
  }

  lemma {:induction false} CandidatesAmongExactly(s: Setting, current: map<string, string>, n: nat, c: Candidate)
    ensures c in s.CandidatesAmong(current, n) <==>
              exists i :: 0 <= i < n && s.IsCandidate(current, i) && c == s.CandidateFor(current, i)
  {
    if n > 0 {
      CandidatesAmongExactly(s, current, n - 1, c);
      if c in s.CandidatesAmong(current, n) && c !in s.CandidatesAmong(current, n - 1) {
        assert s.IsCandidate(current, n - 1) && c == s.CandidateFor(current, n - 1);
      }
    }
  }

  lemma CandidatesAreOperators(s: Setting, current: map<string, string>, c: Candidate)
    requires c in s.Candidates(current)
    ensures c.op in s.p.operators && c.source != c.target
  {
    CandidatesExactly(s, current, c);
  }

  lemma {:induction false} AcceptedMember(candidates: seq<Candidate>, refused: set<string>, c: Candidate)
    ensures c in Accepted(candidates, refused) <==> c in candidates && c.op !in refused
  {
    if candidates != [] {
      AcceptedMember(candidates[..|candidates| - 1], refused, c);
      assert candidates == candidates[..|candidates| - 1] + [candidates[|candidates| - 1]];
    }
  }

  /** Whether a round starts a migration of operator `i`. */
  predicate Moves(s: Setting, current: map<string, string>, refused: set<string>, i: nat) {
    s.IsCandidate(current, i) && s.p.OperatorName(i) !in refused
  }

  function Moving(s: Setting, current: map<string, string>, refused: set<string>): nat -> bool {
    (i: nat) => Moves(s, current, refused, i)
  }

  lemma StartedExactly(s: Setting, current: map<string, string>, refused: set<string>, c: Candidate)
    ensures c in s.Started(current, refused) <==>
              exists i :: 0 <= i < |s.p.operators| && Moves(s, current, refused, i) && c == s.CandidateFor(current, i)
  {
    AcceptedMember(s.Candidates(current), refused, c);
    CandidatesExactly(s, current, c);
  }

  lemma {:induction false} RecordedAt(current: map<string, string>, started: seq<Candidate>, op: string)
    requires forall c, d :: c in started && d in started && c.op == d.op ==> c == d
    ensures (forall c :: c in started ==> c.op != op) ==>
              (op in Recorded(current, started) <==> op in current)
              && (op in current ==> Recorded(current, started)[op] == current[op])
    ensures forall c :: c in started && c.op == op ==>
        op in Recorded(current, started) && Recorded(current, started)[op] == c.target
  {
    if started != [] {
      var init, last := started[..|started| - 1], started[|started| - 1];
      assert started == init + [last];
      RecordedAt(current, init, op);
    }
  }

  /** A started candidate is the one of the operator it names. */
  lemma StartedNames(s: Setting, current: map<string, string>, refused: set<string>, c: Candidate) returns (i: nat)
    requires c in s.Started(current, refused)
    ensures i < |s.p.operators| && s.p.operators[i] == c.op
    ensures Moves(s, current, refused, i) && c == s.CandidateFor(current, i)
  {
    StartedExactly(s, current, refused, c);
    i :| 0 <= i < |s.p.operators| && Moves(s, current, refused, i) && c == s.CandidateFor(current, i);
  }

  lemma StartedOncePerOperator(s: Setting, current: map<string, string>, refused: set<string>, c: Candidate,
                               d: Candidate)
    requires Distinct(s.p.operators)
    requires c in s.Started(current, refused) && d in s.Started(current, refused) && c.op == d.op
    ensures c == d
  {
    var i := StartedNames(s, current, refused, c);
    var j := StartedNames(s, current, refused, d);
  }

  /** The candidate of operator `i` is started exactly if the operator moves, and no other names it. */
  lemma StartedFor(s: Setting, current: map<string, string>, refused: set<string>, i: nat)
    requires Distinct(s.p.operators) && i < |s.p.operators|
    ensures Moves(s, current, refused, i) ==> s.CandidateFor(current, i) in s.Started(current, refused)
    ensures !Moves(s, current, refused, i) ==> forall c :: c in s.Started(current, refused) ==> c.op != s.p.operators[i]
  {
    StartedExactly(s, current, refused, s.CandidateFor(current, i));
    forall c | c in s.Started(current, refused) && c.op == s.p.operators[i]
      ensures Moves(s, current, refused, i)
    {
      var j := StartedNames(s, current, refused, c);
    }
  }

  /** After a round an operator is on its computed tier if it was moved and where it was otherwise. */
  lemma RoundEffect(s: Setting, current: map<string, string>, refused: set<string>, i: nat)
    requires Posed(s.p) && i < |s.p.operators|
    ensures s.p.TierOf(s.After(current, refused), i)
         == if Moves(s, current, refused, i) then s.Target(i) else s.p.TierOf(current, i)
  {
    var started := s.Started(current, refused);
    forall c, d | c in started && d in started && c.op == d.op
      ensures c == d
    {
      StartedOncePerOperator(s, current, refused, c, d);
    }
    RecordedAt(current, started, s.p.operators[i]);
    StartedFor(s, current, refused, i);
  }

  // ---- Convergence -----------------------------------------------------------------------

  /** Every operator of the log already sits on its computed tier. */
  ghost predicate Settled(s: Setting, current: map<string, string>, op: string) {
    forall i :: 0 <= i < |s.p.operators| && s.p.operators[i] == op ==> s.p.TierOf(current, i) == s.Target(i)
  }

  lemma SettledStays(s: Setting, current: map<string, string>, refused: set<string>, op: string)
    requires Posed(s.p) && Settled(s, current, op)
    ensures Settled(s, s.After(current, refused), op)
  {
    forall i | 0 <= i < |s.p.operators| && s.p.operators[i] == op
      ensures s.p.TierOf(s.After(current, refused), i) == s.Target(i)
    {
      RoundEffect(s, current, refused, i);
    }
  }

  lemma MovedIsSettled(s: Setting, current: map<string, string>, refused: set<string>, c: Candidate)
    requires Posed(s.p) && c in s.Started(current, refused)
    ensures c.op in s.p.operators && !Settled(s, current, c.op) && Settled(s, s.After(current, refused), c.op)
  {
    StartedExactly(s, current, refused, c);
    var i :| 0 <= i < |s.p.operators| && Moves(s, current, refused, i) && c == s.CandidateFor(current, i);
    assert s.p.TierOf(current, i) != s.Target(i);
    RoundEffect(s, current, refused, i);
  }

  lemma {:induction false} MigratedWereUnsettled(s: Setting, current: map<string, string>, rounds: seq<set<string>>,
                                                 op: string)
    requires Posed(s.p) && op in s.MigratedOver(current, rounds)
    ensures !Settled(s, current, op)
    decreases |rounds|
  {
    var started := s.Started(current, rounds[0]);
    if op in Operators(started) {
      var k :| 0 <= k < |started| && Operators(started)[k] == op;
      assert started[k] in started;
      MovedIsSettled(s, current, rounds[0], started[k]);
    } else {
      MigratedWereUnsettled(s, s.After(current, rounds[0]), rounds[1..], op);
      if Settled(s, current, op) {
        SettledStays(s, current, rounds[0], op);
      }
    }
  }

  lemma {:induction false} CandidatesAmongCount(s: Setting, current: map<string, string>, refused: set<string>, n: nat)
    ensures Count((c: Candidate) => c.op !in refused, s.CandidatesAmong(current, n))
         == Count<nat>(Moving(s, current, refused), Range(n))
  {
    if n > 0 {
      CandidatesAmongCount(s, current, refused, n - 1);
      RangeSnoc(n - 1);
      CountSnoc<nat>(Moving(s, current, refused), Range(n - 1), n - 1);
      CountSnoc((c: Candidate) => c.op !in refused, s.CandidatesAmong(current, n - 1), s.CandidateFor(current, n - 1));
    }
  }

  lemma {:induction false} AcceptedCount(candidates: seq<Candidate>, refused: set<string>)
    ensures |Accepted(candidates, refused)| == Count((c: Candidate) => c.op !in refused, candidates)
  {
    if candidates != [] {
      AcceptedCount(candidates[..|candidates| - 1], refused);
    }
  }

  /** One started migration for every operator that moves. */
  lemma StartedCount(s: Setting, current: map<string, string>, refused: set<string>)
    ensures |s.Started(current, refused)| == Count<nat>(Moving(s, current, refused), Range(|s.p.operators|))
  {
    var raw := s.CandidatesAmong(current, |s.p.operators|);
    SortOnPermutes((c: Candidate) => -c.gain, raw);
    CountPermutes((c: Candidate) => c.op !in refused, s.Candidates(current), raw);
    AcceptedCount(s.Candidates(current), refused);
    CandidatesAmongCount(s, current, refused, |s.p.operators|);
  }

  lemma {:induction false} DistinctCandidatesAmong(s: Setting, current: map<string, string>, n: nat)
    requires Distinct(s.p.operators) && n <= |s.p.operators|
    ensures forall a, b :: 0 <= a < b < |s.CandidatesAmong(current, n)| ==>
              s.CandidatesAmong(current, n)[a].op != s.CandidatesAmong(current, n)[b].op
  {
    if n > 0 {
      DistinctCandidatesAmong(s, current, n - 1);
      var rest := s.CandidatesAmong(current, n - 1);
      forall a | 0 <= a < |rest|
        ensures rest[a].op != s.p.OperatorName(n - 1)
      {
        assert rest[a] in rest;
        CandidatesAmongExactly(s, current, n - 1, rest[a]);
      }
    }
  }

  lemma DistinctFromMultiset(xs: seq<string>, ys: seq<string>)
    requires multiset(xs) == multiset(ys) && Distinct(xs)
    ensures Distinct(ys)
  {
    PermutationLength(xs, ys);
    forall x
      ensures x in Elements(xs) <==> x in Elements(ys)
    {
      assert x in multiset(xs) <==> x in multiset(ys);
    }
    assert Elements(xs) == Elements(ys);
    DistinctCardinality(xs);
    DistinctCardinality(ys);
  }

  lemma {:induction false} AcceptedDistinct(candidates: seq<Candidate>, refused: set<string>)
    requires Distinct(Operators(candidates))
    ensures Distinct(Operators(Accepted(candidates, refused)))
  {
    if candidates != [] {
      var init, last := candidates[..|candidates| - 1], candidates[|candidates| - 1];
      assert Operators(init) == Operators(candidates)[..|candidates| - 1];
      AcceptedDistinct(init, refused);
      var rest := Accepted(init, refused);
      forall a | 0 <= a < |rest|
        ensures rest[a].op != last.op
      {
        assert rest[a] in rest;
        AcceptedMember(init, refused, rest[a]);
        var k := PositionOf(init, rest[a]);
        assert Operators(candidates)[k] != Operators(candidates)[|candidates| - 1];
      }
    }
  }

  /** A round has at most one candidate for each operator. */
  lemma CandidatesDistinct(s: Setting, current: map<string, string>)
    requires Distinct(s.p.operators)
    ensures Distinct(Operators(s.Candidates(current)))
  {
    var raw := s.CandidatesAmong(current, |s.p.operators|);
    DistinctCandidatesAmong(s, current, |s.p.operators|);
    SortOnPermutes((c: Candidate) => -c.gain, raw);
    MapPermutes((c: Candidate) => c.op, raw, s.Candidates(current));
    DistinctFromMultiset(Operators(raw), Operators(s.Candidates(current)));
  }

  lemma StartedDistinct(s: Setting, current: map<string, string>, refused: set<string>)
    requires Distinct(s.p.operators)
    ensures Distinct(Operators(s.Started(current, refused)))
  {
    CandidatesDistinct(s, current);
    AcceptedDistinct(s.Candidates(current), refused);
  }

  /** Over any number of rounds with any refusals, no operator is migrated twice. */
  lemma {:induction false} MigratesAtMostOnce(s: Setting, current: map<string, string>, rounds: seq<set<string>>)
    requires Posed(s.p)
    ensures Distinct(s.MigratedOver(current, rounds))
    decreases |rounds|
  {
    if rounds != [] {
      var first := Operators(s.Started(current, rounds[0]));
      var next := s.After(current, rounds[0]);
      var later := s.MigratedOver(next, rounds[1..]);
      StartedDistinct(s, current, rounds[0]);
      MigratesAtMostOnce(s, next, rounds[1..]);
      forall a, b | 0 <= a < |first| && 0 <= b < |later|
        ensures first[a] != later[b]
      {
        var c := s.Started(current, rounds[0])[a];
        assert c in s.Started(current, rounds[0]);
        MovedIsSettled(s, current, rounds[0], c);
        assert later[b] in later;
        MigratedWereUnsettled(s, next, rounds[1..], later[b]);
      }
    }
  }

  /** No candidate is refused. */
  ghost predicate Uncontested(s: Setting, current: map<string, string>, refused: set<string>) {
    forall c :: c in s.Candidates(current) ==> c.op !in refused
  }

  /** A round in which nothing was refused leaves the next one without candidates. */
  lemma QuietAfterUncontestedRound(s: Setting, current: map<string, string>, refused: set<string>)
    requires Posed(s.p) && Uncontested(s, current, refused)
    ensures s.Candidates(s.After(current, refused)) == []
  {
    var next := s.After(current, refused);
    forall i | 0 <= i < |s.p.operators|
      ensures !s.IsCandidate(next, i)
    {
      RoundEffect(s, current, refused, i);
      CandidatesExactly(s, current, s.CandidateFor(current, i));
    }
    if s.Candidates(next) != [] {
      CandidatesExactly(s, next, s.Candidates(next)[0]);
    }
  }

  // ---- Cost and load -----------------------------------------------------------------------

  function Indicator(q: nat -> bool, v: real): nat -> real {
    (i: nat) => if q(i) then v else 0.0
  }

  /** `v` added up `k` times. */
  function Repeated(v: real, k: nat): real {
    if k == 0 then 0.0 else Repeated(v, k - 1) + v
  }

  lemma {:induction false} RepeatedIsProduct(v: real, k: nat)
    ensures Repeated(v, k) == k as real * v
  {
    if k > 0 {
      RepeatedIsProduct(v, k - 1);
    }
  }

  lemma {:induction false} SumIndicator(q: nat -> bool, v: real, xs: seq<nat>)
    ensures Sum(Map<nat, real>(Indicator(q, v), xs)) == Repeated(v, Count<nat>(q, xs))
  {
    if xs != [] {
      var f := Indicator(q, v);
      var init, x := xs[..|xs| - 1], xs[|xs| - 1];
      assert xs == init + [x];
      SumIndicator(q, v, init);
      MapSnoc(f, init, x);
      SumSnoc(Map(f, init), f(x));
      assert Count(q, xs) == Count(q, init) + if q(x) then 1 else 0;
    }
  }

  lemma MoveSaves(s: Setting, current: map<string, string>, refused: set<string>, i: nat)
    requires Posed(s.p) && i < |s.p.operators|
    ensures s.p.CostAt(s.After(current, refused), i) + (if Moves(s, current, refused, i) then s.deltaH else 0.0)
         <= s.p.CostAt(current, i)
  {
    RoundEffect(s, current, refused, i);
  }

  /** Every migration a round starts lowers the total score by at least the threshold. */
  lemma RoundLowersCost(s: Setting, current: map<string, string>, refused: set<string>)
    requires Posed(s.p)
    ensures s.p.TotalScore(s.After(current, refused)) + |s.Started(current, refused)| as real * s.deltaH
         <= s.p.TotalScore(current)
  {
    RoundSaves(s, current, refused, s.After(current, refused), s.deltaH, |s.Started(current, refused)|);
  }

  lemma RoundSaves(s: Setting, current: map<string, string>, refused: set<string>, next: map<string, string>,
                   v: real, count: nat)
    requires Posed(s.p) && next == s.After(current, refused) && v == s.deltaH && count == |s.Started(current, refused)|
    ensures s.p.TotalScore(next) + count as real * v <= s.p.TotalScore(current)
  {
    AllMovesSave(s, current, refused);
    StartedCount(s, current, refused);
    SavedInTotal(s.p, next, current, Moving(s, current, refused), v, count);
  }

  lemma SavedInTotal(p: Problem, a: map<string, string>, b: map<string, string>, q: nat -> bool, v: real, count: nat)
    requires Count<nat>(q, Range(|p.operators|)) == count && Saves(p, a, b, q, v)
    ensures p.TotalScore(a) + count as real * v <= p.TotalScore(b)
  {
    SavedWhere(p, a, b, q, v, count);
    RepeatedIsProduct(v, count);
  }

  lemma AllMovesSave(s: Setting, current: map<string, string>, refused: set<string>)
    requires Posed(s.p)
    ensures Saves(s.p, s.After(current, refused), current, Moving(s, current, refused), s.deltaH)
  {
    forall i | 0 <= i < |s.p.operators|
      ensures SavesAt(s.p, s.After(current, refused), current, Moving(s, current, refused), s.deltaH, i)
    {
      MoveSaves(s, current, refused, i);
    }
  }

  /** Operator `i` costs at least `v` less under `a` than under `b` if `q` holds of it, and never more. */
  ghost predicate SavesAt(p: Problem, a: map<string, string>, b: map<string, string>, q: nat -> bool, v: real, i: nat) {
    p.CostAt(a, i) + (if q(i) then v else 0.0) <= p.CostAt(b, i)
  }

  ghost predicate Saves(p: Problem, a: map<string, string>, b: map<string, string>, q: nat -> bool, v: real) {
    forall i {:trigger SavesAt(p, a, b, q, v, i)} :: 0 <= i < |p.operators| ==> SavesAt(p, a, b, q, v, i)
  }

  /** If `a` costs `v` less than `b` for each of `count` operators and no more for the others, so do the totals. */
  lemma SavedWhere(p: Problem, a: map<string, string>, b: map<string, string>, q: nat -> bool, v: real, count: nat)
    requires Count<nat>(q, Range(|p.operators|)) == count
    requires Saves(p, a, b, q, v)
    ensures p.TotalScore(a) + Repeated(v, count) <= p.TotalScore(b)
  {
    forall i | 0 <= i < |p.operators|
      ensures p.CostAt(a, i) + Indicator(q, v)(i) <= p.CostAt(b, i)
    {
      assert SavesAt(p, a, b, q, v, i);
    }
    TotalsCompared(p, a, b, Indicator(q, v));
    SumIndicator(q, v, Range(|p.operators|));
  }

  /** Operator `i` stays on `t` although the computed placement puts it elsewhere. */
  predicate HeldBack(s: Setting, next: map<string, string>, t: string, i: nat) {
    s.p.TierOf(next, i) == t && s.Target(i) != t
  }

  lemma {:induction false} CountOr(p: nat -> bool, q: nat -> bool, r: nat -> bool, xs: seq<nat>)
    requires forall x :: p(x) ==> q(x) || r(x)
    ensures Count(p, xs) <= Count(q, xs) + Count(r, xs)
  {
    if xs != [] {
      CountOr(p, q, r, xs[..|xs| - 1]);
    }
  }

  /** After a round a tier exceeds its capacity by at most the operators held back on it. */
  lemma RoundLoadBound(s: Setting, current: map<string, string>, refused: set<string>, t: string)
    requires Posed(s.p) && s.p.TotalCapacity() >= |s.p.operators| as real && t in s.p.tiers
    ensures s.p.Load(s.After(current, refused), t)
         <= s.p.Cap(t) + Count<nat>((i: nat) => HeldBack(s, s.After(current, refused), t, i), Range(|s.p.operators|))
  {
    var next := s.After(current, refused);
    GreedyIsFeasible(s.p);
    CountOr((i: nat) => s.p.TierOf(next, i) == t, (i: nat) => s.p.TierOf(s.p.Greedy(), i) == t,
            (i: nat) => HeldBack(s, next, t, i), Range(|s.p.operators|));
  }

  /** An operator is held back for one of two reasons: too small a gain, or a refused migration. */
  lemma HeldBackReason(s: Setting, current: map<string, string>, refused: set<string>, t: string, i: nat)
    requires Posed(s.p) && s.p.TotalCapacity() >= |s.p.operators| as real && t in s.p.tiers && "" !in s.p.tiers
    requires i < |s.p.operators| && HeldBack(s, s.After(current, refused), t, i)
    ensures s.p.TierOf(current, i) == t
    ensures s.Gain(current, i) < s.deltaH || s.p.OperatorName(i) in refused
  {
    GreedyIsFeasible(s.p);
    FeasibleIsListed(s.p, s.p.Greedy());
    RoundEffect(s, current, refused, i);
    assert s.Target(i) in s.p.tiers;
  }

  /** In total, placement `a` costs at most `v` for each operator more than placement `b`. */
  predicate NearlyAsGood(p: Problem, a: map<string, string>, b: map<string, string>, v: real) {
    p.TotalScore(a) <= p.TotalScore(b) + Repeated(v, |p.operators|)
  }

  /**
    After one uncontested round from any known placement, the total score is within
    `deltaH` per operator of the best capacity-respecting placement.
   */
  lemma OneRoundIsNearOptimal(s: Setting, current: map<string, string>, refused: set<string>,
                              other: map<string, string>)
    requires Posed(s.p) && Separable(s.p) && s.p.Feasible(other) && "" !in s.p.tiers && s.deltaH >= 0.0
    requires Listed(s.p, current) && Uncontested(s, current, refused)
    ensures NearlyAsGood(s.p, s.After(current, refused), other, s.deltaH)
  {
    GreedyIsBest(s.p, other);
    NearComputed(s, current, refused, s.After(current, refused), s.p.Greedy());
    NearlyAsGoodAsWorse(s.p, s.After(current, refused), s.p.Greedy(), other, s.deltaH);
  }

  lemma GreedyIsBest(p: Problem, other: map<string, string>)
    requires Posed(p) && Separable(p) && p.Feasible(other)
    ensures Listed(p, p.Greedy()) && p.TotalScore(p.Greedy()) <= p.TotalScore(other)
  {
    GreedyIsOptimal(p, other);
    FeasibleIsListed(p, p.Greedy());
  }

  lemma NearlyAsGoodAsWorse(p: Problem, a: map<string, string>, b: map<string, string>, c: map<string, string>, v: real)
    requires NearlyAsGood(p, a, b, v) && p.TotalScore(b) <= p.TotalScore(c)
    ensures NearlyAsGood(p, a, c, v)
  {
  }

  lemma NearComputed(s: Setting, current: map<string, string>, refused: set<string>,
                     next: map<string, string>, best: map<string, string>)
    requires Posed(s.p) && "" !in s.p.tiers && s.deltaH >= 0.0
    requires Listed(s.p, current) && Listed(s.p, best)
    requires next == s.After(current, refused) && best == s.p.Greedy()
    requires Uncontested(s, current, refused)
    ensures NearlyAsGood(s.p, next, best, s.deltaH)
  {
    AllWithinThreshold(s, current, refused, next, best, s.deltaH);
    WithinForAll(s.p, next, best, s.deltaH, |s.p.operators|);
  }

  /** If everyone costs at most `v` more under `a` than under `b`, the totals differ by at most that many times `v`. */
  lemma WithinForAll(p: Problem, a: map<string, string>, b: map<string, string>, v: real, n: nat)
    requires n == |p.operators| && Saves(p, a, b, Everyone(), -v)
    ensures p.TotalScore(a) <= p.TotalScore(b) + Repeated(v, n)
  {
    CountAtMost<nat>(Everyone(), Range(n));
    SavedWhere(p, a, b, Everyone(), -v, n);
    RepeatedNegated(v, n);
  }

  lemma {:induction false} RepeatedNegated(v: real, k: nat)
    ensures Repeated(-v, k) == -Repeated(v, k)
  {
    if k > 0 {
      RepeatedNegated(v, k - 1);
    }
  }

  function Everyone(): nat -> bool {
    (i: nat) => true
  }

  /** Under `a` operator `i` costs at most `v` more than under `b`. */
  predicate WithinAt(p: Problem, a: map<string, string>, b: map<string, string>, v: real, i: nat) {
    p.CostAt(a, i) <= p.CostAt(b, i) + v
  }

  ghost predicate AllWithin(p: Problem, a: map<string, string>, b: map<string, string>, v: real, n: nat) {
    forall i {:trigger WithinAt(p, a, b, v, i)} :: 0 <= i < n ==> WithinAt(p, a, b, v, i)
  }

  lemma SavesWithin(p: Problem, a: map<string, string>, b: map<string, string>, v: real, w: real)
    requires w == -v && AllWithin(p, a, b, v, |p.operators|)
    ensures Saves(p, a, b, Everyone(), w)
  {
    forall i | 0 <= i < |p.operators|
      ensures SavesAt(p, a, b, Everyone(), w, i)
    {
      assert WithinAt(p, a, b, v, i);
    }
  }

  /** What the round from `current` leads to, and what it is compared with. */
  ghost predicate NearRound(s: Setting, current: map<string, string>, refused: set<string>,
                            next: map<string, string>, best: map<string, string>, v: real) {
    && Posed(s.p) && "" !in s.p.tiers && s.deltaH >= 0.0
    && Listed(s.p, current) && Listed(s.p, best)
    && next == s.After(current, refused) && best == s.p.Greedy() && v == s.deltaH
    && Uncontested(s, current, refused)
  }

  lemma AllWithinThreshold(s: Setting, current: map<string, string>, refused: set<string>,
                           next: map<string, string>, best: map<string, string>, v: real)
    requires NearRound(s, current, refused, next, best, v)
    ensures Saves(s.p, next, best, Everyone(), -v)
  {
    WithinEverywhere(s, current, refused, next, best, v);
    SavesWithin(s.p, next, best, v, -v);
  }

  lemma WithinEverywhere(s: Setting, current: map<string, string>, refused: set<string>,
                         next: map<string, string>, best: map<string, string>, v: real)
    requires NearRound(s, current, refused, next, best, v)
    ensures AllWithin(s.p, next, best, v, |s.p.operators|)
  {
    forall i: nat {:trigger WithinAt(s.p, next, best, v, i)} | i < |s.p.operators|
      ensures WithinAt(s.p, next, best, v, i)
    {
      WithinThreshold(s, current, refused, i, next, best, v);
    }
  }

  lemma WithinThreshold(s: Setting, current: map<string, string>, refused: set<string>, i: nat,
                        next: map<string, string>, best: map<string, string>, v: real)
    requires NearRound(s, current, refused, next, best, v) && i < |s.p.operators|
    ensures WithinAt(s.p, next, best, v, i)
  {
    RoundEffect(s, current, refused, i);
    CandidatesExactly(s, current, s.CandidateFor(current, i));
    assert s.p.TierOf(current, i) in s.p.tiers && s.p.TierOf(best, i) in s.p.tiers;
  }
}
