/** The exponentially weighted anomaly detector of the market-data workload. */
module AnomalyDetectorModel {
  import opened Wrappers
  import opened Values
  import opened Sequences
  import opened Streams
  import opened OnlineStats

  const SCORES_KEPT: nat := 100
  const LEAST_SPREAD := 0.000000000001

  /** The operator's fields. A z-score is never negative, so the deque holds the squares. */
  datatype State = State(metricClass: Value, alpha: real, threshold: real, mean: real, m2: real,
                         anomalies: nat, squaredScores: seq<real>) {

    /** `get_state`. */
    function Saved(): Fields {
      map["metric_class" := metricClass, "alpha" := Decimal(alpha), "z_threshold" := Decimal(threshold),
          "ewma_mean" := Decimal(mean), "ewma_m2" := Decimal(m2), "anomaly_count" := Whole(anomalies),
          "recent_zscores" := ListOf(squaredScores)]
    }
  }

  /** The record as it is passed on, with `ewma_std` and `z_score` squared. */
  datatype Scored = Scored(record: Record, metricClass: Value, isAnomaly: bool, squaredScore: real,
                           mean: real, spread: real, anomalies: nat)

  function Initial(metricClass: Value, alpha: real, threshold: real): State {
    State(metricClass, alpha, threshold, 0.0, 1.0, 0, [])
  }

  function Reading(r: Record): real {
    r.Number("value", 0.0)
  }

  /** The second moment after a value at distance `d` from the mean. */
  function NextM2(s: State, d: real): real {
    Blend(s.alpha, s.m2, Square(d))
  }

  function Spread(s: State, d: real): (x: real)
    ensures x >= LEAST_SPREAD
  {
    AtLeast(NextM2(s, d), LEAST_SPREAD)
  }

  /** The squared z-score of a value at distance `d` from the mean before it. */
  function SquaredScore(s: State, d: real): real {
    Square(d) / Spread(s, d)
  }

  /** A non-negative z-score with this square exceeds the threshold. */
  predicate Exceeds(squaredScore: real, threshold: real) {
    threshold < 0.0 || squaredScore > Square(threshold)
  }

  predicate Flagged(s: State, v: real) {
    Exceeds(SquaredScore(s, v - s.mean), s.threshold)
  }

  function Updated(s: State, v: real): State {
    var d := v - s.mean;
    s.(mean := Blend(s.alpha, s.mean, v), m2 := NextM2(s, d),
       squaredScores := Push(s.squaredScores, SquaredScore(s, d), SCORES_KEPT),
       anomalies := s.anomalies + if Flagged(s, v) then 1 else 0)
  }

  /** `process`. */
  function Step(s: State, r: Record): (State, seq<Scored>) {
    var v := Reading(r);
    var next := Updated(s, v);
    (next, [Scored(r, s.metricClass, Flagged(s, v), SquaredScore(s, v - s.mean), next.mean,
                   Spread(s, v - s.mean), next.anomalies)])
  }

  /** `restore_state`. */
  function Restored(s: State, saved: Fields): Result<State, Misfit> {
    var alpha := AsReal(Get(saved, "alpha", Decimal(0.2)));
    var threshold := AsReal(Get(saved, "z_threshold", Decimal(3.0)));
    var mean := AsReal(Get(saved, "ewma_mean", Decimal(0.0)));
    var m2 := AsReal(Get(saved, "ewma_m2", Decimal(1.0)));
    var anomalies := AsNat(Get(saved, "anomaly_count", Whole(0)));
    var scores := AsReals(Get(saved, "recent_zscores", ListOf([])));
    if alpha.Failure? then Failure(alpha.error)
    else if threshold.Failure? then Failure(threshold.error)
    else if mean.Failure? then Failure(mean.error)
    else if m2.Failure? then Failure(m2.error)
    else if anomalies.Failure? then Failure(anomalies.error)
    else if scores.Failure? then Failure(scores.error)
    else Success(State(Get(saved, "metric_class", s.metricClass), alpha.value, threshold.value, mean.value, m2.value,
                       anomalies.value, LastN(scores.value, SCORES_KEPT)))
  }

  class AnomalyDetector {
    var metricClass: Value
    var alpha: real
    var threshold: real
    var mean: real
    var m2: real
    var anomalies: nat
    var squaredScores: seq<real>

    ghost function Current(): State
      reads this
    {
      State(metricClass, alpha, threshold, mean, m2, anomalies, squaredScores)
    }

    constructor (metricClass: Value, alpha: real, threshold: real)
      ensures Current() == Initial(metricClass, alpha, threshold)
    {
      this.metricClass, this.alpha, this.threshold := metricClass, alpha, threshold;
      mean, m2, anomalies, squaredScores := 0.0, 1.0, 0, [];
    }

    method Process(record: Record) returns (out: seq<Scored>)
      modifies this
      ensures (Current(), out) == Step(old(Current()), record)
    {
      ghost var before := Current();
      var value := record.Number("value", 0.0);
      var previousMean := mean;
      mean := (1.0 - alpha) * mean + alpha * value;
      var delta := value - previousMean;
      m2 := (1.0 - alpha) * m2 + alpha * Square(delta);
      assert m2 == NextM2(before, delta);
      var spread := AtLeast(m2, LEAST_SPREAD);
      assert spread == Spread(before, delta);
      var squaredScore := Square(delta) / spread;
      assert squaredScore == SquaredScore(before, delta);
      squaredScores := Push(squaredScores, squaredScore, SCORES_KEPT);
      var isAnomaly := Exceeds(squaredScore, threshold);
      if isAnomaly {
        anomalies := anomalies + 1;
      }
      out := [Scored(record, metricClass, isAnomaly, squaredScore, mean, spread, anomalies)];
      assert mean == Updated(before, value).mean;
    }

    method GetState() returns (state: Fields)
      ensures state == Current().Saved()
    {
      state := map["metric_class" := metricClass, "alpha" := Decimal(alpha), "z_threshold" := Decimal(threshold),
                   "ewma_mean" := Decimal(mean), "ewma_m2" := Decimal(m2), "anomaly_count" := Whole(anomalies),
                   "recent_zscores" := ListOf(squaredScores)];
    }

    method RestoreState(state: Fields) returns (raised: Option<Misfit>)
      modifies this
      ensures raised.None? <==> Restored(old(Current()), state).Success?
      ensures raised.None? ==> Current() == Restored(old(Current()), state).value
      ensures raised.Some? ==> Restored(old(Current()), state) == Failure(raised.value)
    {
      metricClass := Get(state, "metric_class", metricClass);
      var x := AsReal(Get(state, "alpha", Decimal(0.2)));
      if x.Failure? { return Some(x.error); }
      alpha := x.value;
      x := AsReal(Get(state, "z_threshold", Decimal(3.0)));
      if x.Failure? { return Some(x.error); }
      threshold := x.value;
      x := AsReal(Get(state, "ewma_mean", Decimal(0.0)));
      if x.Failure? { return Some(x.error); }
      mean := x.value;
      x := AsReal(Get(state, "ewma_m2", Decimal(1.0)));
      if x.Failure? { return Some(x.error); }
      m2 := x.value;
      var n := AsNat(Get(state, "anomaly_count", Whole(0)));
      if n.Failure? { return Some(n.error); }
      anomalies := n.value;
      var scores := AsReals(Get(state, "recent_zscores", ListOf([])));
      if scores.Failure? { return Some(scores.error); }
      squaredScores := LastN(scores.value, SCORES_KEPT);
      raised := None;
    }
  }

  // ---- what a record is scored against ----

  function Readings(input: seq<Record>): seq<real> {
    Map(Reading, input)
  }

  /** Each value's distance from the average of those before it. */
  function Distances(alpha: real, xs: seq<real>): (ds: seq<real>)
    ensures |ds| == |xs|
  {
    if xs == [] then []
    else
      var init := xs[..|xs| - 1];
      Distances(alpha, init) + [xs[|xs| - 1] - BatchAverage(alpha, 0.0, init)]
  }

  function Squares(xs: seq<real>): seq<real> {
    Map((x: real) => Square(x), xs)
  }

  /** The mean and the second moment after the values `xs`. */
  function MeanOf(alpha: real, xs: seq<real>): real {
    BatchAverage(alpha, 0.0, xs)
  }

  function MomentOf(alpha: real, xs: seq<real>): real {
    BatchAverage(alpha, 1.0, Squares(Distances(alpha, xs)))
  }

  predicate Carries(s: State, kind: Value, alpha: real, threshold: real, xs: seq<real>) {
    && s.metricClass == kind && s.alpha == alpha && s.threshold == threshold
    && s.mean == MeanOf(alpha, xs)
    && s.m2 == MomentOf(alpha, xs)
  }

  lemma BatchStep(alpha: real, start: real, xs: seq<real>, x: real)
    ensures Blend(alpha, BatchAverage(alpha, start, xs), x) == BatchAverage(alpha, start, xs + [x])
  {
    RunningIsBatch(alpha, start, xs);
    RunningIsBatch(alpha, start, xs + [x]);
    assert (xs + [x])[..|xs|] == xs;
  }

  lemma CarriesOn(s: State, kind: Value, alpha: real, threshold: real, xs: seq<real>, v: real)
    requires Carries(s, kind, alpha, threshold, xs)
    ensures Carries(Updated(s, v), kind, alpha, threshold, xs + [v])
  {
    var d := v - s.mean;
    assert (xs + [v])[..|xs|] == xs;
    assert Distances(alpha, xs + [v]) == Distances(alpha, xs) + [d];
    MapSnoc((x: real) => Square(x), Distances(alpha, xs), d);
    BatchStep(alpha, 0.0, xs, v);
    BatchStep(alpha, 1.0, Squares(Distances(alpha, xs)), Square(d));
  }

  /** After any input the mean is the batch average of the readings and m2 that of their squared distances. */
  lemma {:induction false} AveragesAreBatch(kind: Value, alpha: real, threshold: real, input: seq<Record>)
    ensures Carries(Final(Step, Initial(kind, alpha, threshold), input), kind, alpha, threshold, Readings(input))
  {
    if input != [] {
      var init := input[..|input| - 1];
      AveragesAreBatch(kind, alpha, threshold, init);
      CarriesOn(Final(Step, Initial(kind, alpha, threshold), init), kind, alpha, threshold, Readings(init),
                Reading(input[|input| - 1]));
      assert Readings(input) == Readings(init) + [Reading(input[|input| - 1])];
    }
  }

  function FlagCount(outs: seq<seq<Scored>>): nat {
    if outs == [] then 0
    else
      var last := outs[|outs| - 1];
      FlagCount(outs[..|outs| - 1]) + if |last| == 1 && last[0].isAnomaly then 1 else 0
  }

  function ScoresIn(outs: seq<seq<Scored>>): seq<real> {
    if outs == [] then []
    else
      var last := outs[|outs| - 1];
      ScoresIn(outs[..|outs| - 1]) + if |last| == 1 then [last[0].squaredScore] else []
  }

  /** A new detector counts the records it has flagged and remembers the last hundred scores it has given. */
  lemma {:induction false} RemembersScores(kind: Value, alpha: real, threshold: real, input: seq<Record>)
    ensures var s := Final(Step, Initial(kind, alpha, threshold), input);
            var outs := Outputs(Step, Initial(kind, alpha, threshold), input);
            s.anomalies == FlagCount(outs) && s.squaredScores == LastN(ScoresIn(outs), SCORES_KEPT)
  {
    if input != [] {
      var init := input[..|input| - 1];
      RemembersScores(kind, alpha, threshold, init);
      var start := Initial(kind, alpha, threshold);
      var outs := Outputs(Step, start, input);
      assert outs[..|outs| - 1] == Outputs(Step, start, init);
      PushKeepsLast(ScoresIn(Outputs(Step, start, init)), outs[|outs| - 1][0].squaredScore, SCORES_KEPT);
    }
  }

  /** How a record is scored: `mean` is the average before it, `next` the one after, `moment` the moment after. */
  predicate ScoredAgainst(o: Scored, r: Record, mean: real, next: real, moment: real, threshold: real) {
    var d := Reading(r) - mean;
    && o.record == r && o.mean == next
    && o.spread == (if moment < 0.000000000001 then 0.000000000001 else moment)
    && o.squaredScore == d * d / o.spread
    && (o.isAnomaly <==> threshold < 0.0 || o.squaredScore > threshold * threshold)
  }

  lemma StepScores(s: State, r: Record)
    ensures var next := Updated(s, Reading(r));
            |Step(s, r).1| == 1 && ScoredAgainst(Step(s, r).1[0], r, s.mean, next.mean, next.m2, s.threshold)
    ensures Step(s, r).1[0].metricClass == s.metricClass && Step(s, r).1[0].anomalies == Step(s, r).0.anomalies
  {
  }

  /**
    Each record is passed on with its squared distance from the batch average of those before it,
    over the floored batch average of such squares, and flagged exactly if that exceeds the
    squared threshold; it counts the records flagged so far.
   */
  lemma ScoresAgainstBatch(kind: Value, alpha: real, threshold: real, input: seq<Record>, r: Record)
    ensures var start := Initial(kind, alpha, threshold);
            var out := Step(Final(Step, start, input), r).1;
            && |out| == 1 && out[0].metricClass == kind
            && ScoredAgainst(out[0], r, MeanOf(alpha, Readings(input)), MeanOf(alpha, Readings(input + [r])),
                             MomentOf(alpha, Readings(input + [r])), threshold)
            && out[0].anomalies == FlagCount(Outputs(Step, start, input + [r]))
  {
    var start := Initial(kind, alpha, threshold);
    Snoc(Step, start, input, r);
    AveragesAreBatch(kind, alpha, threshold, input);
    AveragesAreBatch(kind, alpha, threshold, input + [r]);
    RemembersScores(kind, alpha, threshold, input + [r]);
    StepScores(Final(Step, start, input), r);
  }

  // ---- what can be flagged ----

  /** What holds in every state reached with a weight between 0 and 1. */
  predicate Sound(s: State) {
    0.0 <= s.alpha <= 1.0 && s.m2 >= 0.0
  }

  lemma StepKeepsSound(s: State, v: real)
    requires Sound(s)
    ensures Sound(Updated(s, v))
    ensures NextM2(s, v - s.mean) >= s.alpha * Square(v - s.mean)
  {
    SquareNonNegative(v - s.mean);
    ProductNonNegative(s.alpha, Square(v - s.mean));
    ProductNonNegative(1.0 - s.alpha, s.m2);
  }

  lemma {:induction false} RunsStaySound(kind: Value, alpha: real, threshold: real, input: seq<Record>)
    requires 0.0 <= alpha <= 1.0
    ensures var s := Final(Step, Initial(kind, alpha, threshold), input);
            Sound(s) && s.alpha == alpha && s.threshold == threshold && s.metricClass == kind
  {
    if input != [] {
      var init := input[..|input| - 1];
      RunsStaySound(kind, alpha, threshold, init);
      StepKeepsSound(Final(Step, Initial(kind, alpha, threshold), init), Reading(input[|input| - 1]));
    }
  }

  /** The mean stays between any bounds on zero, where it starts, and the input. */
  lemma {:induction false} MeanStaysInHull(kind: Value, alpha: real, threshold: real, input: seq<Record>, lo: real,
                                           hi: real)
    requires 0.0 <= alpha <= 1.0
    requires lo <= 0.0 <= hi
    requires forall i :: 0 <= i < |input| ==> lo <= Reading(input[i]) <= hi
    ensures lo <= Final(Step, Initial(kind, alpha, threshold), input).mean <= hi
  {
    if input != [] {
      var init := input[..|input| - 1];
      MeanStaysInHull(kind, alpha, threshold, init, lo, hi);
      RunsStaySound(kind, alpha, threshold, init);
      BlendBetween(alpha, Final(Step, Initial(kind, alpha, threshold), init).mean, Reading(input[|input| - 1]), lo, hi);
    }
  }

  lemma RatioBound(alpha: real, square: real, spread: real)
    requires spread > 0.0 && alpha * square <= spread
    ensures alpha * (square / spread) <= 1.0
  {
    assert alpha * (square / spread) == (alpha * square) / spread;
  }

  /** alpha times the squared z-score never exceeds one. */
  lemma ScoreIsBounded(s: State, v: real)
    requires Sound(s)
    ensures s.alpha * SquaredScore(s, v - s.mean) <= 1.0
  {
    StepKeepsSound(s, v);
    RatioBound(s.alpha, Square(v - s.mean), Spread(s, v - s.mean));
  }

  lemma RatioTimes(square: real, spread: real, bound: real)
    requires spread > 0.0 && square / spread <= bound
    ensures square <= bound * spread
  {
    assert (square / spread) * spread == square;
    ProductNonNegative(bound - square / spread, spread);
  }

  lemma RatioExceeds(square: real, spread: real, bound: real)
    requires spread > 0.0 && square > bound * spread
    ensures square / spread > bound
  {
    if square / spread <= bound {
      RatioTimes(square, spread, bound);
    }
  }

  /** How far alpha times the squared threshold stays below one. */
  function Room(s: State): real {
    1.0 - s.alpha * Square(s.threshold)
  }

  function Base(s: State): real {
    Square(s.threshold) * (s.m2 + 1.0)
  }

  /** A distance large enough that the threshold times the spread stays below its square. */
  function Outlier(s: State): real
    requires Room(s) > 0.0
  {
    1.0 + Base(s) / Room(s)
  }

  lemma GrowsPast(d: real, room: real, base: real)
    requires 0.0 < room <= 1.0 && base >= 0.0
    requires d == 1.0 + base / room
    ensures d >= 1.0 && room * (d * d) > base && d * d > base
  {
    assert base / room >= 0.0;
    assert room * d == room + base;
    assert d * d >= d by { ProductNonNegative(d, d - 1.0); }
    assert room * (d * d) >= room * d by { ProductNonNegative(room, d * d - d); }
    assert d >= room * d by { ProductNonNegative(1.0 - room, d); }
  }

  lemma SpreadStaysBelow(s: State, d: real)
    requires Sound(s) && Room(s) > 0.0
    requires Room(s) * (d * d) > Base(s) && d * d > Base(s)
    ensures Square(s.threshold) * Spread(s, d) < Square(d)
  {
    var t := Square(s.threshold);
    SquareNonNegative(s.threshold);
    ProductNonNegative(t, s.m2);
    assert Base(s) == t * s.m2 + t;
    ScaledBlend(t, s.alpha, s.m2, Square(d));
    assert Room(s) * (d * d) == d * d - s.alpha * t * (d * d);
  }

  lemma OutlierIsFlagged(s: State)
    requires Sound(s) && Room(s) > 0.0
    ensures Flagged(s, s.mean + Outlier(s))
  {
    SquareNonNegative(s.threshold);
    ProductNonNegative(s.alpha, Square(s.threshold));
    ProductNonNegative(Square(s.threshold), s.m2 + 1.0);
    GrowsPast(Outlier(s), Room(s), Base(s));
    FarIsFlagged(s, Outlier(s));
  }

  lemma FarIsFlagged(s: State, d: real)
    requires Sound(s) && Room(s) > 0.0
    requires Room(s) * (d * d) > Base(s) && d * d > Base(s)
    ensures Flagged(s, s.mean + d)
  {
    SpreadStaysBelow(s, d);
    RatioExceeds(Square(d), Spread(s, d), Square(s.threshold));
    assert (s.mean + d) - s.mean == d;
  }

  /** The threshold times the blended moment is at most the threshold times each part. */
  lemma ScaledBlend(t: real, alpha: real, m2: real, square: real)
    requires t >= 0.0 && 0.0 <= alpha && m2 >= 0.0
    ensures t * Blend(alpha, m2, square) <= t * m2 + alpha * t * square
  {
    ProductNonNegative(t, alpha);
    ProductNonNegative(t * alpha, m2);
    assert t * Blend(alpha, m2, square) == t * m2 - t * alpha * m2 + alpha * t * square;
  }

  lemma PositiveProduct(a: real, b: real)
    requires a > 0.0 && b > 0.0
    ensures a * b > 0.0
  {
  }

  lemma StrictlyScaled(alpha: real, t: real, score: real)
    requires 0.0 <= alpha && alpha * t >= 1.0 && alpha * score <= 1.0
    ensures score <= t
  {
    assert alpha != 0.0;
    if score > t {
      PositiveProduct(alpha, score - t);
    }
  }

  lemma NothingFlagged(s: State, v: real)
    requires Sound(s) && s.threshold >= 0.0 && Room(s) <= 0.0
    ensures !Flagged(s, v)
  {
    ScoreIsBounded(s, v);
    StrictlyScaled(s.alpha, Square(s.threshold), SquaredScore(s, v - s.mean));
  }

  lemma CanFlagFromIff(s: State, alpha: real, threshold: real)
    requires Sound(s) && s.alpha == alpha && s.threshold == threshold && threshold >= 0.0
    ensures (exists v :: Flagged(s, v)) <==> alpha * Square(threshold) < 1.0
  {
    assert Room(s) == 1.0 - alpha * Square(threshold);
    if Room(s) > 0.0 {
      OutlierIsFlagged(s);
    } else {
      forall v
        ensures !Flagged(s, v)
      {
        NothingFlagged(s, v);
      }
    }
  }

  /**
    A detector with a non-negative threshold can flag something, from whatever state it
    has reached, exactly when alpha times the squared threshold is below one.
   */
  lemma CanFlagIff(kind: Value, alpha: real, threshold: real, input: seq<Record>)
    requires 0.0 <= alpha <= 1.0 && threshold >= 0.0
    ensures (exists v :: Flagged(Final(Step, Initial(kind, alpha, threshold), input), v))
       <==> alpha * Square(threshold) < 1.0
  {
    RunsStaySound(kind, alpha, threshold, input);
    CanFlagFromIff(Final(Step, Initial(kind, alpha, threshold), input), alpha, threshold);
  }

  /** With the default weight 0.2 and threshold 3 nothing is ever flagged. */
  lemma DefaultsNeverFlag(kind: Value, input: seq<Record>)
    ensures Final(Step, Initial(kind, 0.2, 3.0), input).anomalies == 0
  {
    if input != [] {
      var init := input[..|input| - 1];
      DefaultsNeverFlag(kind, init);
      CanFlagIff(kind, 0.2, 3.0, init);
    }
  }

  // ---- restoring ----

  lemma StepStaysBounded(s: State, r: Record)
    ensures |Step(s, r).0.squaredScores| <= SCORES_KEPT
  {
  }

  /** What a new operator holds after restoring an empty dictionary. */
  function Blank(target: State): State {
    Initial(target.metricClass, 0.2, 3.0)
  }

  lemma BlankIsRestoredNothing(target: State)
    ensures Restored(target, map[]) == Success(Blank(target))
  {
    RealsInListOf([]);
  }

  /** What a projection onto `fields` restores: each covered field, and the defaults. */
  function Partly(target: State, s: State, fields: set<string>): State {
    State(if "metric_class" in fields then s.metricClass else target.metricClass,
          if "alpha" in fields then s.alpha else 0.2,
          if "z_threshold" in fields then s.threshold else 3.0,
          if "ewma_mean" in fields then s.mean else 0.0,
          if "ewma_m2" in fields then s.m2 else 1.0,
          if "anomaly_count" in fields then s.anomalies else 0,
          if "recent_zscores" in fields then s.squaredScores else [])
  }

  lemma RestoresCovered(target: State, s: State, fields: set<string>)
    requires |s.squaredScores| <= SCORES_KEPT
    ensures Restored(target, Projected(s.Saved(), fields)) == Success(Partly(target, s, fields))
  {
    var kept := Projected(s.Saved(), fields);
    assert Get(kept, "metric_class", target.metricClass)
        == if "metric_class" in fields then s.metricClass else target.metricClass;
    assert Get(kept, "alpha", Decimal(0.2)) == Decimal(if "alpha" in fields then s.alpha else 0.2);
    assert Get(kept, "z_threshold", Decimal(3.0)) == Decimal(if "z_threshold" in fields then s.threshold else 3.0);
    assert Get(kept, "ewma_mean", Decimal(0.0)) == Decimal(if "ewma_mean" in fields then s.mean else 0.0);
    assert Get(kept, "ewma_m2", Decimal(1.0)) == Decimal(if "ewma_m2" in fields then s.m2 else 1.0);
    assert Get(kept, "anomaly_count", Whole(0)) == Whole(if "anomaly_count" in fields then s.anomalies else 0);
    var scores := if "recent_zscores" in fields then s.squaredScores else [];
    assert Get(kept, "recent_zscores", ListOf([])) == ListOf(scores);
    RealsInListOf(scores);
  }

  lemma AgreementByField(target: State, s: State, fields: set<string>)
    ensures AgreeOutside(s.Saved(), Blank(target).Saved(), fields) <==> Partly(target, s, fields) == s
  {
    var saved, blank := s.Saved(), Blank(target).Saved();
    assert saved.Keys == {"metric_class", "alpha", "z_threshold", "ewma_mean", "ewma_m2", "anomaly_count",
                          "recent_zscores"}
        == blank.Keys;
    if AgreeOutside(saved, blank, fields) {
      assert "metric_class" in saved && "alpha" in saved && "z_threshold" in saved && "ewma_mean" in saved;
      assert "ewma_m2" in saved && "anomaly_count" in saved && "recent_zscores" in saved;
      if "recent_zscores" !in fields {
        ListOfInjective(s.squaredScores, []);
      }
    }
  }

  /** A projection restores the state exactly when every field it leaves out already had its default. */
  lemma RestoresIff(target: State, s: State, fields: set<string>)
    requires |s.squaredScores| <= SCORES_KEPT
    ensures Restored(target, Projected(s.Saved(), fields)) == Success(s)
       <==> AgreeOutside(s.Saved(), Blank(target).Saved(), fields)
  {
    RestoresCovered(target, s, fields);
    AgreementByField(target, s, fields);
  }
}
