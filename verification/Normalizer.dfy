/** The per-zone signal normalizer of the traffic-sensor workload. */
module NormalizerModel {
  import opened Wrappers
  import opened Values
  import opened Sequences
  import opened Streams
  import opened OnlineStats

  /** The operator's fields. */
  datatype State = State(zone: string, alpha: real, mean: real, variance: real, count: nat) {

    /** `get_state`. */
    function Saved(): Fields {
      map["zone_id" := Text(zone), "mean" := Decimal(mean), "variance" := Decimal(variance),
          "count" := Whole(count), "alpha" := Decimal(alpha)]
    }
  }

  /**
    The record as it is passed on. The standard deviation is kept squared: `sensor_std` is
    the root of `spread` and `normalized_value` is `distance` divided by that root.
   */
  datatype Normalized = Normalized(record: Record, zone: string, distance: real, mean: real, spread: real)

  function Initial(zone: string, alpha: real): State {
    State(zone, alpha, 0.0, 1.0, 0)
  }

  function Reading(r: Record): real {
    r.Number("sensor_value", 0.0)
  }

  const LEAST_SPREAD := 0.000000001

  /** A variance over one value less, and the increment of the new value. */
  function Reweighted(n: nat, variance: real, increment: real): real
    requires n > 0
  {
    ((n - 1) as real * variance + increment) / n as real
  }

  function Updated(s: State, v: real): State {
    var n := s.count + 1;
    var mean := s.mean + (v - s.mean) / n as real;
    s.(count := n, mean := mean, variance := Reweighted(n, s.variance, (v - s.mean) * (v - mean)))
  }

  /** `process`. */
  function Step(s: State, r: Record): (State, seq<Normalized>) {
    var next := Updated(s, Reading(r));
    (next, [Normalized(r, s.zone, Reading(r) - next.mean, next.mean, AtLeast(next.variance, LEAST_SPREAD))])
  }

  /** `restore_state`: the zone is not restored. */
  function Restored(s: State, saved: Fields): Result<State, Misfit> {
    var mean := AsReal(Get(saved, "mean", Decimal(0.0)));
    var variance := AsReal(Get(saved, "variance", Decimal(1.0)));
    var count := AsNat(Get(saved, "count", Whole(0)));
    var alpha := AsReal(Get(saved, "alpha", Decimal(0.01)));
    if mean.Failure? then Failure(mean.error)
    else if variance.Failure? then Failure(variance.error)
    else if count.Failure? then Failure(count.error)
    else if alpha.Failure? then Failure(alpha.error)
    else Success(State(s.zone, alpha.value, mean.value, variance.value, count.value))
  }

  class NormalizerOperator {
    const zone: string
    var alpha: real
    var mean: real
    var variance: real
    var count: nat

    ghost function Current(): State
      reads this
    {
      State(zone, alpha, mean, variance, count)
    }

    constructor (zone: string, alpha: real)
      ensures Current() == Initial(zone, alpha)
    {
      this.zone, this.alpha := zone, alpha;
      mean, variance, count := 0.0, 1.0, 0;
    }

    method Process(record: Record) returns (out: seq<Normalized>)
      modifies this
      ensures (Current(), out) == Step(old(Current()), record)
    {
      ghost var next := Updated(Current(), Reading(record));
      var value := record.Number("sensor_value", 0.0);
      count := count + 1;
      var delta := value - mean;
      mean := mean + delta / count as real;
      assert mean == next.mean;
      var delta2 := value - mean;
      variance := Reweighted(count, variance, delta * delta2);
      assert variance == next.variance;
      out := [Normalized(record, zone, value - mean, mean, AtLeast(variance, LEAST_SPREAD))];
    }

    method GetState() returns (state: Fields)
      ensures state == Current().Saved()
    {
      state := map["zone_id" := Text(zone), "mean" := Decimal(mean), "variance" := Decimal(variance),
                   "count" := Whole(count), "alpha" := Decimal(alpha)];
    }

    method RestoreState(state: Fields) returns (raised: Option<Misfit>)
      modifies this
      ensures raised.None? <==> Restored(old(Current()), state).Success?
      ensures raised.None? ==> Current() == Restored(old(Current()), state).value
      ensures raised.Some? ==> Restored(old(Current()), state) == Failure(raised.value)
    {
      var x := AsReal(Get(state, "mean", Decimal(0.0)));
      if x.Failure? { return Some(x.error); }
      mean := x.value;
      x := AsReal(Get(state, "variance", Decimal(1.0)));
      if x.Failure? { return Some(x.error); }
      variance := x.value;
      var n := AsNat(Get(state, "count", Whole(0)));
      if n.Failure? { return Some(n.error); }
      count := n.value;
      x := AsReal(Get(state, "alpha", Decimal(0.01)));
      if x.Failure? { return Some(x.error); }
      alpha := x.value;
      raised := None;
    }
  }

  function Readings(input: seq<Record>): seq<real> {
    Map(Reading, input)
  }

  /** The fields carry the moments `m`; the variance does so once there is a value. */
  predicate Carries(s: State, m: Moments) {
    && s.count == m.count
    && (m.count > 0 ==> s.mean == m.mean && m.count as real * s.variance == m.m2)
  }

  lemma WeightedVariance(n: nat, variance: real, increment: real)
    ensures (n + 1) as real * Reweighted(n + 1, variance, increment) == n as real * variance + increment
  {
  }

  lemma CarriesOn(s: State, m: Moments, v: real)
    requires Carries(s, m)
    requires m.count == 0 ==> m == Moments(0, 0.0, 0.0)
    ensures Carries(Updated(s, v), m.Add(v))
  {
    var increment := (v - s.mean) * (v - Updated(s, v).mean);
    WeightedVariance(s.count, s.variance, increment);
    if s.count == 0 {
      assert Updated(s, v).mean == v;
      assert m.Add(v) == Moments(1, v, 0.0);
    }
  }

  lemma {:induction false} RunningFields(start: State, input: seq<Record>)
    requires start.count == 0
    ensures Carries(Final(Step, start, input), MomentsOf(Readings(input)))
  {
    if input != [] {
      var init, r := input[..|input| - 1], input[|input| - 1];
      RunningFields(start, init);
      MomentsCount(Readings(init));
      assert Readings(input)[..|input| - 1] == Readings(init);
      CarriesOn(Final(Step, start, init), MomentsOf(Readings(init)), Reading(r));
    }
  }

  lemma PopulationVariance(n: real, variance: real, m2: real)
    requires n != 0.0 && n * variance == m2
    ensures variance == m2 / n
  {
  }

  lemma CarriedFigures(s: State, m: Moments, n: nat, mean: real, deviations: real)
    requires Carries(s, m) && n > 0
    requires m == Moments(n, mean, deviations)
    ensures s.count == n && s.mean == mean && s.variance == deviations / n as real
  {
    PopulationVariance(n as real, s.variance, deviations);
  }

  /**
    From one record on, the mean is the batch mean and the variance the population
    variance, whatever mean and variance the operator started from.
   */
  lemma NormalizesByPopulationVariance(start: State, input: seq<Record>)
    requires start.count == 0 && input != []
    ensures var s := Final(Step, start, input);
            var xs := Readings(input);
            && s.count == |xs|
            && s.mean == Mean(xs)
            && s.variance == SquaredDeviations(xs, Mean(xs)) / |xs| as real
  {
    var xs := Readings(input);
    RunningFields(start, input);
    MomentsAreBatchMoments(xs);
    CarriedFigures(Final(Step, start, input), MomentsOf(xs), |xs|, Mean(xs), SquaredDeviations(xs, Mean(xs)));
  }

  /** The record scored against the batch mean and population variance of `xs`. */
  function BatchScore(zone: string, r: Record, xs: seq<real>): Normalized
    requires xs != []
  {
    Normalized(r, zone, Reading(r) - Mean(xs), Mean(xs),
               AtLeast(SquaredDeviations(xs, Mean(xs)) / |xs| as real, LEAST_SPREAD))
  }

  /** Each record goes out with its distance from the mean of the input so far, itself included. */
  lemma EmitsBatchScore(start: State, input: seq<Record>, r: Record)
    requires start.count == 0
    ensures Step(Final(Step, start, input), r).1 == [BatchScore(start.zone, r, Readings(input + [r]))]
  {
    Snoc(Step, start, input, r);
    NormalizesByPopulationVariance(start, input + [r]);
    ZoneIsKept(start, input);
  }

  lemma {:induction false} ZoneIsKept(start: State, input: seq<Record>)
    ensures Final(Step, start, input).zone == start.zone
    ensures Final(Step, start, input).alpha == start.alpha
    ensures Final(Step, start, input).count == start.count + |input|
  {
    if input != [] {
      ZoneIsKept(start, input[..|input| - 1]);
    }
  }

  /** What a new operator holds after restoring an empty dictionary. */
  function Blank(target: State): State {
    State(target.zone, 0.01, 0.0, 1.0, 0)
  }

  lemma BlankIsRestoredNothing(target: State)
    ensures Restored(target, map[]) == Success(Blank(target))
  {
  }

  /** What a projection onto `fields` restores: each covered field, and the defaults. */
  function Partly(s: State, fields: set<string>): State {
    State(s.zone,
          if "alpha" in fields then s.alpha else 0.01,
          if "mean" in fields then s.mean else 0.0,
          if "variance" in fields then s.variance else 1.0,
          if "count" in fields then s.count else 0)
  }

  lemma RestoresCovered(target: State, s: State, fields: set<string>)
    requires target.zone == s.zone
    ensures Restored(target, Projected(s.Saved(), fields)) == Success(Partly(s, fields))
  {
    var kept := Projected(s.Saved(), fields);
    assert Get(kept, "mean", Decimal(0.0)) == Decimal(if "mean" in fields then s.mean else 0.0);
    assert Get(kept, "variance", Decimal(1.0)) == Decimal(if "variance" in fields then s.variance else 1.0);
    assert Get(kept, "count", Whole(0)) == Whole(if "count" in fields then s.count else 0);
    assert Get(kept, "alpha", Decimal(0.01)) == Decimal(if "alpha" in fields then s.alpha else 0.01);
  }

  lemma AgreementByField(target: State, s: State, fields: set<string>)
    requires target.zone == s.zone
    ensures AgreeOutside(s.Saved(), Blank(target).Saved(), fields) <==> Partly(s, fields) == s
  {
    var saved, blank := s.Saved(), Blank(target).Saved();
    assert saved.Keys == {"zone_id", "mean", "variance", "count", "alpha"} == blank.Keys;
    if AgreeOutside(saved, blank, fields) {
      assert "mean" in saved && "variance" in saved && "count" in saved && "alpha" in saved;
    }
  }

  /** A projection restores the state exactly when every field it leaves out already had its default. */
  lemma RestoresIff(target: State, s: State, fields: set<string>)
    requires target.zone == s.zone
    ensures Restored(target, Projected(s.Saved(), fields)) == Success(s)
       <==> AgreeOutside(s.Saved(), Blank(target).Saved(), fields)
  {
    RestoresCovered(target, s, fields);
    AgreementByField(target, s, fields);
  }
}
