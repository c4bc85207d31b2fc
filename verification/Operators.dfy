/** The six stateful operators behind their common interface. */
module Operators {
  import opened Wrappers
  import opened Values
  import opened Streams
  import S = StatAggregatorModel
  import N = NormalizerModel
  import A = AnomalyDetectorModel
  import V = VehicleDetectorModel
  import P = PatternDetectorModel
  import W = FeatureWindowModel

  datatype Operator =
    | Stat(stat: S.State)
    | Normalizer(normalizer: N.State)
    | Anomaly(anomaly: A.State)
    | Vehicle(vehicle: V.State)
    | Pattern(pattern: P.State)
    | Window(window: W.State)

  datatype Output =
    | Summaries(summaries: seq<S.Summary>)
    | Normalized(normalized: seq<N.Normalized>)
    | Scored(scored: seq<A.Scored>)
    | Reports(reports: seq<V.Report>)
    | Waves(waves: seq<P.Wave>)
    | Emission(emission: W.Emission)

  /** `process`. Only the vehicle detector may look at the clock. */
  function Step(op: Operator, a: Arrival): (Operator, Output) {
    match op
    case Stat(s) => var r := S.Step(s, a.record); (Stat(r.0), Summaries(r.1))
    case Normalizer(s) => var r := N.Step(s, a.record); (Normalizer(r.0), Normalized(r.1))
    case Anomaly(s) => var r := A.Step(s, a.record); (Anomaly(r.0), Scored(r.1))
    case Vehicle(s) => var r := V.Step(s, a); (Vehicle(r.0), Reports(r.1))
    case Pattern(s) => var r := P.Step(s, a.record); (Pattern(r.0), Waves(r.1))
    case Window(s) => var r := W.Step(s, a.record); (Window(r.0), Emission(r.1))
  }

  /** `get_state`. */
  function Saved(op: Operator): Fields {
    match op
    case Stat(s) => s.Saved()
    case Normalizer(s) => s.Saved()
    case Anomaly(s) => s.Saved()
    case Vehicle(s) => s.Saved()
    case Pattern(s) => s.Saved()
    case Window(s) => s.Saved()
  }

  /** `restore_state` on the operator `target`. */
  function Restored(target: Operator, saved: Fields): Result<Operator, Misfit> {
    match target
    case Stat(t) => var r := S.Restored(t, saved); if r.Success? then Success(Stat(r.value)) else Failure(r.error)
    case Normalizer(t) =>
      var r := N.Restored(t, saved); if r.Success? then Success(Normalizer(r.value)) else Failure(r.error)
    case Anomaly(t) => var r := A.Restored(t, saved); if r.Success? then Success(Anomaly(r.value)) else Failure(r.error)
    case Vehicle(t) => var r := V.Restored(t, saved); if r.Success? then Success(Vehicle(r.value)) else Failure(r.error)
    case Pattern(t) => var r := P.Restored(t, saved); if r.Success? then Success(Pattern(r.value)) else Failure(r.error)
    case Window(t) => var r := W.Restored(t, saved); if r.Success? then Success(Window(r.value)) else Failure(r.error)
  }

  /** The operator is as its constructor leaves it. */
  predicate IsNew(op: Operator) {
    match op
    case Stat(s) => s == S.Initial(s.instrumentClass)
    case Normalizer(s) => s == N.Initial(s.zone, s.alpha)
    case Anomaly(s) => s == A.Initial(s.metricClass, s.alpha, s.threshold)
    case Vehicle(s) => s == V.Initial(s.sensor, s.alpha)
    case Pattern(s) => s == P.Initial(s.threshold)
    case Window(s) => s == W.Initial(s.zone, s.windowSize)
  }

  /** What `target` holds after restoring an empty dictionary. */
  function Blank(target: Operator): Operator {
    match target
    case Stat(t) => Stat(S.Blank(t))
    case Normalizer(t) => Normalizer(N.Blank(t))
    case Anomaly(t) => Anomaly(A.Blank(t))
    case Vehicle(t) => Vehicle(V.Blank(t))
    case Pattern(t) => Pattern(P.BLANK)
    case Window(t) => Window(W.Blank(t))
  }

  /** `op` can be what became of the new operator `target`: same arguments, deques within their bounds. */
  ghost predicate CameFrom(target: Operator, op: Operator) {
    match op
    case Stat(s) => target.Stat?
    case Normalizer(s) => target.Normalizer? && target.normalizer.zone == s.zone
    case Anomaly(s) => target.Anomaly? && |s.squaredScores| <= A.SCORES_KEPT
    case Vehicle(s) => target.Vehicle? && target.vehicle.sensor == s.sensor && |s.times| <= V.TIMES_KEPT
    case Pattern(s) => target.Pattern? && s.zones.Valid()
    case Window(s) => target.Window? && target.window.zone == s.zone && s.Valid()
  }

  /** Every field that is not saved has its restart value: the window's emit counter is the only one. */
  predicate NothingUnsaved(op: Operator) {
    op.Window? ==> op.window.sinceEmit == 0
  }

  lemma StepKeepsOrigin(target: Operator, op: Operator, a: Arrival)
    requires CameFrom(target, op)
    ensures CameFrom(target, Step(op, a).0)
  {
    match op
    case Pattern(s) => P.StepStaysValid(s, a.record);
    case Anomaly(s) => A.StepStaysBounded(s, a.record);
    case Vehicle(s) => V.StepStaysBounded(s, a);
    case Window(s) => W.StepStaysValid(s, a.record);
    case _ =>
  }

  lemma {:induction false} RunKeepsOrigin(target: Operator, input: seq<Arrival>)
    requires IsNew(target)
    ensures CameFrom(target, Final(Step, target, input))
  {
    if input != [] {
      RunKeepsOrigin(target, input[..|input| - 1]);
      StepKeepsOrigin(target, Final(Step, target, input[..|input| - 1]), input[|input| - 1]);
    }
  }

  lemma BlankIsRestoredNothing(target: Operator)
    ensures Restored(target, map[]) == Success(Blank(target))
  {
    match target
    case Stat(t) => S.BlankIsRestoredNothing(t);
    case Normalizer(t) => N.BlankIsRestoredNothing(t);
    case Anomaly(t) => A.BlankIsRestoredNothing(t);
    case Vehicle(t) => V.BlankIsRestoredNothing(t);
    case Pattern(t) => P.BlankIsRestoredNothing(t);
    case Window(t) => W.BlankIsRestoredNothing(t);
  }

  /** What a projection of the saved state restores to, field by field. */
  lemma RestoresIff(target: Operator, op: Operator, fields: set<string>)
    requires CameFrom(target, op)
    ensures Restored(target, Projected(Saved(op), fields)) == Success(op)
       <==> AgreeOutside(Saved(op), Saved(Blank(target)), fields) && NothingUnsaved(op)
  {
    match op
    case Stat(s) => S.RestoresIff(target.stat, s, fields);
    case Normalizer(s) => N.RestoresIff(target.normalizer, s, fields);
    case Anomaly(s) => A.RestoresIff(target.anomaly, s, fields);
    case Vehicle(s) => V.RestoresIff(target.vehicle, s, fields);
    case Pattern(s) => P.RestoresIff(target.pattern, s, fields);
    case Window(s) => W.RestoresIff(target.window, s, fields);
  }

  /** The dictionaries agree on key `k`, present or absent. */
  predicate SameUnder(a: Fields, b: Fields, k: string) {
    (k in a <==> k in b) && (k in a ==> a[k] == b[k])
  }

  ghost predicate SameUnderKeysOf(saved: Fields, a: Fields, b: Fields) {
    forall k :: k in saved ==> SameUnder(a, b, k)
  }

  lemma StatReads(t: S.State, a: Fields, b: Fields)
    requires SameUnderKeysOf(t.Saved(), a, b)
    ensures S.Restored(t, a) == S.Restored(t, b)
  {
    assert SameUnder(a, b, "instrument_class") && SameUnder(a, b, "count") && SameUnder(a, b, "mean");
    assert SameUnder(a, b, "m2") && SameUnder(a, b, "min") && SameUnder(a, b, "max");
  }

  lemma NormalizerReads(t: N.State, a: Fields, b: Fields)
    requires SameUnderKeysOf(t.Saved(), a, b)
    ensures N.Restored(t, a) == N.Restored(t, b)
  {
    assert SameUnder(a, b, "mean") && SameUnder(a, b, "variance") && SameUnder(a, b, "count");
    assert SameUnder(a, b, "alpha");
  }

  lemma AnomalyReads(t: A.State, a: Fields, b: Fields)
    requires SameUnderKeysOf(t.Saved(), a, b)
    ensures A.Restored(t, a) == A.Restored(t, b)
  {
    assert SameUnder(a, b, "metric_class") && SameUnder(a, b, "alpha") && SameUnder(a, b, "z_threshold");
    assert SameUnder(a, b, "ewma_mean") && SameUnder(a, b, "ewma_m2") && SameUnder(a, b, "anomaly_count");
    assert SameUnder(a, b, "recent_zscores");
  }

  lemma VehicleReads(t: V.State, a: Fields, b: Fields)
    requires SameUnderKeysOf(t.Saved(), a, b)
    ensures V.Restored(t, a) == V.Restored(t, b)
  {
    assert SameUnder(a, b, "alpha") && SameUnder(a, b, "ewma_occ") && SameUnder(a, b, "ewma_speed");
    assert SameUnder(a, b, "detection_count") && SameUnder(a, b, "last_detection_ts")
        && SameUnder(a, b, "detection_times");
  }

  lemma PatternReads(t: P.State, a: Fields, b: Fields)
    requires SameUnderKeysOf(t.Saved(), a, b)
    ensures P.Restored(t, a) == P.Restored(t, b)
  {
    assert SameUnder(a, b, "congestion_threshold") && SameUnder(a, b, "zone_history")
        && SameUnder(a, b, "incident_count");
  }

  lemma WindowReads(t: W.State, a: Fields, b: Fields)
    requires SameUnderKeysOf(t.Saved(), a, b)
    ensures W.Restored(t, a) == W.Restored(t, b)
  {
    assert SameUnder(a, b, "window") && SameUnder(a, b, "window_size") && SameUnder(a, b, "emit_every");
  }

  /** `restore_state` reads no key that `get_state` does not write. */
  lemma ReadsSavedKeysOnly(target: Operator, a: Fields, b: Fields)
    requires SameUnderKeysOf(Saved(target), a, b)
    ensures Restored(target, a) == Restored(target, b)
  {
    match target
    case Stat(t) => StatReads(t, a, b);
    case Normalizer(t) => NormalizerReads(t, a, b);
    case Anomaly(t) => AnomalyReads(t, a, b);
    case Vehicle(t) => VehicleReads(t, a, b);
    case Pattern(t) => PatternReads(t, a, b);
    case Window(t) => WindowReads(t, a, b);
  }

  /** A vehicle detector needs a timestamp not to depend on the clock. */
  predicate ClockFree(op: Operator, r: Record) {
    op.Vehicle? ==> "timestamp" in r.numbers
  }

  lemma ClockDoesNotMatter(op: Operator, r: Record, c: real, d: real)
    requires ClockFree(op, r)
    ensures Step(op, Arrival(r, c)) == Step(op, Arrival(r, d))
  {
  }
}
