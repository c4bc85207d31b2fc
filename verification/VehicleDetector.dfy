/** The roadside vehicle detector. */
module VehicleDetectorModel {
  import opened Wrappers
  import opened Values
  import opened Sequences
  import opened Streams
  import opened OnlineStats

  const TIMES_KEPT: nat := 100

  /** The operator's fields. The last detection time is restored unconverted, so it is any value. */
  datatype State = State(sensor: string, alpha: real, occupancy: real, speed: real,
                         detections: nat, lastDetection: Value, times: seq<real>) {

    /** `get_state`. */
    function Saved(): Fields {
      map["sensor_id" := Text(sensor), "alpha" := Decimal(alpha), "ewma_occ" := Decimal(occupancy),
          "ewma_speed" := Decimal(speed), "detection_count" := Whole(detections),
          "last_detection_ts" := lastDetection, "detection_times" := ListOf(times)]
    }
  }

  datatype Report = Report(sensor: string, detected: bool, occupancy: real, speed: real,
                           detections: nat, headway: Option<real>, timestamp: real)

  function Initial(sensor: string, alpha: real): State {
    State(sensor, alpha, 0.0, 0.0, 0, Null, [])
  }

  /** The gaps between consecutive times. */
  function Intervals(times: seq<real>): (gaps: seq<real>)
    requires times != []
    ensures |gaps| == |times| - 1
  {
    seq(|times| - 1, i requires 0 <= i < |times| - 1 => times[i + 1] - times[i])
  }

  /** The mean gap; a mean of zero is reported as none. */
  function Headway(times: seq<real>): Option<real> {
    if |times| < 2 then None
    else
      var mean := Sum(Intervals(times)) / |Intervals(times)| as real;
      if mean == 0.0 then None else Some(mean)
  }

  function TimeOf(a: Arrival): real {
    a.record.Number("timestamp", a.clock)
  }

  predicate Present(s: State) {
    s.occupancy > 0.15 && s.speed > 2.0
  }

  function Smoothed(s: State, r: Record): State {
    s.(occupancy := Blend(s.alpha, s.occupancy, r.Number("occupancy", 0.0)),
       speed := Blend(s.alpha, s.speed, r.Number("speed_kmh", 0.0)))
  }

  function Noted(s: State, ts: real): State {
    if !Present(s) then s
    else s.(detections := s.detections + 1, lastDetection := Decimal(ts), times := Push(s.times, ts, TIMES_KEPT))
  }

  function ReportOf(s: State, ts: real): Report {
    Report(s.sensor, Present(s), s.occupancy, s.speed, s.detections, Headway(s.times), ts)
  }

  /** `process`. */
  function Step(s: State, a: Arrival): (State, seq<Report>) {
    var next := Noted(Smoothed(s, a.record), TimeOf(a));
    (next, [ReportOf(next, TimeOf(a))])
  }

  /** `restore_state`: the sensor is not restored. */
  function Restored(s: State, saved: Fields): Result<State, Misfit> {
    var alpha := AsReal(Get(saved, "alpha", Decimal(0.2)));
    var occupancy := AsReal(Get(saved, "ewma_occ", Decimal(0.0)));
    var speed := AsReal(Get(saved, "ewma_speed", Decimal(0.0)));
    var detections := AsNat(Get(saved, "detection_count", Whole(0)));
    var times := AsReals(Get(saved, "detection_times", ListOf([])));
    if alpha.Failure? then Failure(alpha.error)
    else if occupancy.Failure? then Failure(occupancy.error)
    else if speed.Failure? then Failure(speed.error)
    else if detections.Failure? then Failure(detections.error)
    else if times.Failure? then Failure(times.error)
    else Success(State(s.sensor, alpha.value, occupancy.value, speed.value, detections.value,
                       Get(saved, "last_detection_ts", Null), LastN(times.value, TIMES_KEPT)))
  }

  class VehicleDetector {
    const sensor: string
    var alpha: real
    var occupancy: real
    var speed: real
    var detections: nat
    var lastDetection: Value
    var times: seq<real>

    ghost function Current(): State
      reads this
    {
      State(sensor, alpha, occupancy, speed, detections, lastDetection, times)
    }

    constructor (sensor: string, alpha: real)
      ensures Current() == Initial(sensor, alpha)
    {
      this.sensor, this.alpha := sensor, alpha;
      occupancy, speed, detections, lastDetection, times := 0.0, 0.0, 0, Null, [];
    }

    method Process(record: Record, clock: real) returns (out: seq<Report>)
      modifies this
      ensures (Current(), out) == Step(old(Current()), Arrival(record, clock))
    {
      ghost var smoothed := Smoothed(Current(), record);
      var ts := record.Number("timestamp", clock);
      occupancy := (1.0 - alpha) * occupancy + alpha * record.Number("occupancy", 0.0);
      speed := (1.0 - alpha) * speed + alpha * record.Number("speed_kmh", 0.0);
      assert Current() == smoothed;
      var detected := occupancy > 0.15 && speed > 2.0;
      if detected {
        detections := detections + 1;
        lastDetection := Decimal(ts);
        times := Push(times, ts, TIMES_KEPT);
      }
      assert Current() == Noted(smoothed, ts);
      var headway := MeanHeadway();
      out := [Report(sensor, detected, occupancy, speed, detections, headway, ts)];
    }

    method MeanHeadway() returns (headway: Option<real>)
      ensures headway == Headway(times)
    {
      headway := None;
      if |times| >= 2 {
        var intervals := Intervals(times);
        var mean := Sum(intervals) / |intervals| as real;
        headway := if mean == 0.0 then None else Some(mean);
      }
    }

    method GetState() returns (state: Fields)
      ensures state == Current().Saved()
    {
      state := map["sensor_id" := Text(sensor), "alpha" := Decimal(alpha), "ewma_occ" := Decimal(occupancy),
                   "ewma_speed" := Decimal(speed), "detection_count" := Whole(detections),
                   "last_detection_ts" := lastDetection, "detection_times" := ListOf(times)];
    }

    method RestoreState(state: Fields) returns (raised: Option<Misfit>)
      modifies this
      ensures raised.None? <==> Restored(old(Current()), state).Success?
      ensures raised.None? ==> Current() == Restored(old(Current()), state).value
      ensures raised.Some? ==> Restored(old(Current()), state) == Failure(raised.value)
    {
      var x := AsReal(Get(state, "alpha", Decimal(0.2)));
      if x.Failure? { return Some(x.error); }
      alpha := x.value;
      x := AsReal(Get(state, "ewma_occ", Decimal(0.0)));
      if x.Failure? { return Some(x.error); }
      occupancy := x.value;
      x := AsReal(Get(state, "ewma_speed", Decimal(0.0)));
      if x.Failure? { return Some(x.error); }
      speed := x.value;
      var n := AsNat(Get(state, "detection_count", Whole(0)));
      if n.Failure? { return Some(n.error); }
      detections := n.value;
      lastDetection := Get(state, "last_detection_ts", Null);
      var items := AsReals(Get(state, "detection_times", ListOf([])));
      if items.Failure? { return Some(items.error); }
      times := LastN(items.value, TIMES_KEPT);
      raised := None;
    }
  }

  // ---- headway and detection history ----

  /** The gaps telescope. */
  lemma {:induction false} GapsTelescope(times: seq<real>)
    requires times != []
    ensures Sum(Intervals(times)) == times[|times| - 1] - times[0]
  {
    if |times| > 1 {
      var init := times[..|times| - 1];
      GapsTelescope(init);
      assert Intervals(times)[..|times| - 2] == Intervals(init);
    }
  }

  /** The mean headway is the time from the first to the last kept detection over one less than their number. */
  lemma HeadwayIsSpanOverGaps(times: seq<real>)
    requires |times| >= 2
    ensures var span := times[|times| - 1] - times[0];
            Headway(times) == if span == 0.0 then None else Some(span / (|times| - 1) as real)
  {
    GapsTelescope(times);
    QuotientZero(times[|times| - 1] - times[0], (|times| - 1) as real);
  }

  lemma QuotientZero(x: real, n: real)
    requires n > 0.0
    ensures x / n == 0.0 <==> x == 0.0
  {
    assert x / n * n == x;
  }

  /** The times of the reports that announce a vehicle. */
  function DetectedAt(reports: seq<seq<Report>>): seq<real> {
    if reports == [] then []
    else
      var earlier, last := DetectedAt(reports[..|reports| - 1]), reports[|reports| - 1];
      if |last| == 1 && last[0].detected then earlier + [last[0].timestamp] else earlier
  }

  /**
    What an operator started new remembers: the last hundred announced detections, how
    many there were in all, and when the latest was.
   */
  lemma {:induction false} RemembersDetections(sensor: string, alpha: real, input: seq<Arrival>)
    ensures var s := Final(Step, Initial(sensor, alpha), input);
            var seen := DetectedAt(Outputs(Step, Initial(sensor, alpha), input));
            && s.sensor == sensor && s.alpha == alpha
            && s.detections == |seen|
            && s.times == LastN(seen, TIMES_KEPT)
            && s.lastDetection == if seen == [] then Null else Decimal(seen[|seen| - 1])
  {
    if input != [] {
      var init := input[..|input| - 1];
      RemembersDetections(sensor, alpha, init);
      var outs := Outputs(Step, Initial(sensor, alpha), input);
      assert outs[..|outs| - 1] == Outputs(Step, Initial(sensor, alpha), init);
      var seen := DetectedAt(Outputs(Step, Initial(sensor, alpha), init));
      PushKeepsLast(seen, TimeOf(input[|input| - 1]), TIMES_KEPT);
    }
  }

  lemma CountsOfReport(s: State, ts: real, seen: seq<real>)
    requires s.detections == |seen| && s.times == LastN(seen, TIMES_KEPT)
    ensures Counts(ReportOf(s, ts), seen, LastN(seen, TIMES_KEPT))
  {
    if |s.times| >= 2 {
      HeadwayIsSpanOverGaps(s.times);
    }
  }

  /** Each report counts the detections announced so far and spans the last hundred of them. */
  lemma ReportsDetections(sensor: string, alpha: real, input: seq<Arrival>, a: Arrival)
    ensures var seen := DetectedAt(Outputs(Step, Initial(sensor, alpha), input + [a]));
            var out := Step(Final(Step, Initial(sensor, alpha), input), a).1;
            |out| == 1 && Counts(out[0], seen, LastN(seen, TIMES_KEPT))
  {
    Snoc(Step, Initial(sensor, alpha), input, a);
    RemembersDetections(sensor, alpha, input + [a]);
    CountsOfReport(Final(Step, Initial(sensor, alpha), input + [a]), TimeOf(a),
                   DetectedAt(Outputs(Step, Initial(sensor, alpha), input + [a])));
  }

  ghost predicate Counts(o: Report, seen: seq<real>, recent: seq<real>) {
    && o.detections == |seen|
    && if |recent| < 2 || recent[|recent| - 1] == recent[0] then o.headway.None?
       else o.headway == Some((recent[|recent| - 1] - recent[0]) / (|recent| - 1) as real)
  }

  /** Occupancy and speed of a record lie within the given bounds. */
  predicate Within(occupancy: real, speed: real, lo: (real, real), hi: (real, real)) {
    lo.0 <= occupancy <= hi.0 && lo.1 <= speed <= hi.1
  }

  /** The smoothed occupancy and speed stay between any bounds on their starts and their inputs. */
  lemma {:induction false} SmoothingStaysInHull(start: State, input: seq<Arrival>, lo: (real, real), hi: (real, real))
    requires 0.0 <= start.alpha <= 1.0
    requires Within(start.occupancy, start.speed, lo, hi)
    requires forall i :: 0 <= i < |input| ==>
               Within(input[i].record.Number("occupancy", 0.0), input[i].record.Number("speed_kmh", 0.0), lo, hi)
    ensures Within(Final(Step, start, input).occupancy, Final(Step, start, input).speed, lo, hi)
    ensures Final(Step, start, input).alpha == start.alpha
  {
    if input != [] {
      var init, r := input[..|input| - 1], input[|input| - 1].record;
      SmoothingStaysInHull(start, init, lo, hi);
      var s := Final(Step, start, init);
      BlendBetween(start.alpha, s.occupancy, r.Number("occupancy", 0.0), lo.0, hi.0);
      BlendBetween(start.alpha, s.speed, r.Number("speed_kmh", 0.0), lo.1, hi.1);
    }
  }

  // ---- when a vehicle is announced ----

  function Occupancies(input: seq<Arrival>): seq<real> {
    Map((a: Arrival) => a.record.Number("occupancy", 0.0), input)
  }

  function Speeds(input: seq<Arrival>): seq<real> {
    Map((a: Arrival) => a.record.Number("speed_kmh", 0.0), input)
  }

  lemma {:induction false} AveragesRun(start: State, input: seq<Arrival>)
    ensures var s := Final(Step, start, input);
            && s.alpha == start.alpha && s.sensor == start.sensor
            && s.occupancy == Running(start.alpha, start.occupancy, Occupancies(input))
            && s.speed == Running(start.alpha, start.speed, Speeds(input))
  {
    if input != [] {
      var init := input[..|input| - 1];
      AveragesRun(start, init);
      assert Occupancies(input)[..|input| - 1] == Occupancies(init);
      assert Speeds(input)[..|input| - 1] == Speeds(init);
    }
  }

  /** After any input the smoothed occupancy and speed are the batch averages of the readings. */
  lemma AveragesAreBatch(start: State, input: seq<Arrival>)
    ensures Final(Step, start, input).occupancy == BatchAverage(start.alpha, start.occupancy, Occupancies(input))
    ensures Final(Step, start, input).speed == BatchAverage(start.alpha, start.speed, Speeds(input))
  {
    AveragesRun(start, input);
    RunningIsBatch(start.alpha, start.occupancy, Occupancies(input));
    RunningIsBatch(start.alpha, start.speed, Speeds(input));
  }

  /** What a detector for `sensor` reports on an arrival, in terms of the batch averages with it. */
  predicate Announces(o: Report, sensor: string, occupancy: real, speed: real, a: Arrival) {
    && o.sensor == sensor && o.occupancy == occupancy && o.speed == speed
    && (o.detected <==> occupancy > 0.15 && speed > 2.0)
    && o.timestamp == if "timestamp" in a.record.numbers then a.record.numbers["timestamp"] else a.clock
  }

  lemma ReportAnnounces(s: State, a: Arrival)
    ensures var next := Step(s, a).0;
            |Step(s, a).1| == 1 && Announces(Step(s, a).1[0], s.sensor, next.occupancy, next.speed, a)
  {
  }

  /**
    A vehicle is reported exactly if the batch average of the occupancies, this one included, is
    above 0.15 and that of the speeds above 2.
   */
  lemma DetectsIff(start: State, input: seq<Arrival>, a: Arrival)
    ensures var out := Step(Final(Step, start, input), a).1;
            && |out| == 1
            && Announces(out[0], start.sensor,
                         BatchAverage(start.alpha, start.occupancy, Occupancies(input + [a])),
                         BatchAverage(start.alpha, start.speed, Speeds(input + [a])), a)
  {
    Snoc(Step, start, input, a);
    AveragesAreBatch(start, input + [a]);
    AveragesRun(start, input);
    ReportAnnounces(Final(Step, start, input), a);
  }

  // ---- restoring ----

  lemma StepStaysBounded(s: State, a: Arrival)
    requires |s.times| <= TIMES_KEPT
    ensures |Step(s, a).0.times| <= TIMES_KEPT && Step(s, a).0.sensor == s.sensor
  {
  }

  /** What a new operator holds after restoring an empty dictionary. */
  function Blank(target: State): State {
    Initial(target.sensor, 0.2)
  }

  lemma BlankIsRestoredNothing(target: State)
    ensures Restored(target, map[]) == Success(Blank(target))
  {
    RealsInListOf([]);
  }

  /** What a projection onto `fields` restores: each covered field, and the defaults. */
  function Partly(s: State, fields: set<string>): State {
    State(s.sensor,
          if "alpha" in fields then s.alpha else 0.2,
          if "ewma_occ" in fields then s.occupancy else 0.0,
          if "ewma_speed" in fields then s.speed else 0.0,
          if "detection_count" in fields then s.detections else 0,
          if "last_detection_ts" in fields then s.lastDetection else Null,
          if "detection_times" in fields then s.times else [])
  }

  lemma RestoresCovered(target: State, s: State, fields: set<string>)
    requires target.sensor == s.sensor && |s.times| <= TIMES_KEPT
    ensures Restored(target, Projected(s.Saved(), fields)) == Success(Partly(s, fields))
  {
    var kept := Projected(s.Saved(), fields);
    assert Get(kept, "alpha", Decimal(0.2)) == Decimal(if "alpha" in fields then s.alpha else 0.2);
    assert Get(kept, "ewma_occ", Decimal(0.0)) == Decimal(if "ewma_occ" in fields then s.occupancy else 0.0);
    assert Get(kept, "ewma_speed", Decimal(0.0)) == Decimal(if "ewma_speed" in fields then s.speed else 0.0);
    assert Get(kept, "detection_count", Whole(0)) == Whole(if "detection_count" in fields then s.detections else 0);
    assert Get(kept, "last_detection_ts", Null) == if "last_detection_ts" in fields then s.lastDetection else Null;
    var times := if "detection_times" in fields then s.times else [];
    assert Get(kept, "detection_times", ListOf([])) == ListOf(times);
    RealsInListOf(times);
  }

  lemma AgreementByField(target: State, s: State, fields: set<string>)
    requires target.sensor == s.sensor
    ensures AgreeOutside(s.Saved(), Blank(target).Saved(), fields) <==> Partly(s, fields) == s
  {
    var saved, blank := s.Saved(), Blank(target).Saved();
    assert saved.Keys == {"sensor_id", "alpha", "ewma_occ", "ewma_speed", "detection_count", "last_detection_ts",
                          "detection_times"}
        == blank.Keys;
    if AgreeOutside(saved, blank, fields) {
      assert "alpha" in saved && "ewma_occ" in saved && "ewma_speed" in saved;
      assert "detection_count" in saved && "last_detection_ts" in saved && "detection_times" in saved;
      if "detection_times" !in fields {
        ListOfInjective(s.times, []);
      }
    }
  }

  /** A projection restores the state exactly when every field it leaves out already had its default. */
  lemma RestoresIff(target: State, s: State, fields: set<string>)
    requires target.sensor == s.sensor && |s.times| <= TIMES_KEPT
    ensures Restored(target, Projected(s.Saved(), fields)) == Success(s)
       <==> AgreeOutside(s.Saved(), Blank(target).Saved(), fields)
  {
    RestoresCovered(target, s, fields);
    AgreementByField(target, s, fields);
  }
}
