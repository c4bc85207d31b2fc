/** The sliding-window aggregator of the traffic-sensor workload. */
module FeatureWindowModel {
  import opened Wrappers
  import opened Values
  import opened Sequences
  import opened Streams
  import opened OnlineStats

  /** The operator's fields. */
  datatype State = State(zone: string, windowSize: nat, window: seq<real>, emitEvery: nat, sinceEmit: nat) {

    /** `get_state`: the emit counter is not saved. */
    function Saved(): Fields {
      map["zone_id" := Text(zone), "window" := ListOf(window), "window_size" := Whole(windowSize),
          "emit_every" := Whole(emitEvery)]
    }

    /** The window fits and the emit counter has not reached its limit. */
    predicate Valid() {
      |window| <= windowSize && (sinceEmit == 0 || sinceEmit < emitEvery)
    }
  }

  /** The emitted record; `agg_stdev` is the square root of `variance`. */
  datatype Aggregate = Aggregate(zone: string, sum: real, mean: real, least: real, greatest: real, p95: real,
                                 variance: real, windowCount: nat, sourceTs: real)

  /** One record's outcome: nothing, an aggregate, or the exception of averaging an empty window. */
  datatype Emission = Quiet | Emitted(aggregate: Aggregate) | Raised

  function Initial(zone: string, windowSize: nat): State {
    State(zone, windowSize, [], 100, 0)
  }

  function Reading(r: Record): real {
    r.Number("normalized_value", 0.0)
  }

  function AggregateOf(zone: string, window: seq<real>, sourceTs: real): Emission {
    if window == [] then Raised
    else
      Emitted(Aggregate(zone, Sum(window), Mean(window), Least(window), Greatest(window), P95(window),
                        if |window| > 1 then SquaredDeviations(window, Mean(window)) / (|window| - 1) as real else 0.0,
                        |window|, sourceTs))
  }

  /** `process`. */
  function Step(s: State, r: Record): (State, Emission) {
    var pushed := s.(window := Push(s.window, Reading(r), s.windowSize));
    if s.sinceEmit + 1 < s.emitEvery then (pushed.(sinceEmit := s.sinceEmit + 1), Quiet)
    else (pushed.(sinceEmit := 0), AggregateOf(s.zone, pushed.window, r.Number("timestamp", 0.0)))
  }

  /** `restore_state`: the emit counter starts over and the zone is not restored. */
  function Restored(s: State, saved: Fields): Result<State, Misfit> {
    var size := AsNat(Get(saved, "window_size", Whole(1000)));
    var window := AsReals(Get(saved, "window", ListOf([])));
    var every := AsNat(Get(saved, "emit_every", Whole(100)));
    if size.Failure? then Failure(size.error)
    else if window.Failure? then Failure(window.error)
    else if every.Failure? then Failure(every.error)
    else Success(State(s.zone, size.value, LastN(window.value, size.value), every.value, 0))
  }

  class FeatureAggWindow {
    const zone: string
    var windowSize: nat
    var window: seq<real>
    var emitEvery: nat
    var sinceEmit: nat

    ghost function Current(): State
      reads this
    {
      State(zone, windowSize, window, emitEvery, sinceEmit)
    }

    constructor (zone: string, windowSize: nat)
      ensures Current() == Initial(zone, windowSize)
    {
      this.zone, this.windowSize := zone, windowSize;
      window, emitEvery, sinceEmit := [], 100, 0;
    }

    method Process(record: Record) returns (out: Emission)
      modifies this
      ensures (Current(), out) == Step(old(Current()), record)
    {
      window := Push(window, record.Number("normalized_value", 0.0), windowSize);
      sinceEmit := sinceEmit + 1;
      if sinceEmit < emitEvery {
        return Quiet;
      }
      sinceEmit := 0;
      out := AggregateOf(zone, window, record.Number("timestamp", 0.0));
    }

    method GetState() returns (state: Fields)
      ensures state == Current().Saved()
    {
      state := map["zone_id" := Text(zone), "window" := ListOf(window), "window_size" := Whole(windowSize),
                   "emit_every" := Whole(emitEvery)];
    }

    method RestoreState(state: Fields) returns (raised: Option<Misfit>)
      modifies this
      ensures raised.None? <==> Restored(old(Current()), state).Success?
      ensures raised.None? ==> Current() == Restored(old(Current()), state).value
      ensures raised.Some? ==> Restored(old(Current()), state) == Failure(raised.value)
    {
      var n := AsNat(Get(state, "window_size", Whole(1000)));
      if n.Failure? { return Some(n.error); }
      windowSize := n.value;
      var items := AsReals(Get(state, "window", ListOf([])));
      if items.Failure? { return Some(items.error); }
      window := LastN(items.value, windowSize);
      n := AsNat(Get(state, "emit_every", Whole(100)));
      if n.Failure? { return Some(n.error); }
      emitEvery := n.value;
      sinceEmit := 0;
      raised := None;
    }
  }

  function Readings(input: seq<Record>): seq<real> {
    Map(Reading, input)
  }

  // ---- what the window holds and what is emitted ----

  lemma ReadingsSnoc(input: seq<Record>)
    requires input != []
    ensures Readings(input) == Readings(input[..|input| - 1]) + [Reading(input[|input| - 1])]
  {
  }

  /** The window is always the last inputs, counted from whatever history `before` it started with. */
  lemma {:induction false} WindowIsLastInputs(start: State, before: seq<real>, input: seq<Record>)
    requires start.window == LastN(before, start.windowSize)
    ensures var s := Final(Step, start, input);
            && s.windowSize == start.windowSize && s.zone == start.zone && s.emitEvery == start.emitEvery
            && s.window == LastN(before + Readings(input), start.windowSize)
  {
    if input == [] {
      assert before + Readings(input) == before;
    } else {
      var init := input[..|input| - 1];
      WindowIsLastInputs(start, before, init);
      ReadingsSnoc(input);
      var v := Reading(input[|input| - 1]);
      PushKeepsLast(before + Readings(init), v, start.windowSize);
      assert before + Readings(input) == before + Readings(init) + [v];
    }
  }

  lemma NextOfHundred(n: nat)
    ensures (n + 1) % 100 == if n % 100 + 1 < 100 then n % 100 + 1 else 0
  {
  }

  lemma StepCounts(s: State, r: Record)
    ensures Step(s, r).0.emitEvery == s.emitEvery
    ensures Step(s, r).0.sinceEmit == if s.sinceEmit + 1 < s.emitEvery then s.sinceEmit + 1 else 0
  {
  }

  lemma {:induction false} CounterFollowsLength(start: State, input: seq<Record>)
    requires start.sinceEmit == 0 && start.emitEvery == 100
    ensures Final(Step, start, input).sinceEmit == |input| % 100
    ensures Final(Step, start, input).emitEvery == 100
  {
    if input != [] {
      CounterFollowsLength(start, input[..|input| - 1]);
      StepCounts(Final(Step, start, input[..|input| - 1]), input[|input| - 1]);
      NextOfHundred(|input| - 1);
    }
  }

  /** The figures of a window, each said without the code that computes it. */
  ghost predicate Describes(a: Aggregate, window: seq<real>) {
    && window != []
    && a.windowCount == |window|
    && a.sum == Sum(window) && a.mean == Mean(window)
    && a.least in window && (forall x :: x in window ==> a.least <= x)
    && a.greatest in window && (forall x :: x in window ==> x <= a.greatest)
    && a.p95 in window
    && (forall v {:trigger AtMost(window, v)} :: 20 * AtMost(window, v) >= 19 * |window| <==> a.p95 <= v)
    && a.variance == if |window| > 1 then SquaredDeviations(window, Mean(window)) / (|window| - 1) as real else 0.0
  }

  lemma DescribesWindow(zone: string, window: seq<real>, ts: real)
    requires window != []
    ensures Describes(AggregateOf(zone, window, ts).aggregate, window)
  {
    P95IsLeast(window);
    forall x | x in window
      ensures Least(window) <= x <= Greatest(window)
    {
      var i := PositionOf(window, x);
    }
  }

  /** One record's emission from a state whose window is `window` once the record is in. */
  lemma EmissionOf(s: State, r: Record, window: seq<real>)
    requires window != [] && window == Push(s.window, Reading(r), s.windowSize)
    ensures var out := Step(s, r).1;
            if s.sinceEmit + 1 < s.emitEvery then out == Quiet
            else
              out.Emitted? && Describes(out.aggregate, window) && out.aggregate.zone == s.zone
              && out.aggregate.sourceTs == r.Number("timestamp", 0.0)
  {
    DescribesWindow(s.zone, window, r.Number("timestamp", 0.0));
  }

  lemma StepPushes(s: State, r: Record)
    ensures Step(s, r).0.window == Push(s.window, Reading(r), s.windowSize)
  {
  }

  lemma WindowWithNext(start: State, input: seq<Record>, r: Record)
    requires start.window == []
    ensures var s := Final(Step, start, input);
            Push(s.window, Reading(r), s.windowSize) == LastN(Readings(input + [r]), start.windowSize)
  {
    WindowIsLastInputs(start, [], input);
    WindowIsLastInputs(start, [], input + [r]);
    Snoc(Step, start, input, r);
    StepPushes(Final(Step, start, input), r);
    assert [] + Readings(input + [r]) == Readings(input + [r]);
  }

  /** What record `r` must make an operator for `zone` emit, when `window` includes it and it is record number `n`. */
  ghost predicate EmitsAt(out: Emission, n: nat, zone: string, window: seq<real>, r: Record) {
    if n % 100 != 0 then out == Quiet
    else
      && out.Emitted?
      && Describes(out.aggregate, window)
      && out.aggregate.zone == zone && out.aggregate.sourceTs == r.Number("timestamp", 0.0)
  }

  lemma EmitsFrom(start: State, input: seq<Record>, r: Record)
    requires start.window == [] && start.sinceEmit == 0 && start.emitEvery == 100 && start.windowSize > 0
    ensures EmitsAt(Step(Final(Step, start, input), r).1, |input| + 1, start.zone,
                    LastN(Readings(input + [r]), start.windowSize), r)
  {
    CounterFollowsLength(start, input);
    NextOfHundred(|input|);
    WindowIsLastInputs(start, [], input);
    WindowWithNext(start, input, r);
    var s, window := Final(Step, start, input), LastN(Readings(input + [r]), start.windowSize);
    EmissionOf(s, r, window);
  }

  /**
    A new operator emits exactly at every 100th record, and then the figures of the last
    `windowSize` inputs; the 95th percentile is the least value that at least 95% of them
    do not exceed.
   */
  lemma EmitsWindowFigures(zone: string, windowSize: nat, input: seq<Record>, r: Record)
    requires windowSize > 0
    ensures EmitsAt(Step(Final(Step, Initial(zone, windowSize), input), r).1, |input| + 1, zone,
                    LastN(Readings(input + [r]), windowSize), r)
  {
    EmitsFrom(Initial(zone, windowSize), input, r);
  }

  // ---- the counter that is not saved ----

  lemma StepStaysValid(s: State, r: Record)
    requires s.Valid()
    ensures Step(s, r).0.Valid() && Step(s, r).0.zone == s.zone
  {
  }

  /** `n` further records, none of which makes the counter reach its limit. */
  lemma {:induction false} QuietUntil(s: State, input: seq<Record>)
    requires s.sinceEmit + |input| < s.emitEvery
    ensures Final(Step, s, input) == s.(sinceEmit := s.sinceEmit + |input|, window := Final(Step, s, input).window)
  {
    if input != [] {
      QuietUntil(s, input[..|input| - 1]);
    }
  }

  function Blanks(n: nat): (input: seq<Record>)
    ensures |input| == n
  {
    seq(n, _ => Record(map[], map[]))
  }

  /** The record at which the original emits is a quiet one for the restored operator. */
  lemma EmissionsPart(s: State, quiet: seq<Record>, r: Record)
    requires s.sinceEmit > 0 && s.sinceEmit + |quiet| + 1 == s.emitEvery
    ensures Outputs(Step, s.(sinceEmit := 0), quiet + [r])[|quiet|] == Quiet
    ensures Outputs(Step, s, quiet + [r])[|quiet|] != Quiet
  {
    QuietUntil(s, quiet);
    QuietUntil(s.(sinceEmit := 0), quiet);
    Snoc(Step, s, quiet, r);
    Snoc(Step, s.(sinceEmit := 0), quiet, r);
  }

  /**
    An operator restored with its counter at zero emits the same as the original on every
    continuation exactly when the original's counter was zero too.
   */
  lemma SameEmissionsIff(s: State)
    requires s.Valid()
    ensures (forall input :: Outputs(Step, s.(sinceEmit := 0), input) == Outputs(Step, s, input)) <==> s.sinceEmit == 0
  {
    if s.sinceEmit != 0 {
      var quiet, r := Blanks(s.emitEvery - s.sinceEmit - 1), Record(map[], map[]);
      EmissionsPart(s, quiet, r);
      assert Outputs(Step, s.(sinceEmit := 0), quiet + [r]) != Outputs(Step, s, quiet + [r]);
    } else {
      assert s.(sinceEmit := 0) == s;
    }
  }

  /** Whatever the counter, the restored window goes on as the original one. */
  lemma WindowSurvives(s: State, input: seq<Record>)
    requires s.Valid()
    ensures Final(Step, s.(sinceEmit := 0), input).window == Final(Step, s, input).window
  {
    WindowIsLastInputs(s, s.window, input);
    WindowIsLastInputs(s.(sinceEmit := 0), s.window, input);
  }

  // ---- restoring ----

  /** What a new operator holds after restoring an empty dictionary. */
  function Blank(target: State): State {
    State(target.zone, 1000, [], 100, 0)
  }

  lemma BlankIsRestoredNothing(target: State)
    ensures Restored(target, map[]) == Success(Blank(target))
  {
    RealsInListOf([]);
  }

  /** What a projection onto `fields` restores: each covered field, and the defaults. */
  function Partly(s: State, fields: set<string>): State {
    var size := if "window_size" in fields then s.windowSize else 1000;
    State(s.zone, size, LastN(if "window" in fields then s.window else [], size),
          if "emit_every" in fields then s.emitEvery else 100, 0)
  }

  lemma RestoresCovered(target: State, s: State, fields: set<string>)
    requires target.zone == s.zone
    ensures Restored(target, Projected(s.Saved(), fields)) == Success(Partly(s, fields))
  {
    var kept := Projected(s.Saved(), fields);
    assert Get(kept, "window_size", Whole(1000)) == Whole(if "window_size" in fields then s.windowSize else 1000);
    assert Get(kept, "emit_every", Whole(100)) == Whole(if "emit_every" in fields then s.emitEvery else 100);
    var window := if "window" in fields then s.window else [];
    assert Get(kept, "window", ListOf([])) == ListOf(window);
    RealsInListOf(window);
  }

  lemma AgreementByField(target: State, s: State, fields: set<string>)
    requires target.zone == s.zone && s.Valid()
    ensures AgreeOutside(s.Saved(), Blank(target).Saved(), fields) && s.sinceEmit == 0 <==> Partly(s, fields) == s
  {
    var saved, blank := s.Saved(), Blank(target).Saved();
    assert saved.Keys == {"zone_id", "window", "window_size", "emit_every"} == blank.Keys;
    if AgreeOutside(saved, blank, fields) {
      assert "window" in saved && "window_size" in saved && "emit_every" in saved;
      if "window" !in fields {
        ListOfInjective(s.window, []);
      }
    }
  }

  /**
    A projection restores the state exactly when every field it leaves out already had its
    default and the emit counter was at zero.
   */
  lemma RestoresIff(target: State, s: State, fields: set<string>)
    requires target.zone == s.zone && s.Valid()
    ensures Restored(target, Projected(s.Saved(), fields)) == Success(s)
       <==> AgreeOutside(s.Saved(), Blank(target).Saved(), fields) && s.sinceEmit == 0
  {
    RestoresCovered(target, s, fields);
    AgreementByField(target, s, fields);
  }
}
