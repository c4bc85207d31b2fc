/** The statistical aggregator of the market-data workload. */
module StatAggregatorModel {
  import opened Wrappers
  import opened Values
  import opened Sequences
  import opened Streams
  import opened OnlineStats

  /** The operator's fields. `low` and `high` are absent while still infinite. */
  datatype State = State(instrumentClass: Value, count: nat, mean: real, m2: real,
                         low: Option<real>, high: Option<real>) {

    function AsMoments(): Moments {
      Moments(count, mean, m2)
    }

    /** `get_state`. */
    function Saved(): Fields {
      map["instrument_class" := instrumentClass, "count" := Whole(count), "mean" := Decimal(mean),
          "m2" := Decimal(m2), "min" := OptionalNumber(low), "max" := OptionalNumber(high)]
    }
  }

  /** The emitted record. Its `std` is the square root of `variance`. */
  datatype Summary = Summary(instrumentClass: Value, count: nat, mean: real, variance: real,
                             low: Option<real>, high: Option<real>)

  function Initial(instrumentClass: Value): State {
    State(instrumentClass, 0, 0.0, 0.0, None, None)
  }

  function Reading(r: Record): real {
    r.Number("value", 0.0)
  }

  function Lower(low: Option<real>, v: real): real {
    if low.Some? && low.value <= v then low.value else v
  }

  function Higher(high: Option<real>, v: real): real {
    if high.Some? && v <= high.value then high.value else v
  }

  function SampleVariance(m: Moments): real {
    if m.count > 1 then m.m2 / (m.count - 1) as real else 0.0
  }

  function Updated(s: State, v: real): State {
    var m := s.AsMoments().Add(v);
    State(s.instrumentClass, m.count, m.mean, m.m2, Some(Lower(s.low, v)), Some(Higher(s.high, v)))
  }

  function Emitted(s: State): seq<Summary> {
    if s.count % 500 == 0 then
      [Summary(s.instrumentClass, s.count, s.mean, SampleVariance(s.AsMoments()), s.low, s.high)]
    else []
  }

  /** `process`: the new fields and what is emitted. */
  function Step(s: State, r: Record): (State, seq<Summary>) {
    var next := Updated(s, Reading(r));
    (next, Emitted(next))
  }

  function Bound(v: Value): Result<Option<real>, Misfit> {
    if v == Null then Success(None)
    else
      var x := AsReal(v);
      if x.Success? then Success(Some(x.value)) else Failure(x.error)
  }

  /** `restore_state` on an operator in state `s`. */
  function Restored(s: State, saved: Fields): Result<State, Misfit> {
    var count := AsNat(Get(saved, "count", Whole(0)));
    var mean := AsReal(Get(saved, "mean", Decimal(0.0)));
    var m2 := AsReal(Get(saved, "m2", Decimal(0.0)));
    var low := Bound(Get(saved, "min", Null));
    var high := Bound(Get(saved, "max", Null));
    if count.Failure? then Failure(count.error)
    else if mean.Failure? then Failure(mean.error)
    else if m2.Failure? then Failure(m2.error)
    else if low.Failure? then Failure(low.error)
    else if high.Failure? then Failure(high.error)
    else Success(State(Get(saved, "instrument_class", s.instrumentClass), count.value, mean.value, m2.value,
                       low.value, high.value))
  }

  class StatAggregator {
    var instrumentClass: Value
    var count: nat
    var mean: real
    var m2: real
    var low: Option<real>
    var high: Option<real>

    ghost function Current(): State
      reads this
    {
      State(instrumentClass, count, mean, m2, low, high)
    }

    constructor (instrumentClass: Value)
      ensures Current() == Initial(instrumentClass)
    {
      this.instrumentClass := instrumentClass;
      count, mean, m2, low, high := 0, 0.0, 0.0, None, None;
    }

    method Process(record: Record) returns (out: seq<Summary>)
      modifies this
      ensures (Current(), out) == Step(old(Current()), record)
    {
      ghost var next := Updated(Current(), Reading(record));
      var value := record.Number("value", 0.0);
      count := count + 1;
      var delta := value - mean;
      mean := mean + delta / count as real;
      assert mean == next.mean;
      m2 := m2 + delta * (value - mean);
      assert m2 == next.m2;
      low := Some(Lower(low, value));
      high := Some(Higher(high, value));
      assert Current() == next;
      out := [];
      if count % 500 == 0 {
        var variance := if count > 1 then m2 / (count - 1) as real else 0.0;
        out := [Summary(instrumentClass, count, mean, variance, low, high)];
      }
    }

    method GetState() returns (state: Fields)
      ensures state == Current().Saved()
    {
      state := map["instrument_class" := instrumentClass, "count" := Whole(count), "mean" := Decimal(mean),
                   "m2" := Decimal(m2), "min" := OptionalNumber(low), "max" := OptionalNumber(high)];
    }

    /** Assigns field by field and stops at the first value that does not convert. */
    method RestoreState(state: Fields) returns (raised: Option<Misfit>)
      modifies this
      ensures raised.None? <==> Restored(old(Current()), state).Success?
      ensures raised.None? ==> Current() == Restored(old(Current()), state).value
      ensures raised.Some? ==> Restored(old(Current()), state) == Failure(raised.value)
    {
      instrumentClass := Get(state, "instrument_class", instrumentClass);
      var n := AsNat(Get(state, "count", Whole(0)));
      if n.Failure? { return Some(n.error); }
      count := n.value;
      var x := AsReal(Get(state, "mean", Decimal(0.0)));
      if x.Failure? { return Some(x.error); }
      mean := x.value;
      x := AsReal(Get(state, "m2", Decimal(0.0)));
      if x.Failure? { return Some(x.error); }
      m2 := x.value;
      var b := Bound(Get(state, "min", Null));
      if b.Failure? { return Some(b.error); }
      low := b.value;
      b := Bound(Get(state, "max", Null));
      if b.Failure? { return Some(b.error); }
      high := b.value;
      raised := None;
    }
  }

  function Readings(input: seq<Record>): seq<real> {
    Map(Reading, input)
  }

  /** `x` is a least element of `xs`. */
  ghost predicate IsLeast(x: Option<real>, xs: seq<real>) {
    if xs == [] then x.None?
    else x.Some? && x.value in xs && forall i :: 0 <= i < |xs| ==> x.value <= xs[i]
  }

  ghost predicate IsGreatest(x: Option<real>, xs: seq<real>) {
    if xs == [] then x.None?
    else x.Some? && x.value in xs && forall i :: 0 <= i < |xs| ==> xs[i] <= x.value
  }

  lemma BoundsWithNext(low: Option<real>, high: Option<real>, xs: seq<real>, v: real)
    requires IsLeast(low, xs) && IsGreatest(high, xs)
    ensures IsLeast(Some(Lower(low, v)), xs + [v]) && IsGreatest(Some(Higher(high, v)), xs + [v])
  {
    assert v in xs + [v];
    assert forall x :: x in xs ==> x in xs + [v];
  }

  lemma {:induction false} RunningFields(kind: Value, input: seq<Record>)
    ensures var s := Final(Step, Initial(kind), input);
            && s.instrumentClass == kind
            && s.AsMoments() == MomentsOf(Readings(input))
            && IsLeast(s.low, Readings(input))
            && IsGreatest(s.high, Readings(input))
  {
    if input != [] {
      var init, r := input[..|input| - 1], input[|input| - 1];
      RunningFields(kind, init);
      var s := Final(Step, Initial(kind), init);
      assert Readings(input) == Readings(init) + [Reading(r)];
      assert Readings(input)[..|input| - 1] == Readings(init);
      BoundsWithNext(s.low, s.high, Readings(init), Reading(r));
    }
  }

  /** The fields of `s` are the batch count, mean, squared deviations, minimum and maximum of `xs`. */
  ghost predicate Aggregates(s: State, xs: seq<real>) {
    && s.count == |xs|
    && (xs != [] ==> s.mean == Mean(xs))
    && s.m2 == SquaredDeviations(xs, s.mean)
    && s.m2 >= 0.0
    && IsLeast(s.low, xs)
    && IsGreatest(s.high, xs)
  }

  /** The summary reports the batch figures of `xs`, with the sample variance. */
  ghost predicate Summarises(o: Summary, xs: seq<real>) {
    && |xs| > 1
    && o.count == |xs|
    && o.mean == Mean(xs)
    && o.variance == SquaredDeviations(xs, Mean(xs)) / (|xs| - 1) as real
    && IsLeast(o.low, xs)
    && IsGreatest(o.high, xs)
  }

  lemma AggregatesTheWholeInput(kind: Value, input: seq<Record>)
    ensures Aggregates(Final(Step, Initial(kind), input), Readings(input))
  {
    RunningFields(kind, input);
    MomentsAreBatchMoments(Readings(input));
    SquaresNonNegative(Readings(input), Final(Step, Initial(kind), input).mean);
  }

  lemma SummaryOfAggregate(s: State, xs: seq<real>)
    requires Aggregates(s, xs) && xs != []
    ensures if |xs| % 500 == 0 then |Emitted(s)| == 1 && Summarises(Emitted(s)[0], xs) else Emitted(s) == []
  {
  }

  /** A summary appears exactly at every 500th record and reports the batch figures of the input so far. */
  lemma EmitsBatchFigures(kind: Value, input: seq<Record>, r: Record)
    ensures var xs := Readings(input + [r]);
            var out := Step(Final(Step, Initial(kind), input), r).1;
            if |xs| % 500 == 0 then |out| == 1 && Summarises(out[0], xs) else out == []
  {
    Snoc(Step, Initial(kind), input, r);
    AggregatesTheWholeInput(kind, input + [r]);
    SummaryOfAggregate(Final(Step, Initial(kind), input + [r]), Readings(input + [r]));
  }

  /** What a new operator holds after restoring an empty dictionary. */
  function Blank(target: State): State {
    Initial(target.instrumentClass)
  }

  lemma BlankIsRestoredNothing(target: State)
    ensures Restored(target, map[]) == Success(Blank(target))
  {
  }

  /** What a projection onto `fields` restores: each covered field, and the defaults. */
  function Partly(target: State, s: State, fields: set<string>): State {
    State(if "instrument_class" in fields then s.instrumentClass else target.instrumentClass,
          if "count" in fields then s.count else 0,
          if "mean" in fields then s.mean else 0.0,
          if "m2" in fields then s.m2 else 0.0,
          if "min" in fields then s.low else None,
          if "max" in fields then s.high else None)
  }

  lemma RestoresCovered(target: State, s: State, fields: set<string>)
    ensures Restored(target, Projected(s.Saved(), fields)) == Success(Partly(target, s, fields))
  {
    var saved := s.Saved();
    var kept := Projected(saved, fields);
    assert Get(kept, "instrument_class", target.instrumentClass)
        == if "instrument_class" in fields then s.instrumentClass else target.instrumentClass;
    assert Get(kept, "count", Whole(0)) == Whole(if "count" in fields then s.count else 0);
    assert Get(kept, "mean", Decimal(0.0)) == Decimal(if "mean" in fields then s.mean else 0.0);
    assert Get(kept, "m2", Decimal(0.0)) == Decimal(if "m2" in fields then s.m2 else 0.0);
    assert Get(kept, "min", Null) == OptionalNumber(if "min" in fields then s.low else None);
    assert Get(kept, "max", Null) == OptionalNumber(if "max" in fields then s.high else None);
  }

  lemma AgreementByField(target: State, s: State, fields: set<string>)
    ensures AgreeOutside(s.Saved(), Blank(target).Saved(), fields) <==> Partly(target, s, fields) == s
  {
    var saved, blank := s.Saved(), Blank(target).Saved();
    assert saved.Keys == {"instrument_class", "count", "mean", "m2", "min", "max"} == blank.Keys;
    if AgreeOutside(saved, blank, fields) {
      assert "instrument_class" in saved && "count" in saved && "mean" in saved;
      assert "m2" in saved && "min" in saved && "max" in saved;
    }
  }

  /** A projection restores the state exactly when every field it leaves out already had its default. */
  lemma RestoresIff(target: State, s: State, fields: set<string>)
    ensures Restored(target, Projected(s.Saved(), fields)) == Success(s)
       <==> AgreeOutside(s.Saved(), Blank(target).Saved(), fields)
  {
    RestoresCovered(target, s, fields);
    AgreementByField(target, s, fields);
  }
}
