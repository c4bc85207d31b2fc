/** The Java statistical aggregator and how it follows the Python one. */
module JavaStatAggregatorModel {
  import opened Values
  import opened Sequences
  import opened Streams
  import opened OnlineStats
  import opened FlinkReader
  import Python = StatAggregatorModel

  /** The three entries of the state map that the operator reads. */
  datatype State = State(count: int, sum: real, m2: real)

  datatype Summary = Summary(count: int, sum: real, mean: real, variance: real)

  /** `getDouble`: the default stands in for anything that is not a number. */
  function GetDouble(m: Fields, key: string, default: real): real {
    match Get(m, key, Null)
    case Decimal(x) => x
    case Whole(n) => n as real
    case _ => default
  }

  /** `getLong`. */
  function GetLong(m: Fields, key: string, default: int): int {
    match Get(m, key, Null)
    case Decimal(x) => Clamped(x)
    case Whole(n) => n
    case _ => default
  }

  function Seen(m: Fields): State {
    State(GetLong(m, "count", 0), GetDouble(m, "sum", 0.0), GetDouble(m, "m2", 0.0))
  }

  const EMPTY := State(0, 0.0, 0.0)

  function Reading(r: Record): real {
    r.Number("value", 0.0)
  }

  function AtLeastOne(n: int): (m: int)
    ensures m >= 1
  {
    if n > 1 then n else 1
  }

  /** The distance of a new value from the mean of the earlier ones, as the sum and the count give it. */
  function Delta(s: State, v: real): real {
    v - s.sum / AtLeastOne(s.count) as real
  }

  /** The quotient by a count; by zero it is no number, which zero stands for here. */
  function Over(x: real, n: int): real {
    if n == 0 then 0.0 else x / n as real
  }

  function MeanWith(s: State, v: real): real {
    Over(s.sum + v, s.count + 1)
  }

  function Accumulated(m2: real, before: real, after: real): real {
    m2 + before * after
  }

  function Next(s: State, v: real): State {
    State(s.count + 1, s.sum + v, Accumulated(s.m2, Delta(s, v), v - MeanWith(s, v)))
  }

  function Report(s: State): Summary {
    Summary(s.count, s.sum, Over(s.sum, s.count),
            if s.count > 1 then s.m2 / (s.count - 1) as real else 0.0)
  }

  /** The operator logic: the state map after one record, and the summary that every record emits. */
  function Step(s: State, r: Record): (State, Summary) {
    (Next(s, Reading(r)), Report(Next(s, Reading(r))))
  }

  /** The logic on the state map itself: it replaces the three entries and keeps the others. */
  method Process(record: Record, state: Fields) returns (newState: Fields, output: Summary)
    requires GetLong(state, "count", 0) != -1
    ensures (Seen(newState), output) == Step(Seen(state), record)
    ensures newState - {"count", "sum", "m2"} == state - {"count", "sum", "m2"}
  {
    ghost var before := Seen(state);
    var value := record.Number("value", 0.0);
    var count := GetLong(state, "count", 0) + 1;
    var sum := GetDouble(state, "sum", 0.0) + value;
    var mean := sum / count as real;
    assert mean == MeanWith(before, value);
    var earlier := sum - value;
    assert earlier == before.sum;
    var delta := value - earlier / AtLeastOne(count - 1) as real;
    assert delta == Delta(before, value);
    var m2 := Accumulated(GetDouble(state, "m2", 0.0), delta, value - mean);
    ghost var next := Next(before, value);
    assert m2 == next.m2;
    newState := Put(state, count, sum, m2);
    output := Summary(count, sum, mean, if count > 1 then m2 / (count - 1) as real else 0.0);
    assert output == Report(next);
  }

  /** The state map with the three entries replaced. */
  function Put(state: Fields, count: int, sum: real, m2: real): (next: Fields)
    ensures Seen(next) == State(count, sum, m2)
    ensures next - {"count", "sum", "m2"} == state - {"count", "sum", "m2"}
  {
    state["count" := Whole(count)]["sum" := Decimal(sum)]["m2" := Decimal(m2)]
  }

  // ---- following the Python operator ----

  /** What the values seen so far add up to. */
  function Total(p: Python.State): real {
    p.mean * p.count as real
  }

  /** Equal counts and squared deviations, and a sum that is the mean times the count. */
  predicate Simulates(j: State, p: Python.State) {
    && j.count == p.count
    && j.m2 == p.m2
    && j.sum == Total(p)
    && (p.count == 0 ==> p.mean == 0.0)
  }

  /** The Java summary carries the Python operator's figures. */
  predicate Reports(o: Summary, p: Python.State) {
    && o.count == p.count
    && o.mean == p.mean
    && o.sum == Total(p)
    && o.variance == Python.SampleVariance(p.AsMoments())
  }

  lemma QuotientOfProduct(x: real, n: real)
    requires n != 0.0
    ensures x * n / n == x
  {
  }

  lemma SumWithNext(mean: real, n: nat, v: real)
    ensures mean * n as real + v == (mean + (v - mean) / (n + 1) as real) * (n + 1) as real
  {
    var d := (v - mean) / (n + 1) as real;
    assert d * (n + 1) as real == v - mean;
    assert (mean + d) * (n + 1) as real == mean * (n + 1) as real + d * (n + 1) as real;
    assert mean * (n + 1) as real == mean * n as real + mean;
  }

  lemma SameDelta(j: State, p: Python.State, v: real)
    requires Simulates(j, p)
    ensures Delta(j, v) == v - p.mean
  {
    if p.count > 0 {
      QuotientOfProduct(p.mean, p.count as real);
    }
  }

  lemma SameMean(j: State, p: Python.State, v: real)
    requires Simulates(j, p)
    ensures MeanWith(j, v) == p.AsMoments().MeanWith(v)
    ensures j.sum + v == p.AsMoments().MeanWith(v) * (p.count + 1) as real
  {
    SumWithNext(p.mean, p.count, v);
    QuotientOfProduct(p.AsMoments().MeanWith(v), (p.count + 1) as real);
  }

  /** One record keeps the two in step, and the Java summary has the Python figures. */
  lemma StepSimulates(j: State, p: Python.State, r: Record)
    requires Simulates(j, p)
    ensures Simulates(Step(j, r).0, Python.Step(p, r).0)
    ensures Reports(Step(j, r).1, Python.Step(p, r).0)
  {
    var v := Reading(r);
    SameDelta(j, p, v);
    SameMean(j, p, v);
    NextSimulates(j, p, v);
    var next := Next(j, v);
    QuotientOfProduct(Python.Updated(p, v).mean, next.count as real);
  }

  lemma NextSimulates(j: State, p: Python.State, v: real)
    requires j.count == p.count && j.m2 == p.m2
    requires Delta(j, v) == v - p.mean
    requires MeanWith(j, v) == p.AsMoments().MeanWith(v)
    requires j.sum + v == p.AsMoments().MeanWith(v) * (p.count + 1) as real
    ensures Simulates(Next(j, v), Python.Updated(p, v))
  {
  }

  lemma {:induction false} RunSimulates(j: State, p: Python.State, input: seq<Record>)
    requires Simulates(j, p)
    ensures Simulates(Final(Step, j, input), Final(Python.Step, p, input))
  {
    if input != [] {
      var init := input[..|input| - 1];
      RunSimulates(j, p, init);
      StepSimulates(Final(Step, j, init), Final(Python.Step, p, init), input[|input| - 1]);
    }
  }

  /** From the start, on every stream, each Java summary reports the Python operator's figures. */
  lemma SimulatesFromStart(kind: Value, input: seq<Record>, r: Record)
    ensures Simulates(Final(Step, EMPTY, input), Final(Python.Step, Python.Initial(kind), input))
    ensures Reports(Step(Final(Step, EMPTY, input), r).1,
                    Final(Python.Step, Python.Initial(kind), input + [r]))
  {
    RunSimulates(EMPTY, Python.Initial(kind), input);
    StepSimulates(Final(Step, EMPTY, input), Final(Python.Step, Python.Initial(kind), input), r);
    Snoc(Python.Step, Python.Initial(kind), input, r);
  }

  // ---- restoring the Python operator's state in Java ----

  /** The Java operator as it starts from what a Python operator saved. */
  function Restored(p: Python.State, fields: set<string>): State {
    Seen(Projected(p.Saved(), fields))
  }

  /** The Python state has a mean and no sum, so whatever the schema the sum restarts at zero. */
  lemma SumIsLost(p: Python.State, fields: set<string>)
    ensures Restored(p, fields)
         == State(if "count" in fields then p.count else 0, 0.0, if "m2" in fields then p.m2 else 0.0)
  {
    assert "sum" !in p.Saved();
    assert p.Saved()["count"] == Whole(p.count) && p.Saved()["m2"] == Decimal(p.m2);
  }

  lemma ShiftedMeans(mean: real, n: nat, v: real)
    requires v / (n + 1) as real == mean + (v - mean) / (n + 1) as real
    ensures mean * n as real == 0.0
  {
    var d := (v - mean) / (n + 1) as real;
    SumWithNext(mean, n, v);
    assert v / (n + 1) as real * (n + 1) as real == v;
  }

  /** All summaries from `j` on report the figures of a Python operator going on from `p`. */
  ghost predicate FollowsFrom(j: State, p: Python.State) {
    forall input, r {:trigger Follows(j, p, input, r)} :: Follows(j, p, input, r)
  }

  ghost predicate Follows(j: State, p: Python.State, input: seq<Record>, r: Record) {
    Reports(Step(Final(Step, j, input), r).1, Final(Python.Step, p, input + [r]))
  }

  lemma FollowsWhenSimulating(j: State, p: Python.State)
    requires Simulates(j, p)
    ensures FollowsFrom(j, p)
  {
    forall input: seq<Record>, r: Record
      ensures Follows(j, p, input, r)
    {
      RunSimulates(j, p, input);
      StepSimulates(Final(Step, j, input), Final(Python.Step, p, input), r);
      Snoc(Python.Step, p, input, r);
    }
  }

  lemma FirstSummary(j: State, p: Python.State, r: Record)
    requires j.sum == 0.0 && Follows(j, p, [], r)
    ensures j.count == p.count && Total(p) == 0.0
  {
    Snoc(Python.Step, p, [], r);
    var v := Reading(r);
    assert Final(Python.Step, p, [] + [r]) == Python.Updated(p, v);
    assert Step(j, r).1.mean == v / (p.count + 1) as real;
    ShiftedMeans(p.mean, p.count, v);
  }

  lemma SameQuotient(x: real, y: real, n: real)
    requires n != 0.0 && x / n == y / n
    ensures x == y
  {
    assert x / n * n == x && y / n * n == y;
  }

  lemma AddedAlike(a: real, b: real, x: real, y: real)
    requires a + x == b + y && x == y
    ensures a == b
  {
  }

  /** Equal variances after one more record mean equal squared deviations before it. */
  lemma SameM2(j: State, p: Python.State, r: Record)
    requires j.sum == 0.0 && j.count == p.count > 0 && p.mean == 0.0
    requires Follows(j, p, [], r)
    ensures j.m2 == p.m2
  {
    var v := Reading(r);
    Snoc(Python.Step, p, [], r);
    assert Final(Python.Step, p, [] + [r]) == Python.Updated(p, v);
    var n := p.count as real;
    assert Step(j, r).1.variance == Next(j, v).m2 / n;
    assert Python.SampleVariance(Python.Updated(p, v).AsMoments()) == Python.Updated(p, v).m2 / n;
    SameQuotient(Next(j, v).m2, Python.Updated(p, v).m2, n);
    SameDelta(j.(m2 := p.m2), p, v);
    SameMean(j.(m2 := p.m2), p, v);
    AddedAlike(j.m2, p.m2, Delta(j, v) * (v - MeanWith(j, v)), (v - p.mean) * (v - p.AsMoments().MeanWith(v)));
  }

  lemma ZeroFactor(mean: real, n: nat)
    requires mean * n as real == 0.0 && n > 0
    ensures mean == 0.0
  {
  }

  /**
    A Java operator whose sum starts at zero goes on reporting a Python operator's figures exactly
    if it has the same count and squared deviations and the values seen so far add up to zero.
   */
  lemma FollowsWithoutSumIff(j: State, p: Python.State)
    requires j.sum == 0.0
    requires p.count == 0 ==> p.mean == 0.0 && p.m2 == 0.0 && j.m2 == 0.0
    ensures FollowsFrom(j, p) <==> j.count == p.count && j.m2 == p.m2 && Total(p) == 0.0
  {
    if j.count == p.count && j.m2 == p.m2 && Total(p) == 0.0 {
      FollowsWhenSimulating(j, p);
    } else if FollowsFrom(j, p) {
      var r := Record(map[], map[]);
      assert Follows(j, p, [], r);
      FirstSummary(j, p, r);
      if p.count > 0 {
        ZeroFactor(p.mean, p.count);
        SameM2(j, p, r);
      }
    }
  }

  /**
    After a migration to Java the summaries go on as the Python operator's would exactly when the
    schema keeps count and m2, or nothing had been counted, and the values aggregated so far add
    up to zero.
   */
  lemma FollowsAfterRestoreIff(p: Python.State, fields: set<string>)
    requires p.count == 0 ==> p.mean == 0.0 && p.m2 == 0.0
    ensures FollowsFrom(Restored(p, fields), p) <==>
              && ("count" in fields || p.count == 0)
              && ("m2" in fields || p.m2 == 0.0)
              && Total(p) == 0.0
  {
    SumIsLost(p, fields);
    FollowsWithoutSumIff(Restored(p, fields), p);
  }

  lemma TotalOf(p: Python.State, total: real, squares: real)
    requires Expands(p.AsMoments(), total, squares)
    ensures Total(p) == total
  {
  }

  lemma TotalOfRun(kind: Value, input: seq<Record>)
    ensures Total(Final(Python.Step, Python.Initial(kind), input)) == Sum(Python.Readings(input))
  {
    var xs := Python.Readings(input);
    Python.RunningFields(kind, input);
    MomentsExpand(xs);
    TotalOf(Final(Python.Step, Python.Initial(kind), input), Sum(xs), SumOfSquares(xs));
  }

  lemma Untouched(kind: Value, input: seq<Record>)
    ensures var p := Final(Python.Step, Python.Initial(kind), input);
            p.count == 0 ==> p.mean == 0.0 && p.m2 == 0.0
  {
    Python.RunningFields(kind, input);
    MomentsCount(Python.Readings(input));
  }

  /** After a migration at the end of `input` the Java summaries go on as the Python operator's would. */
  ghost predicate GoesOn(kind: Value, input: seq<Record>, fields: set<string>) {
    FollowsFrom(Restored(Final(Python.Step, Python.Initial(kind), input), fields),
                Final(Python.Step, Python.Initial(kind), input))
  }

  /** The schema keeps count and m2, or there is nothing in them, and the readings add up to zero. */
  predicate NothingLost(kind: Value, input: seq<Record>, fields: set<string>) {
    && ("count" in fields || input == [])
    && ("m2" in fields || Final(Python.Step, Python.Initial(kind), input).m2 == 0.0)
    && Sum(Python.Readings(input)) == 0.0
  }

  /** The same in terms of the input of a new Python operator. */
  lemma {:induction false} FollowsAfterMigrationIff(kind: Value, input: seq<Record>, fields: set<string>)
    ensures GoesOn(kind, input, fields) <==> NothingLost(kind, input, fields)
  {
    TotalOfRun(kind, input);
    Untouched(kind, input);
    Python.RunningFields(kind, input);
    MomentsCount(Python.Readings(input));
    FollowsAfterRestoreIff(Final(Python.Step, Python.Initial(kind), input), fields);
  }
}
