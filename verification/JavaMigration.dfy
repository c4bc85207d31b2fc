/** Moving an operator to Flink: the snapshot that Python writes, as the Java side receives it. */
module JavaMigration {
  import opened Wrappers
  import opened Values
  import opened Streams
  import opened Operators
  import opened Snapshots
  import opened FlinkReader
  import opened Resuming
  import opened StateMigration
  import Java = JavaStatAggregatorModel
  import Python = StatAggregatorModel

  /** The state map that the connector hands to the operator, or the exception on the way. */
  function FlinkState(bytes: seq<SignedByte>, class_: string, java: JavaRegistry, unpack: JavaUnpack, lib: Library)
    : Result<Fields, ReaderError>
  {
    var raw := ReadBytes(bytes, class_, java, unpack);
    if raw.Failure? then raw
    else if class_ !in java.types then Failure(NoSchema)
    else if Translatable(raw.value, java.types[class_], lib) then
      Success(Translated(raw.value, java.types[class_], lib))
    else Failure(NumberFormat)
  }

  /** The connector's two calls, one after the other. */
  method Receive(bytes: array<SignedByte>, class_: string, java: JavaRegistry, unpack: JavaUnpack, lib: Library)
    returns (state: Result<Fields, ReaderError>)
    ensures state == FlinkState(bytes[..], class_, java, unpack, lib)
  {
    var raw := Deserialize(bytes, class_, java, unpack);
    if raw.Failure? {
      return raw;
    }
    state := TranslateToFlinkState(raw.value, class_, java, lib);
  }

  // ---- Migration snapshots have text keys -------------------------------------------------------

  /** The values that an operator stores as they come have no mapping with other keys than text. */
  predicate PlainLabels(op: Operator) {
    match op
    case Stat(s) => TextKeyed(s.instrumentClass)
    case Anomaly(s) => TextKeyed(s.metricClass)
    case Vehicle(s) => TextKeyed(s.lastDetection)
    case _ => true
  }

  lemma {:induction false} LabelsStayPlain(start: Operator, input: seq<Arrival>)
    requires PlainLabels(start)
    ensures PlainLabels(Final(Step, start, input))
  {
    if input != [] {
      LabelsStayPlain(start, input[..|input| - 1]);
    }
  }

  lemma ListIsTextKeyed(xs: seq<real>)
    ensures TextKeyed(ListOf(xs))
  {
    assert forall i :: 0 <= i < |xs| ==> TextKeyed(ListOf(xs).items[i]);
  }

  lemma ZonesAreTextKeyed(zones: P.Zones)
    ensures TextKeyed(Mapped(zones.Entries()))
  {
    forall i | 0 <= i < |zones.Entries()|
      ensures zones.Entries()[i].0.Text? && TextKeyed(zones.Entries()[i].1)
    {
      ListIsTextKeyed(if zones.order[i] in zones.history then zones.history[zones.order[i]] else []);
    }
  }

  lemma SavedIsTextKeyed(op: Operator)
    requires PlainLabels(op)
    ensures AllTextKeyed(Saved(op))
  {
    match op
    case Stat(s) =>
    case Normalizer(s) =>
    case Anomaly(s) => ListIsTextKeyed(s.squaredScores);
    case Vehicle(s) => ListIsTextKeyed(s.times);
    case Pattern(s) => ZonesAreTextKeyed(s.zones);
    case Window(s) => ListIsTextKeyed(s.window);
  }

  lemma DocumentIsTextKeyed(class_: string, schema: Schema, op: Operator, drain: DrainOffsets)
    requires PlainLabels(op)
    ensures AllTextKeyed(DocumentOf(class_, schema, WithOffsets(op, drain)))
  {
    SavedIsTextKeyed(op);
    assert TextKeyed(OffsetEntries(drain));
    assert AllTextKeyed(WithOffsets(op, drain));
  }

  // ---- What arrives ---------------------------------------------------------------------------------

  /** Every value of the state has the type the Java schema gives its field. */
  predicate Typed(state: Fields, types: map<string, string>) {
    forall f :: f in types ==> HasType(Get(state, f, Null), types[f])
  }

  /**
    The connector receives the state's projection exactly if it supports the version, which has
    to be positive, and every value has its schema type.
   */
  lemma JavaReceivesIff(class_: string, op: Operator, drain: DrainOffsets, python: Registry, codec: Codec,
                        java: JavaRegistry, unpack: JavaUnpack, lib: Library)
    requires PlainLabels(op) && Agrees(codec, unpack)
    requires Serialized(class_, WithOffsets(op, drain), python, codec).Success?
    requires class_ in java.types && java.types[class_].Keys == python[(class_, 1)].Names()
    ensures FlinkState(AsJava(Serialized(class_, WithOffsets(op, drain), python, codec).value), class_, java, unpack,
                       lib)
         == Success(Projected(WithOffsets(op, drain), python[(class_, 1)].Names()))
       <==> python[(class_, 1)].version > 0 && java.Supports(class_, python[(class_, 1)].version)
            && Typed(WithOffsets(op, drain), java.types[class_])
  {
    var schema, state := python[(class_, 1)], WithOffsets(op, drain);
    DocumentIsTextKeyed(class_, schema, op, drain);
    JavaSeesTheDocument(class_, state, python, codec, java, unpack);
    TranslationKeepsFieldsIff(class_, state, schema, java.types[class_], lib);
  }

  /** The state of an operator that has processed `polls`, with the offsets drained there. */
  function Drained(start: Operator, log: Log, polls: seq<Poll>, drain: DrainOffsets): Fields
    requires Readable(log, map[], polls)
  {
    WithOffsets(Final(Step, start, Arrivals(log, map[], polls)), drain)
  }

  /** What the connector makes of its snapshot. */
  function Received(class_: string, start: Operator, log: Log, polls: seq<Poll>, drain: DrainOffsets,
                    python: Registry, codec: Codec, java: JavaRegistry, unpack: JavaUnpack, lib: Library)
    : Result<Fields, ReaderError>
    requires Readable(log, map[], polls)
    requires Serialized(class_, Drained(start, log, polls, drain), python, codec).Success?
  {
    FlinkState(AsJava(Serialized(class_, Drained(start, log, polls, drain), python, codec).value), class_, java,
               unpack, lib)
  }

  /** A source started from the offsets in what the connector received begins at the first record not yet taken. */
  lemma JavaResumes(class_: string, op: Operator, drain: DrainOffsets, positions: Positions, python: Registry,
                    codec: Codec, java: JavaRegistry, unpack: JavaUnpack, lib: Library)
    requires PlainLabels(op) && Agrees(codec, unpack) && Records(drain, positions)
    requires Serialized(class_, WithOffsets(op, drain), python, codec).Success?
    requires class_ in java.types && java.types[class_].Keys == python[(class_, 1)].Names()
    requires OFFSETS_KEY in python[(class_, 1)].Names()
    requires java.Supports(class_, python[(class_, 1)].version) && Typed(WithOffsets(op, drain), java.types[class_])
    ensures var received := FlinkState(AsJava(Serialized(class_, WithOffsets(op, drain), python, codec).value),
                                       class_, java, unpack, lib);
            && received.Success?
            && SamePositions(StartingOffsets(OffsetsIn(Get(received.value, OFFSETS_KEY, Null))), positions)
  {
    JavaReceivesIff(class_, op, drain, python, codec, java, unpack, lib);
    OffsetsRoundTrip(drain);
    ResumesAtFirstUntaken(drain, positions);
  }

  /**
    The same for an operator that has run: after any polls of a log it is drained where it stands.
    The connector receives its state's projection exactly under the same conditions, and a source
    started from the offsets it finds begins at the first record of the log not yet processed.
   */
  lemma MovedRunArrivesIff(class_: string, start: Operator, log: Log, polls: seq<Poll>, drain: DrainOffsets,
                           python: Registry, codec: Codec, java: JavaRegistry, unpack: JavaUnpack, lib: Library)
    requires PlainLabels(start) && Agrees(codec, unpack)
    requires Readable(log, map[], polls) && Records(drain, After(map[], polls))
    requires Serialized(class_, Drained(start, log, polls, drain), python, codec).Success?
    requires class_ in java.types && java.types[class_].Keys == python[(class_, 1)].Names()
    ensures var received := Received(class_, start, log, polls, drain, python, codec, java, unpack, lib);
            && (received == Success(Projected(Drained(start, log, polls, drain), python[(class_, 1)].Names()))
                <==> python[(class_, 1)].version > 0 && java.Supports(class_, python[(class_, 1)].version)
                     && Typed(Drained(start, log, polls, drain), java.types[class_]))
            && (java.Supports(class_, python[(class_, 1)].version) && OFFSETS_KEY in python[(class_, 1)].Names()
                && Typed(Drained(start, log, polls, drain), java.types[class_]) ==>
                  && received.Success?
                  && SamePositions(StartingOffsets(OffsetsIn(Get(received.value, OFFSETS_KEY, Null))),
                                   After(map[], polls)))
  {
    var op := Final(Step, start, Arrivals(log, map[], polls));
    LabelsStayPlain(start, Arrivals(log, map[], polls));
    JavaReceivesIff(class_, op, drain, python, codec, java, unpack, lib);
    if java.Supports(class_, python[(class_, 1)].version) && OFFSETS_KEY in python[(class_, 1)].Names()
       && Typed(WithOffsets(op, drain), java.types[class_]) {
      JavaResumes(class_, op, drain, After(map[], polls), python, codec, java, unpack, lib);
    }
  }

  /**
    The whole way of a statistical aggregator: after any input it is moved to a connector that
    supports the version and finds every value typed.  The summaries go on as in Python exactly
    if the schema keeps count and m2, or there is nothing in them, and the readings add up to zero.
   */
  lemma AggregatorFollowsIff(kind: Value, input: seq<Record>, class_: string, drain: DrainOffsets, python: Registry,
                             codec: Codec, java: JavaRegistry, unpack: JavaUnpack, lib: Library)
    requires TextKeyed(kind) && Agrees(codec, unpack)
    requires var p := Final(Python.Step, Python.Initial(kind), input);
             && Serialized(class_, WithOffsets(Stat(p), drain), python, codec).Success?
             && class_ in java.types && java.types[class_].Keys == python[(class_, 1)].Names()
             && java.Supports(class_, python[(class_, 1)].version)
             && Typed(WithOffsets(Stat(p), drain), java.types[class_])
    ensures var p := Final(Python.Step, Python.Initial(kind), input);
            var received := FlinkState(AsJava(Serialized(class_, WithOffsets(Stat(p), drain), python, codec).value),
                                       class_, java, unpack, lib);
            var fields := python[(class_, 1)].Names();
            && received.Success?
            && (Java.FollowsFrom(Java.Seen(received.value), p) <==> Java.NothingLost(kind, input, fields))
  {
    var p, fields := Final(Python.Step, Python.Initial(kind), input), python[(class_, 1)].Names();
    Python.RunningFields(kind, input);
    JavaReceivesIff(class_, Stat(p), drain, python, codec, java, unpack, lib);
    SameEntriesSeen(p, drain, fields);
    Java.FollowsAfterMigrationIff(kind, input, fields);
  }

  lemma SameEntriesSeen(p: Python.State, drain: DrainOffsets, fields: set<string>)
    ensures Java.Seen(Projected(WithOffsets(Stat(p), drain), fields)) == Java.Restored(p, fields)
  {
    forall key | key in {"count", "sum", "m2"}
      ensures Get(Projected(WithOffsets(Stat(p), drain), fields), key, Null) ==
          Get(Projected(p.Saved(), fields), key, Null)
    {
      assert key != OFFSETS_KEY;
    }
  }
}
