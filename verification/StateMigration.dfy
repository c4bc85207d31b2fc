/** Moving a stateful operator: snapshot, restore and resume compose into an undisturbed run. */
module StateMigration {
  import opened Wrappers
  import opened Values
  import opened Streams
  import opened Formatting
  import opened Operators
  import opened Snapshots
  import opened Resuming

  const OFFSETS_KEY := "kafka_offset_map"

  // ---- creating the snapshot ----

  function ObjectKey(operatorId: string, migration: nat): string {
    operatorId + "/" + Digits(migration) + "/snapshot.msgpack"
  }

  /** The state that is snapshot: the operator's own and the drain offsets. */
  function WithOffsets(op: Operator, drain: DrainOffsets): Fields {
    Saved(op)[OFFSETS_KEY := OffsetEntries(drain)]
  }

  method CreateMigrationSnapshot(operatorId: string, class_: string, op: Operator, registry: Registry, codec: Codec,
                                 migration: nat, drain: DrainOffsets)
    returns (stored: Result<(string, seq<Byte>), SnapshotError>)
    ensures stored.Success? <==> Serialized(class_, WithOffsets(op, drain), registry, codec).Success?
    ensures stored.Failure? ==> Serialized(class_, WithOffsets(op, drain), registry, codec) == Failure(stored.error)
    ensures stored.Success? ==>
              stored.value == (ObjectKey(operatorId, migration),
                                Serialized(class_, WithOffsets(op, drain), registry, codec).value)
  {
    var state := Saved(op);
    state := state[OFFSETS_KEY := OffsetEntries(drain)];
    var data := Serialize(class_, state, registry, codec);
    if data.Failure? {
      return Failure(data.error);
    }
    stored := Success((operatorId + "/" + Digits(migration) + "/snapshot.msgpack", data.value));
  }

  lemma {:induction false} DigitsHaveNoSlash(n: nat)
    ensures '/' !in Digits(n)
  {
    if n >= 10 {
      DigitsHaveNoSlash(n / 10);
    }
  }

  /** If the first split is later in the text than the second, the rest of the second has a slash. */
  lemma LaterSlash(a: string, b: string, c: string, d: string)
    requires a + "/" + b == c + "/" + d && |c| < |a|
    ensures '/' in d
  {
    assert (a + "/" + b)[|a|] == '/';
    assert (c + "/" + d)[|a|] == d[|a| - |c| - 1];
  }

  /** Two splits of a text at its last slash are the same split. */
  lemma LastSlash(a: string, b: string, c: string, d: string)
    requires a + "/" + b == c + "/" + d
    requires '/' !in b && '/' !in d
    ensures a == c && b == d
  {
    if |c| < |a| {
      LaterSlash(a, b, c, d);
    } else if |a| < |c| {
      LaterSlash(c, d, a, b);
    } else {
      assert a == (a + "/" + b)[..|a|] && c == (c + "/" + d)[..|a|];
      assert b == (a + "/" + b)[|a| + 1..] && d == (c + "/" + d)[|a| + 1..];
    }
  }

  /** The object key tells operator and sequence number apart, whatever the operator ids look like. */
  lemma ObjectKeysDiffer(a: string, m: nat, b: string, n: nat)
    requires ObjectKey(a, m) == ObjectKey(b, n)
    ensures a == b && m == n
  {
    var suffix := "/snapshot.msgpack";
    var left, right := a + "/" + Digits(m), b + "/" + Digits(n);
    assert ObjectKey(a, m) == left + suffix && ObjectKey(b, n) == right + suffix;
    assert left == (left + suffix)[..|left + suffix| - |suffix|];
    assert right == (right + suffix)[..|right + suffix| - |suffix|];
    DigitsHaveNoSlash(m);
    DigitsHaveNoSlash(n);
    LastSlash(a, Digits(m), b, Digits(n));
    ValueOfDigits(m);
    ValueOfDigits(n);
  }

  /** The key is the operator id, a slash, the sequence number in decimal digits and the file name. */
  lemma ObjectKeyIs(operatorId: string, migration: nat)
    ensures var key, n := ObjectKey(operatorId, migration), |operatorId|;
            && |key| > n + 17 && key[..n] == operatorId && key[n] == '/'
            && key[|key| - 17..] == "/snapshot.msgpack"
            && IsNumber(key[n + 1..|key| - 17]) && Formatting.Value(key[n + 1..|key| - 17]) == migration
  {
    DigitsAreNumber(migration);
    ValueOfDigits(migration);
    var key, n := ObjectKey(operatorId, migration), |operatorId|;
    assert key[n + 1..|key| - 17] == Digits(migration);
  }

  // ---- what comes back ----

  lemma OffsetsKeyIsFree(op: Operator)
    ensures OFFSETS_KEY !in Saved(op)
  {
  }

  /** The offset entry does not disturb the operator's own fields. */
  lemma OffsetsDoNotDisturb(target: Operator, op: Operator, drain: DrainOffsets, fields: set<string>)
    requires CameFrom(target, op)
    ensures Restored(target, Projected(WithOffsets(op, drain), fields)) ==
        Restored(target, Projected(Saved(op), fields))
  {
    var with, without := Projected(WithOffsets(op, drain), fields), Projected(Saved(op), fields);
    OffsetsKeyIsFree(target);
    forall k | k in Saved(target)
      ensures SameUnder(with, without, k)
    {
      assert k != OFFSETS_KEY;
    }
    ReadsSavedKeysOnly(target, with, without);
  }

  /** The dictionary a reader of the operator's snapshot gets, given that the snapshot leads back to its schema. */
  lemma SnapshotReads(class_: string, op: Operator, drain: DrainOffsets, registry: Registry, codec: Codec)
    requires codec.Lawful()
    requires Serialized(class_, WithOffsets(op, drain), registry, codec).Success?
    requires LeadsBack(class_, WithOffsets(op, drain), registry)
    ensures Deserialized(Serialized(class_, WithOffsets(op, drain), registry, codec).value, registry, codec)
         == Success(Projected(WithOffsets(op, drain), registry[(class_, 1)].Names()))
  {
    RoundTripIff(class_, WithOffsets(op, drain), registry, codec);
  }

  /**
    The state survives snapshot and restore exactly when each saved field that the schema
    leaves out already had the value that restoring nothing gives it, and nothing unsaved
    was pending.
   */
  lemma StateSurvivesIff(class_: string, start: Operator, input: seq<Arrival>, drain: DrainOffsets,
                         registry: Registry, codec: Codec)
    requires IsNew(start) && codec.Lawful()
    requires var op := Final(Step, start, input);
             && Serialized(class_, WithOffsets(op, drain), registry, codec).Success?
             && LeadsBack(class_, WithOffsets(op, drain), registry)
    ensures var op := Final(Step, start, input);
            var state := Deserialized(Serialized(class_, WithOffsets(op, drain), registry, codec).value,
                                      registry, codec);
            && state.Success?
            && (Restored(start, state.value) == Success(op)
                <==> AgreeOutside(Saved(op), Saved(Blank(start)), registry[(class_, 1)].Names()) && NothingUnsaved(op))
  {
    var op, fields := Final(Step, start, input), registry[(class_, 1)].Names();
    RunKeepsOrigin(start, input);
    SnapshotReads(class_, op, drain, registry, codec);
    OffsetsDoNotDisturb(start, op, drain, fields);
    RestoresIff(start, op, fields);
  }

  // ---- going on elsewhere ----

  lemma {:induction false} SameRecordsSameRun(op: Operator, a: seq<Arrival>, b: seq<Arrival>)
    requires SameRecords(a, b)
    requires forall i :: 0 <= i < |a| ==> ClockFree(op, a[i].record)
    ensures Final(Step, op, a) == Final(Step, op, b)
    ensures Outputs(Step, op, a) == Outputs(Step, op, b)
    ensures Final(Step, op, a).Vehicle? == op.Vehicle?
  {
    if a != [] {
      var init := a[..|a| - 1];
      SameRecordsSameRun(op, init, b[..|b| - 1]);
      var last, other := a[|a| - 1], b[|b| - 1];
      ClockDoesNotMatter(Final(Step, op, init), last.record, last.clock, other.clock);
    }
  }

  lemma {:induction false} KindIsKept(op: Operator, input: seq<Arrival>)
    ensures Final(Step, op, input).Vehicle? == op.Vehicle?
  {
    if input != [] {
      KindIsKept(op, input[..|input| - 1]);
    }
  }

  /** All the records are usable without a clock. */
  predicate Timestamped(op: Operator, input: seq<Arrival>) {
    forall i :: 0 <= i < |input| ==> ClockFree(op, input[i].record)
  }

  /** Resumed from the recorded offsets, the rest of the stream brings the records not yet taken, in order. */
  lemma ResumedRecords(log: Log, before: seq<Poll>, rest: seq<Poll>, later: seq<Poll>, drain: DrainOffsets)
    requires Readable(log, map[], before + rest) && SameOrder(rest, later)
    requires Records(drain, After(map[], before))
    ensures Readable(log, map[], before) && Readable(log, StartingOffsets(drain), later)
    ensures Readable(log, After(map[], before), rest)
    ensures SameRecords(Arrivals(log, After(map[], before), rest), Arrivals(log, StartingOffsets(drain), later))
    ensures Arrivals(log, map[], before + rest)
         == Arrivals(log, map[], before) + Arrivals(log, After(map[], before), rest)
  {
    PollsContinue(log, map[], before, rest);
    ResumesAtFirstUntaken(drain, After(map[], before));
    SamePositionsFlip(StartingOffsets(drain), After(map[], before));
    SameStartSameRecords(log, After(map[], before), StartingOffsets(drain), rest, later);
  }

  lemma SamePositionsFlip(a: Positions, b: Positions)
    requires SamePositions(a, b)
    ensures SamePositions(b, a)
  {
  }

  /** The undisturbed run: the source instance processes everything. */
  function Undisturbed(start: Operator, log: Log, polls: seq<Poll>): (Operator, seq<Output>)
    requires Readable(log, map[], polls)
  {
    (Final(Step, start, Arrivals(log, map[], polls)), Outputs(Step, start, Arrivals(log, map[], polls)))
  }

  /** The same with the records from `before` on processed by `moved`, started at the offsets of a snapshot. */
  function Migrated(start: Operator, log: Log, before: seq<Poll>, moved: Operator, drain: DrainOffsets,
                    later: seq<Poll>)
    : (Operator, seq<Output>)
    requires Readable(log, map[], before) && Readable(log, StartingOffsets(drain), later)
  {
    (Final(Step, moved, Arrivals(log, StartingOffsets(drain), later)),
     Outputs(Step, start, Arrivals(log, map[], before))
      + Outputs(Step, moved, Arrivals(log, StartingOffsets(drain), later)))
  }

  /** A run over `first + second` is one over `first` and, from there, one over the same records as `second`. */
  lemma SplitRun(start: Operator, first: seq<Arrival>, second: seq<Arrival>, others: seq<Arrival>)
    requires SameRecords(second, others) && Timestamped(start, first + second)
    ensures Final(Step, Final(Step, start, first), others) == Final(Step, start, first + second)
    ensures Outputs(Step, start, first) + Outputs(Step, Final(Step, start, first), others)
         == Outputs(Step, start, first + second)
  {
    Continues(Step, start, first, second);
    KindIsKept(start, first);
    forall i | 0 <= i < |second|
      ensures ClockFree(Final(Step, start, first), second[i].record)
    {
      assert (first + second)[|first| + i] == second[i];
    }
    SameRecordsSameRun(Final(Step, start, first), second, others);
  }

  lemma MovedRunContinues(start: Operator, log: Log, before: seq<Poll>, rest: seq<Poll>, later: seq<Poll>,
                          drain: DrainOffsets)
    requires Readable(log, map[], before + rest) && SameOrder(rest, later)
    requires Records(drain, After(map[], before))
    requires Timestamped(start, Arrivals(log, map[], before + rest))
    ensures Readable(log, map[], before) && Readable(log, StartingOffsets(drain), later)
    ensures Migrated(start, log, before, Undisturbed(start, log, before).0, drain, later)
         == Undisturbed(start, log, before + rest)
  {
    ResumedRecords(log, before, rest, later, drain);
    SplitRun(start, Arrivals(log, map[], before), Arrivals(log, After(map[], before), rest),
             Arrivals(log, StartingOffsets(drain), later));
  }

  /** What the snapshot needs to hold for the move: the offsets, and every field that differs from its default. */
  predicate Covers(fields: set<string>, start: Operator, op: Operator) {
    OFFSETS_KEY in fields && AgreeOutside(Saved(op), Saved(Blank(start)), fields)
  }

  /**
    Migration is transparent. An operator processes the polls `before`, is snapshot with the
    offsets drained there, is restored into a new instance with the same arguments and goes
    on from the offsets in the snapshot. Whatever the interleaving of partitions and however
    the clock moved, outputs and final state are those of the run that was never migrated.
   */
  lemma MigrationIsTransparent(class_: string, start: Operator, log: Log, before: seq<Poll>, rest: seq<Poll>,
                               later: seq<Poll>, drain: DrainOffsets, registry: Registry, codec: Codec)
    requires IsNew(start) && codec.Lawful()
    requires Readable(log, map[], before + rest) && SameOrder(rest, later)
    requires Timestamped(start, Arrivals(log, map[], before + rest))
    requires Records(drain, After(map[], before))
    requires Readable(log, map[], before)
    requires var op := Undisturbed(start, log, before).0;
             && NothingUnsaved(op)
             && Serialized(class_, WithOffsets(op, drain), registry, codec).Success?
             && LeadsBack(class_, WithOffsets(op, drain), registry)
             && Covers(registry[(class_, 1)].Names(), start, op)
    ensures var op := Undisturbed(start, log, before).0;
            var read := Deserialized(Serialized(class_, WithOffsets(op, drain), registry, codec).value,
                                      registry, codec);
            && read.Success?
            && var state := read.value;
               var moved := Restored(start, state);
               var offsets := OffsetsIn(Get(state, OFFSETS_KEY, Null));
            && moved.Success?
            && Readable(log, StartingOffsets(offsets), later)
            && Migrated(start, log, before, moved.value, offsets, later) == Undisturbed(start, log, before + rest)
  {
    var op := Undisturbed(start, log, before).0;
    StateSurvivesIff(class_, start, Arrivals(log, map[], before), drain, registry, codec);
    SnapshotReads(class_, op, drain, registry, codec);
    OffsetsRoundTrip(drain);
    MovedRunContinues(start, log, before, rest, later, drain);
  }

  // ---- the schemas that ship with the repository ----

  /** The field names of the version 1 schema file for the operator's class. */
  function ShippedFields(op: Operator): set<string> {
    match op
    case Stat(_) => {"accumulators", "window_buffers", "watermark_ms", "pending_timers", OFFSETS_KEY}
    case Normalizer(_) => {OFFSETS_KEY, "watermark_ms", "scale_factors"}
    case Anomaly(_) => {"baseline_stats", "alert_cooldown", "watermark_ms", OFFSETS_KEY}
    case Vehicle(_) => {"detection_state", "watermark_ms", OFFSETS_KEY}
    case Pattern(_) => {"pattern_state", "active_matches", "watermark_ms", "pending_timers", OFFSETS_KEY}
    case Window(_) => {"window_buffers", "accumulators", "watermark_ms", "pending_timers", OFFSETS_KEY}
  }

  lemma ShippedFieldsAreForeign(op: Operator)
    ensures Saved(op).Keys !! ShippedFields(op)
  {
  }

  lemma ForeignFieldsRestoreNothing(target: Operator, state: Fields, fields: set<string>)
    requires Saved(target).Keys !! fields
    ensures Restored(target, Projected(state, fields)) == Success(Blank(target))
  {
    forall k | k in Saved(target)
      ensures SameUnder(Projected(state, fields), map[], k)
    {
      assert k in Saved(target).Keys && k !in fields;
    }
    ReadsSavedKeysOnly(target, Projected(state, fields), map[]);
    BlankIsRestoredNothing(target);
  }

  /** Any record leaves its mark on every operator but the vehicle detector and a window of size zero. */
  predicate LeavesAMark(op: Operator) {
    !op.Vehicle? && (op.Window? ==> op.window.windowSize > 0)
  }

  lemma MarkedIsNotBlank(target: Operator, op: Operator, a: Arrival)
    requires CameFrom(target, op) && LeavesAMark(op)
    ensures Step(op, a).0 != Blank(target)
  {
    match op
    case Stat(s) =>
    case Normalizer(s) =>
    case Anomaly(s) =>
      assert |Step(op, a).0.anomaly.squaredScores| > 0;
    case Pattern(s) =>
      var zone := Operators.P.ZoneOf(a.record);
      assert zone in Step(op, a).0.pattern.zones.history;
    case Window(s) =>
      assert Step(op, a).0.window.windowSize == s.windowSize;
      assert |Step(op, a).0.window.window| > 0;
  }

  lemma {:induction false} MarksAreKept(start: Operator, input: seq<Arrival>)
    requires IsNew(start) && LeavesAMark(start)
    ensures LeavesAMark(Final(Step, start, input))
  {
    if input != [] {
      MarksAreKept(start, input[..|input| - 1]);
    }
  }

  /**
    Through a version 1 schema file an operator is restored to its defaults, whatever it had
    processed; so once it has processed a record its state is lost, except for a vehicle
    detector or an empty window that the record left as it was.
   */
  lemma ShippedSchemaLosesState(class_: string, start: Operator, input: seq<Arrival>, drain: DrainOffsets,
                                registry: Registry, codec: Codec)
    requires IsNew(start) && codec.Lawful()
    requires var op := Final(Step, start, input);
             && Serialized(class_, WithOffsets(op, drain), registry, codec).Success?
             && LeadsBack(class_, WithOffsets(op, drain), registry)
             && registry[(class_, 1)].Names() == ShippedFields(start)
    ensures var op := Final(Step, start, input);
            var state := Deserialized(Serialized(class_, WithOffsets(op, drain), registry, codec).value,
                                      registry, codec);
            && state.Success?
            && Restored(start, state.value) == Success(Blank(start))
            && (input != [] && LeavesAMark(start) ==> Restored(start, state.value) != Success(op))
  {
    var op := Final(Step, start, input);
    SnapshotReads(class_, op, drain, registry, codec);
    ShippedFieldsAreForeign(start);
    ForeignFieldsRestoreNothing(start, WithOffsets(op, drain), ShippedFields(start));
    if input != [] && LeavesAMark(start) {
      var init := input[..|input| - 1];
      RunKeepsOrigin(start, init);
      MarksAreKept(start, init);
      MarkedIsNotBlank(start, Final(Step, start, init), input[|input| - 1]);
    }
  }
}
