/** Reading a partitioned topic, recording how far, and resuming there. */
module Resuming {
  import opened Formatting
  import opened Values

  /** The records of each partition. */
  type Log = map<nat, seq<Record>>

  /** The next offset to read in each partition, zero if not mentioned. */
  type Positions = map<nat, nat>

  function At(positions: Positions, p: nat): nat {
    if p in positions then positions[p] else 0
  }

  function RecordsOf(log: Log, p: nat): seq<Record> {
    if p in log then log[p] else []
  }

  /** One record is taken from a partition, and processed when the clock reads `clock`. */
  datatype Poll = Poll(partition: nat, clock: real)

  function Advance(positions: Positions, poll: Poll): Positions {
    positions[poll.partition := At(positions, poll.partition) + 1]
  }

  function After(start: Positions, polls: seq<Poll>): Positions {
    if polls == [] then start else Advance(After(start, polls[..|polls| - 1]), polls[|polls| - 1])
  }

  /** Each poll finds a record at its partition's position. */
  predicate Readable(log: Log, start: Positions, polls: seq<Poll>) {
    polls == []
    || (var init, last := polls[..|polls| - 1], polls[|polls| - 1];
        Readable(log, start, init) && At(After(start, init), last.partition) < |RecordsOf(log, last.partition)|)
  }

  /** The records a schedule of polls brings, in the order in which they are processed. */
  function Arrivals(log: Log, start: Positions, polls: seq<Poll>): (input: seq<Arrival>)
    requires Readable(log, start, polls)
    ensures |input| == |polls|
  {
    if polls == [] then []
    else
      var init, last := polls[..|polls| - 1], polls[|polls| - 1];
      Arrivals(log, start, init)
        + [Arrival(RecordsOf(log, last.partition)[At(After(start, init), last.partition)], last.clock)]
  }

  lemma {:induction false} PollsContinue(log: Log, start: Positions, first: seq<Poll>, second: seq<Poll>)
    ensures After(start, first + second) == After(After(start, first), second)
    ensures Readable(log, start, first + second) <==>
              Readable(log, start, first) && Readable(log, After(start, first), second)
    ensures Readable(log, start, first + second) ==>
              Arrivals(log, start, first + second) ==
                Arrivals(log, start, first) + Arrivals(log, After(start, first), second)
  {
    if second == [] {
      assert first + second == first;
    } else {
      var init := second[..|second| - 1];
      PollsContinue(log, start, first, init);
      assert (first + second)[..|first + second| - 1] == first + init;
    }
  }

  ghost predicate SamePositions(a: Positions, b: Positions) {
    forall p {:trigger At(a, p)} {:trigger At(b, p)} :: At(a, p) == At(b, p)
  }

  /** Two schedules poll the same partitions in the same order. */
  predicate SameOrder(a: seq<Poll>, b: seq<Poll>) {
    |a| == |b| && forall i :: 0 <= i < |a| ==> a[i].partition == b[i].partition
  }

  /** The same records, at possibly different times. */
  predicate SameRecords(a: seq<Arrival>, b: seq<Arrival>) {
    |a| == |b| && forall i :: 0 <= i < |a| ==> a[i].record == b[i].record
  }

  lemma {:induction false} SameStartSameRecords(log: Log, a: Positions, b: Positions, polls: seq<Poll>,
                                                others: seq<Poll>)
    requires SamePositions(a, b) && SameOrder(polls, others)
    ensures SamePositions(After(a, polls), After(b, others))
    ensures Readable(log, a, polls) <==> Readable(log, b, others)
    ensures Readable(log, a, polls) ==> SameRecords(Arrivals(log, a, polls), Arrivals(log, b, others))
  {
    if polls != [] {
      var init, last := polls[..|polls| - 1], polls[|polls| - 1];
      var otherInit, otherLast := others[..|others| - 1], others[|others| - 1];
      SameStartSameRecords(log, a, b, init, otherInit);
      forall p
        ensures At(After(a, polls), p) == At(After(b, others), p)
      {
        assert At(After(a, init), p) == At(After(b, otherInit), p);
        assert At(After(a, init), last.partition) == At(After(b, otherInit), otherLast.partition);
      }
    }
  }

  // ---- the drain offsets ----

  /** The recorded entries: for a partition, the offset of the last record taken from it. */
  type DrainOffsets = seq<(nat, nat)>

  /** Exactly the partitions that were read from are listed, each with its last offset. */
  ghost predicate Records(drain: DrainOffsets, positions: Positions) {
    && (forall i :: 0 <= i < |drain| ==> At(positions, drain[i].0) == drain[i].1 + 1)
    && forall p :: p in positions && At(positions, p) > 0 ==> exists i :: 0 <= i < |drain| && drain[i].0 == p
  }

  /**
    Where a source that is handed the drain offsets begins: one past the recorded offset, and
    at the earliest record of a partition that is not listed.
   */
  function StartingOffsets(drain: DrainOffsets): Positions {
    if drain == [] then map[]
    else StartingOffsets(drain[..|drain| - 1])[drain[|drain| - 1].0 := drain[|drain| - 1].1 + 1]
  }

  /** Entry `i` is for partition `p` and ends just before offset `n`. */
  predicate EntryFor(drain: DrainOffsets, i: nat, p: nat, n: nat) {
    i < |drain| && drain[i].0 == p && drain[i].1 + 1 == n
  }

  lemma {:induction false} StartingOffsetsAre(drain: DrainOffsets)
    ensures forall p :: p in StartingOffsets(drain) ==> exists i :: EntryFor(drain, i, p, StartingOffsets(drain)[p])
    ensures forall i :: 0 <= i < |drain| ==> drain[i].0 in StartingOffsets(drain)
  {
    if drain != [] {
      var init, last := drain[..|drain| - 1], drain[|drain| - 1];
      StartingOffsetsAre(init);
      forall p | p in StartingOffsets(drain)
        ensures exists i :: EntryFor(drain, i, p, StartingOffsets(drain)[p])
      {
        if p == last.0 {
          assert EntryFor(drain, |drain| - 1, p, StartingOffsets(drain)[p]);
        } else {
          var i :| EntryFor(init, i, p, StartingOffsets(init)[p]);
          assert EntryFor(drain, i, p, StartingOffsets(drain)[p]);
        }
      }
      forall i | 0 <= i < |drain|
        ensures drain[i].0 in StartingOffsets(drain)
      {
        assert i < |init| ==> init[i].0 in StartingOffsets(init);
      }
    }
  }

  /** A source started from the recorded offsets begins at the first record not yet taken, in every partition. */
  lemma ResumesAtFirstUntaken(drain: DrainOffsets, positions: Positions)
    requires Records(drain, positions)
    ensures SamePositions(StartingOffsets(drain), positions)
  {
    StartingOffsetsAre(drain);
    forall p
      ensures At(StartingOffsets(drain), p) == At(positions, p)
    {
      if p in StartingOffsets(drain) {
        var i :| EntryFor(drain, i, p, StartingOffsets(drain)[p]);
      }
    }
  }

  // ---- the offsets inside a snapshot ----

  /** The drain offsets as they reach a snapshot: partition numbers are decimal text. */
  function OffsetEntries(drain: DrainOffsets): Value {
    Mapped(seq(|drain|, i requires 0 <= i < |drain| => (Text(Digits(drain[i].0)), Whole(drain[i].1))))
  }

  /** The drain offsets a reader finds under the snapshot's offset entry; anything else counts as none. */
  function OffsetsIn(v: Value): DrainOffsets {
    if v.Mapped? then EntriesAsOffsets(v.entries) else []
  }

  function EntriesAsOffsets(entries: seq<(Value, Value)>): DrainOffsets {
    if entries == [] then []
    else
      var e := entries[|entries| - 1];
      EntriesAsOffsets(entries[..|entries| - 1])
        + if e.0.Text? && IsNumber(e.0.text) && e.1.Whole? && e.1.whole >= 0
          then [(Formatting.Value(e.0.text), e.1.whole)] else []
  }

  lemma {:induction false} OffsetsRoundTrip(drain: DrainOffsets)
    ensures OffsetsIn(OffsetEntries(drain)) == drain
  {
    if drain != [] {
      var init, last := drain[..|drain| - 1], drain[|drain| - 1];
      OffsetsRoundTrip(init);
      assert OffsetEntries(drain).entries[..|drain| - 1] == OffsetEntries(init).entries;
      DigitsAreNumber(last.0);
      ValueOfDigits(last.0);
    }
  }
}
