/**
  What a backpressure check decides, for any list of bound operators and any marks.  The check
  goes through the operators in turn, and each may pause or resume the topic again.
 */
module Checks {
  import opened EdgeEngine

  /** The operator's queue holds more than the high-water mark allows. */
  predicate Above(e: Engine, op: string) {
    e.HasQueue(op) && |e.queues[e.workerQueues[op]].items| > e.limits.high
  }

  /** The operator's queue holds less than the low-water mark. */
  predicate Below(e: Engine, op: string) {
    e.HasQueue(op) && |e.queues[e.workerQueues[op]].items| < e.limits.low
  }

  /** The operator alone decides: it pauses the topic or resumes it, whatever came before. */
  predicate Settles(e: Engine, op: string) {
    Above(e, op) != Below(e, op)
  }

  /** With a low-water mark further above: the operator turns the decision so far around. */
  predicate Flips(e: Engine, op: string) {
    Above(e, op) && Below(e, op)
  }

  /** An odd number of the operators turn the decision around. */
  predicate OddFlips(e: Engine, ops: seq<string>) {
    ops != [] && (OddFlips(e, ops[..|ops| - 1]) != Flips(e, ops[|ops| - 1]))
  }

  /** Some operator is above the high-water mark and none after it is below the low-water mark. */
  ghost predicate PausedBySome(e: Engine, ops: seq<string>) {
    exists k :: 0 <= k < |ops| && Above(e, ops[k]) && forall j :: k < j < |ops| ==> !Below(e, ops[j])
  }

  ghost predicate NoneBelow(e: Engine, ops: seq<string>) {
    forall k :: 0 <= k < |ops| ==> !Below(e, ops[k])
  }

  /** Where a check moves nothing but pause flags. */
  lemma {:induction false} OnlyFlags(e: Engine, t: string, ops: seq<string>)
    ensures e.CheckedAll(t, ops) == e.(paused := e.CheckedAll(t, ops).paused)
    ensures forall u :: u != t ==> (u in e.CheckedAll(t, ops).paused <==> u in e.paused)
  {
    if ops != [] {
      OnlyFlags(e, t, ops[..|ops| - 1]);
    }
  }

  lemma OneOperator(e: Engine, e': Engine, t: string, op: string)
    requires e' == e.(paused := e'.paused)
    ensures t in e'.CheckedFor(t, op).paused <==>
              if Settles(e, op) then Above(e, op) else (t in e'.paused) != Flips(e, op)
  {
  }

  lemma LastOperator(e: Engine, t: string, ops: seq<string>)
    requires ops != []
    ensures var op := ops[|ops| - 1];
            t in e.CheckedAll(t, ops).paused <==>
              if Settles(e, op) then Above(e, op) else (t in e.CheckedAll(t, ops[..|ops| - 1]).paused) != Flips(e, op)
  {
    OnlyFlags(e, t, ops[..|ops| - 1]);
    OneOperator(e, e.CheckedAll(t, ops[..|ops| - 1]), t, ops[|ops| - 1]);
  }

  // ---- Marks in order -----------------------------------------------------------------------------

  lemma PausedBySnoc(e: Engine, ops: seq<string>)
    requires ops != []
    ensures var init, last := ops[..|ops| - 1], ops[|ops| - 1];
            PausedBySome(e, ops) <==> Above(e, last) || (PausedBySome(e, init) && !Below(e, last))
  {
    var init, last := ops[..|ops| - 1], ops[|ops| - 1];
    if PausedBySome(e, init) && !Below(e, last) {
      var k :| 0 <= k < |init| && Above(e, init[k]) && forall j :: k < j < |init| ==> !Below(e, init[j]);
      assert Above(e, ops[k]) && forall j :: k < j < |ops| ==> !Below(e, ops[j]);
    }
    if PausedBySome(e, ops) && !Above(e, last) {
      var k :| 0 <= k < |ops| && Above(e, ops[k]) && forall j :: k < j < |ops| ==> !Below(e, ops[j]);
      assert Above(e, init[k]) && forall j :: k < j < |init| ==> !Below(e, init[j]);
    }
  }

  lemma NoneBelowSnoc(e: Engine, ops: seq<string>)
    requires ops != []
    ensures NoneBelow(e, ops) <==> NoneBelow(e, ops[..|ops| - 1]) && !Below(e, ops[|ops| - 1])
  {
    var init := ops[..|ops| - 1];
    if NoneBelow(e, ops) {
      forall k | 0 <= k < |init|
        ensures !Below(e, init[k])
      {
        assert !Below(e, ops[k]);
      }
    }
    if NoneBelow(e, init) && !Below(e, ops[|ops| - 1]) {
      forall k | 0 <= k < |ops|
        ensures !Below(e, ops[k])
      {
        assert k < |init| ==> !Below(e, init[k]);
      }
    }
  }

  /**
    If the low-water mark is at most one above the high one: after a check the topic is paused
    exactly if some bound operator's queue is above the high-water mark and no later one is
    below the low-water mark, or the topic was paused and none is below the low-water mark.
   */
  lemma {:induction false} PausedIff(e: Engine, t: string, ops: seq<string>)
    requires e.limits.low <= e.limits.high + 1
    ensures t in e.CheckedAll(t, ops).paused <==> PausedBySome(e, ops) || (t in e.paused && NoneBelow(e, ops))
  {
    if ops != [] {
      PausedIff(e, t, ops[..|ops| - 1]);
      LastOperator(e, t, ops);
      PausedBySnoc(e, ops);
      NoneBelowSnoc(e, ops);
    }
  }

  // ---- Any marks -------------------------------------------------------------------------------------

  /** Operator `k` decides for itself and none after it does. */
  ghost predicate LastToSettle(e: Engine, ops: seq<string>, k: nat) {
    k < |ops| && Settles(e, ops[k]) && forall j :: k < j < |ops| ==> !Settles(e, ops[j])
  }

  /** The decision of operator `k`, turned around by an odd number of those after it. */
  predicate PausedFrom(e: Engine, ops: seq<string>, k: nat) {
    k < |ops| && Above(e, ops[k]) != OddFlips(e, ops[k + 1..])
  }

  lemma FlipsSnoc(e: Engine, ops: seq<string>, k: nat)
    requires k < |ops| - 1
    ensures OddFlips(e, ops[k + 1..]) <==> OddFlips(e, ops[..|ops| - 1][k + 1..]) != Flips(e, ops[|ops| - 1])
  {
    var tail := ops[k + 1..];
    assert tail[..|tail| - 1] == ops[..|ops| - 1][k + 1..];
  }

  /**
    For any marks: the last operator that decides for itself sets the flag, and every operator
    after it that lies between the marks turns it around; if none decides, the old flag is turned
    around by all of them.
   */
  lemma {:induction false} PausedAfterCheck(e: Engine, t: string, ops: seq<string>)
    ensures forall k {:trigger LastToSettle(e, ops, k)} :: LastToSettle(e, ops, k) ==>
              (t in e.CheckedAll(t, ops).paused <==> PausedFrom(e, ops, k))
    ensures (forall k :: 0 <= k < |ops| ==> !Settles(e, ops[k])) ==>
              (t in e.CheckedAll(t, ops).paused <==> (t in e.paused) != OddFlips(e, ops))
  {
    if ops != [] {
      var init, last := ops[..|ops| - 1], ops[|ops| - 1];
      PausedAfterCheck(e, t, init);
      LastOperator(e, t, ops);
      forall k | LastToSettle(e, ops, k)
        ensures t in e.CheckedAll(t, ops).paused <==> PausedFrom(e, ops, k)
      {
        if k == |ops| - 1 {
          assert ops[k + 1..] == [];
        } else {
          assert LastToSettle(e, init, k);
          FlipsSnoc(e, ops, k);
        }
      }
      if forall k :: 0 <= k < |ops| ==> !Settles(e, ops[k]) {
        assert forall k :: 0 <= k < |init| ==> !Settles(e, init[k]);
      }
    }
  }

  /** No operator bound to the topic after position `k` has a queue. */
  ghost predicate LastQueue(e: Engine, ops: seq<string>, k: nat) {
    k < |ops| && forall j :: k < j < |ops| ==> !e.HasQueue(ops[j])
  }

  /** The last operator with a queue has the last word if its queue lies on one side of the marks. */
  lemma LastQueueDecides(e: Engine, t: string, ops: seq<string>, k: nat)
    requires LastQueue(e, ops, k) && Settles(e, ops[k])
    ensures t in e.CheckedAll(t, ops).paused <==> Above(e, ops[k])
  {
    PausedAfterCheck(e, t, ops);
    assert LastToSettle(e, ops, k);
    NoFlips(e, ops[k + 1..]);
  }

  lemma {:induction false} NoFlips(e: Engine, ops: seq<string>)
    requires forall j :: 0 <= j < |ops| ==> !Flips(e, ops[j])
    ensures !OddFlips(e, ops)
  {
    if ops != [] {
      NoFlips(e, ops[..|ops| - 1]);
    }
  }

  /** Without a low-water mark to fall below, any operator above the high one pauses the topic. */
  lemma {:induction false} AnyAbovePauses(e: Engine, t: string, ops: seq<string>, k: nat)
    requires e.limits.low <= 0 && k < |ops| && Above(e, ops[k])
    ensures t in e.CheckedAll(t, ops).paused
  {
    LastOperator(e, t, ops);
    if k < |ops| - 1 {
      AnyAbovePauses(e, t, ops[..|ops| - 1], k);
    }
  }
}
