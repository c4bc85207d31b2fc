/**
  The bound that backpressure is for: the high-water mark and one batch for each topic that
  feeds the operator.  When it holds, over all interleavings of record traffic.
 */
module HighWater {
  import opened Wrappers
  import opened EdgeEngine
  import opened Checks
  import opened Backpressure

  function HighWaterBound(limits: Limits, k: nat): int {
    limits.high + k * limits.batch
  }

  /** A run of record traffic. */
  ghost predicate TrafficRun(start: Engine, events: seq<Event>, e: Engine) {
    Run(start, events) == Some(e) && forall k :: 0 <= k < |events| ==> Traffic(events[k])
  }

  /** A run of record traffic in which every message decodes. */
  ghost predicate DecodableRun(start: Engine, events: seq<Event>, e: Engine) {
    TrafficRun(start, events, e) && forall k :: 0 <= k < |events| ==> Decodable(events[k])
  }

  /** The bound holds in every run of record traffic. */
  ghost predicate BoundHolds(start: Engine, op: string, topics: seq<string>) {
    forall events, e :: TrafficRun(start, events, e) ==> e.Depth(op) <= HighWaterBound(start.limits, |topics|)
  }

  /** The bound holds in every run in which every message decodes. */
  ghost predicate BoundHoldsIfDecodable(start: Engine, op: string, topics: seq<string>) {
    forall events, e :: DecodableRun(start, events, e) ==> e.Depth(op) <= HighWaterBound(start.limits, |topics|)
  }

  /** The operator has topics, all free to poll, and nothing is under way. */
  ghost predicate Fresh(e: Engine, op: string, topics: seq<string>) {
    topics != [] && Idle(e, op, topics) && forall t :: t in topics ==> t !in e.paused
  }

  /** The topics feed this operator and no other. */
  ghost predicate FeedsAlone(e: Engine, op: string, topics: seq<string>) {
    Feeds(e, op, topics) && Alone(e, op, topics)
  }

  lemma FeedsAloneKept(e: Engine, e': Engine, op: string, topics: seq<string>, t: string)
    requires FeedsAlone(e, op, topics) && OnlyTopic(e, e', t)
    ensures FeedsAlone(e', op, topics)
  {
    FeedsKept(e, e', op, topics, t);
    assert forall u :: e'.Bound(u) == e.Bound(u);
  }

  /** A check that finds more than the high-water mark does not resume the topic. */
  predicate MarksInOrder(limits: Limits) {
    limits.low <= limits.high + 1
  }

  // ---- Runs, one after the other -------------------------------------------------------------

  lemma Onward(start: Engine, first: seq<Event>, e: Engine, second: seq<Event>, e': Engine)
    requires DecodableRun(start, first, e) && DecodableRun(e, second, e')
    ensures DecodableRun(start, first + second, e')
  {
    RunConcat(start, first, e, second);
  }

  // ---- Delivering a batch --------------------------------------------------------------------

  function Goods(n: nat): (messages: seq<Message>)
    ensures |messages| == n
    ensures forall m :: m in messages ==> m.Good?
  {
    if n == 0 then [] else [Good(TopicRecord("", 0))] + Goods(n - 1)
  }

  /** What other topics see of the deliveries of topic `t`: a deeper queue. */
  ghost predicate Deepened(e: Engine, e': Engine, op: string, topics: seq<string>, t: string, n: nat) {
    && FeedsAlone(e', op, topics) && OnlyTopic(e, e', t)
    && e'.Depth(op) == e.Depth(op) + n && (t in e'.paused <==> t in e.paused)
  }

  /** One message is decoded and its record queued. */
  lemma OneDelivered(e: Engine, op: string, topics: seq<string>, t: string, n: nat) returns (e': Engine)
    requires FeedsAlone(e, op, topics) && t in topics && n > 0 && e.Stage(t) == Delivering(Goods(n))
    ensures DecodableRun(e, [Decode(t), Dispatch(t)], e')
    ensures e'.Stage(t) == Delivering(Goods(n - 1)) && Deepened(e, e', op, topics, t, 1)
  {
    var r := TopicRecord("", 0);
    assert Goods(n)[0] == Good(r) && Goods(n)[1..] == Goods(n - 1);
    var e1 := e.AtStage(t, Dispatching(r, 0, Goods(n - 1)));
    assert e1.Bound(t) == [op];
    PutDepth(e1, op, topics, op, r);
    e' := e1.QueuePut(op, r).AtStage(t, Delivering(Goods(n - 1)));
    TraceRuns([Decode(t), Dispatch(t)], [e, e1, e']);
    FeedsAloneKept(e, e', op, topics, t);
  }

  lemma {:induction false} BatchDelivered(e: Engine, op: string, topics: seq<string>, t: string, n: nat)
    returns (events: seq<Event>, e': Engine)
    requires FeedsAlone(e, op, topics) && t in topics && e.Stage(t) == Delivering(Goods(n))
    ensures DecodableRun(e, events, e')
    ensures e'.Stage(t) == Delivering([]) && Deepened(e, e', op, topics, t, n)
    decreases n
  {
    if n == 0 {
      events, e' := [], e;
    } else {
      var e1 := OneDelivered(e, op, topics, t, n);
      var rest: seq<Event>;
      rest, e' := BatchDelivered(e1, op, topics, t, n - 1);
      events := [Decode(t), Dispatch(t)] + rest;
      Onward(e, [Decode(t), Dispatch(t)], e1, rest, e');
    }
  }

  /** A topic polls `n` messages and delivers them; a paused one polls none. */
  lemma Polled(e: Engine, op: string, topics: seq<string>, t: string, n: nat)
    returns (events: seq<Event>, e': Engine)
    requires FeedsAlone(e, op, topics) && t in topics && e.Stage(t).Polling?
    requires n <= e.limits.batch && (t in e.paused ==> n == 0)
    ensures DecodableRun(e, events, e')
    ensures e'.Stage(t) == Delivering([]) && Deepened(e, e', op, topics, t, n)
  {
    var e1 := e.AtStage(t, Delivering(Goods(n)));
    TraceRuns([Poll(t, Goods(n))], [e, e1]);
    FeedsAloneKept(e, e1, op, topics, t);
    var rest: seq<Event>;
    rest, e' := BatchDelivered(e1, op, topics, t, n);
    events := [Poll(t, Goods(n))] + rest;
    Onward(e, [Poll(t, Goods(n))], e1, rest, e');
  }

  /** What a check makes of the pause flag at this depth. */
  predicate PausedAfter(limits: Limits, depth: nat, paused: bool) {
    if depth > limits.high && !paused then true
    else if depth < limits.low && paused then false
    else paused
  }

  lemma CheckedSingle(e: Engine, t: string, op: string)
    requires e.Bound(t) == [op]
    ensures e.Checked(t) == e.CheckedFor(t, op)
  {
    assert [op][..0] == [];
    assert e.CheckedAll(t, []) == e;
  }

  lemma ChecksOut(e: Engine, op: string, topics: seq<string>, t: string) returns (e': Engine)
    requires FeedsAlone(e, op, topics) && t in topics && e.Stage(t) == Delivering([])
    ensures DecodableRun(e, [Check(t)], e')
    ensures FeedsAlone(e', op, topics) && OnlyTopic(e, e', t) && e'.Stage(t).Polling? && e'.Depth(op) == e.Depth(op)
    ensures t in e'.paused <==> PausedAfter(e.limits, e.Depth(op), t in e.paused)
  {
    e' := e.Next(Check(t));
    OnlyFlags(e, t, e.Bound(t));
    CheckedSingle(e, t, op);
    TraceRuns([Check(t)], [e, e']);
    FeedsAloneKept(e, e', op, topics, t);
  }

  // ---- Past the high-water mark ----------------------------------------------------------------

  /** All topics can poll. */
  ghost predicate AllFree(e: Engine, op: string, topics: seq<string>, limits: Limits) {
    && FeedsAlone(e, op, topics) && e.limits == limits
    && forall t :: t in topics ==> e.Stage(t).Polling? && t !in e.paused
  }

  /**
    One record more with all topics free again: the check after the record may pause its topic,
    but the next check finds the depth below the low-water mark and resumes it.
   */
  lemma OneDeeper(e: Engine, op: string, topics: seq<string>, t: string)
    returns (events: seq<Event>, e': Engine)
    requires AllFree(e, op, topics, e.limits) && t in topics && e.limits.batch >= 1
    requires e.Depth(op) <= e.limits.high && e.Depth(op) + 1 < e.limits.low
    ensures DecodableRun(e, events, e')
    ensures AllFree(e', op, topics, e.limits) && e'.Depth(op) == e.Depth(op) + 1
  {
    var first, e1 := Polled(e, op, topics, t, 1);
    var e2 := ChecksOut(e1, op, topics, t);
    var second, e3 := Polled(e2, op, topics, t, 0);
    e' := ChecksOut(e3, op, topics, t);
    Onward(e, first, e1, [Check(t)], e2);
    Onward(e, first + [Check(t)], e2, second, e3);
    Onward(e, first + [Check(t)] + second, e3, [Check(t)], e');
    events := first + [Check(t)] + second + [Check(t)];
  }

  /** Any depth up to one above the high-water mark, with all topics free, if the low-water mark is higher still. */
  lemma {:induction false} Deepen(e: Engine, op: string, topics: seq<string>, t: string, n: nat)
    returns (events: seq<Event>, e': Engine)
    requires Fresh(e, op, topics) && Alone(e, op, topics) && t in topics && e.limits.batch >= 1
    requires n <= e.limits.high + 1 && !MarksInOrder(e.limits)
    ensures DecodableRun(e, events, e')
    ensures AllFree(e', op, topics, e.limits) && e'.Depth(op) == n
  {
    if n == 0 {
      events, e' := [], e;
    } else {
      var before, e1 := Deepen(e, op, topics, t, n - 1);
      var more: seq<Event>;
      more, e' := OneDeeper(e1, op, topics, t);
      Onward(e, before, e1, more, e');
      events := before + more;
    }
  }

  /** Every topic delivers a full batch: the queue gets that many records deeper. */
  lemma {:induction false} AllDeliver(e: Engine, op: string, topics: seq<string>, k: nat)
    returns (events: seq<Event>, e': Engine)
    requires AllFree(e, op, topics, e.limits) && k <= |topics|
    ensures DecodableRun(e, events, e')
    ensures FeedsAlone(e', op, topics) && e'.limits == e.limits
    ensures e'.Depth(op) == e.Depth(op) + Times(k, e.limits.batch)
    ensures forall t :: t in topics[k..] ==> e'.Stage(t).Polling? && t !in e'.paused
  {
    if k == 0 {
      events, e' := [], e;
    } else {
      var before, e1 := AllDeliver(e, op, topics, k - 1);
      var t := topics[k - 1];
      assert topics[k - 1..] == [t] + topics[k..];
      assert t !in topics[k..];
      var more: seq<Event>;
      more, e' := Polled(e1, op, topics, t, e.limits.batch);
      Onward(e, before, e1, more, e');
      events := before + more;
    }
  }

  /** All topics deliver a full batch from a depth above the high-water mark. */
  lemma BoundBroken(e: Engine, op: string, topics: seq<string>, before: seq<Event>, e1: Engine)
    requires DecodableRun(e, before, e1) && AllFree(e1, op, topics, e.limits) && e1.Depth(op) > e.limits.high
    ensures !BoundHoldsIfDecodable(e, op, topics)
  {
    var more, e2 := AllDeliver(e1, op, topics, |topics|);
    Onward(e, before, e1, more, e2);
    TimesIsProduct(|topics|, e.limits.batch);
    assert DecodableRun(e, before + more, e2);
  }

  lemma HoldsForAll(start: Engine, op: string, topics: seq<string>)
    requires BoundHolds(start, op, topics)
    ensures BoundHoldsIfDecodable(start, op, topics)
  {
    forall events, e | DecodableRun(start, events, e)
      ensures e.Depth(op) <= HighWaterBound(start.limits, |topics|)
    {
      assert TrafficRun(start, events, e);
    }
  }

  // ---- Exactly when ----------------------------------------------------------------------------------

  /**
    Where every message decodes, the depth stays within the high-water mark and one batch for
    each topic, in all interleavings, exactly if the high-water mark is not negative and the
    low-water mark is at most one above it; engines that poll nothing need the former only.
   */
  lemma BoundHoldsIfDecodableIff(start: Engine, op: string, topics: seq<string>)
    requires Fresh(start, op, topics) && Alone(start, op, topics)
    ensures BoundHoldsIfDecodable(start, op, topics) <==>
              start.limits.high >= 0 && (start.limits.batch == 0 || MarksInOrder(start.limits))
  {
    var limits := start.limits;
    AloneIsThrottled(start, op, topics);
    if limits.high < 0 {
      assert AllFree(start, op, topics, limits);
      BoundBroken(start, op, topics, [], start);
    } else if limits.batch == 0 || MarksInOrder(limits) {
      forall events, e | DecodableRun(start, events, e)
        ensures e.Depth(op) <= HighWaterBound(limits, |topics|)
      {
        DepthBoundedWhenDecodable(start, op, topics, events, e);
      }
    } else {
      var before, e1 := Deepen(start, op, topics, topics[0], limits.high + 1);
      BoundBroken(start, op, topics, before, e1);
    }
  }

  /**
    Where messages may fail to decode, it does so exactly if in addition batches have at most
    one message: a failure skips the check, so larger batches pile up without limit.
   */
  lemma BoundHoldsIff(start: Engine, op: string, topics: seq<string>)
    requires Fresh(start, op, topics) && Alone(start, op, topics)
    ensures BoundHolds(start, op, topics) <==>
              && start.limits.high >= 0
              && (start.limits.batch == 0 || (start.limits.batch == 1 && MarksInOrder(start.limits)))
  {
    var limits := start.limits;
    AloneIsThrottled(start, op, topics);
    BoundHoldsIfDecodableIff(start, op, topics);
    if limits.batch >= 2 {
      var n := Greater(0, HighWaterBound(limits, |topics|) + 1);
      var events, e := DepthReaches(start, op, topics, topics[0], n);
      assert TrafficRun(start, events, e);
    } else if BoundHoldsIfDecodable(start, op, topics) {
      forall events, e | TrafficRun(start, events, e)
        ensures e.Depth(op) <= HighWaterBound(limits, |topics|)
      {
        SmallBatchesBounded(start, op, topics, events, e);
      }
    } else if BoundHolds(start, op, topics) {
      HoldsForAll(start, op, topics);
    }
  }
}
