/**
  Topics that feed several operators.  A check goes through all of them, so an operator that is
  never behind can resume a topic on which another one is drowning.
 */
module SharedTopics {
  import opened EdgeEngine
  import opened Checks
  import opened Backpressure
  import opened HighWater

  /** The operator's queue, if it has one, holds just what is waiting: its worker is at rest. */
  predicate AtRest(e: Engine, op: string) {
    e.HasQueue(op) ==>
      var q := e.queues[e.workerQueues[op]];
      q.busy.None? && q.unfinished == |q.items|
  }

  /** An operator other than `op` has the last queue in the list of topic `t`. */
  ghost predicate LastWord(e: Engine, t: string, op: string, k: nat) {
    LastQueue(e, e.Bound(t), k) && e.HasQueue(e.Bound(t)[k]) && e.Bound(t)[k] != op
    && op in e.workerQueues && e.workerQueues[e.Bound(t)[k]] != e.workerQueues[op]
  }

  // ---- Through the list --------------------------------------------------------------------------

  /** What the walk of topic `t` through its list keeps. */
  ghost predicate Walked(e: Engine, e': Engine, t: string) {
    && e'.limits == e.limits && e'.operators == e.operators && e'.bindings == e.bindings
    && e'.workerQueues == e.workerQueues && |e'.queues| == |e.queues| && e'.paused == e.paused
    && (forall u :: u != t ==> e'.Stage(u) == e.Stage(u))
  }

  /** Queues at rest stay so when records are put into them. */
  lemma PutAtRest(e: Engine, o: string, r: TopicRecord, b: string)
    requires AtRest(e, b)
    ensures AtRest(e.QueuePut(o, r), b)
  {
  }

  /** Where the loop of topic `t` is once the operator at its position is done with the record. */
  function NextStage(e: Engine, t: string): LoopStage
    requires e.Stage(t).Dispatching?
  {
    var Dispatching(r, at, messages) := e.Stage(t);
    if at + 1 < |e.Bound(t)| then Dispatching(r, at + 1, messages) else Delivering(messages)
  }

  lemma PutHanded(e: Engine, op: string, topics: seq<string>, t: string, b: string) returns (e': Engine)
    requires Feeds(e, op, topics) && e.Enabled(Dispatch(t)) && AtRest(e, b)
    requires var o := e.Bound(t)[e.Stage(t).at]; o in e.operators && e.operators[o]
    ensures DecodableRun(e, [Dispatch(t)], e')
    ensures Walked(e, e', t) && AtRest(e', b) && e'.Stage(t) == NextStage(e, t)
    ensures e'.Depth(op) == e.Depth(op) + if e.Bound(t)[e.Stage(t).at] == op then 1 else 0
  {
    var Dispatching(r, at, messages) := e.Stage(t);
    var o := e.Bound(t)[at];
    var put := e.QueuePut(o, r);
    PutDepth(e, op, topics, o, r);
    PutAtRest(e, o, r, b);
    assert put.Bound(t) == e.Bound(t);
    e' := put.AtStage(t, NextStage(e, t));
    assert e' == e.Dispatched(t);
    TraceRuns([Dispatch(t)], [e, e']);
  }

  lemma SkipHanded(e: Engine, op: string, topics: seq<string>, t: string) returns (e': Engine)
    requires Feeds(e, op, topics) && e.Enabled(Dispatch(t)) && e.Bound(t)[e.Stage(t).at] !in e.operators
    ensures DecodableRun(e, [Dispatch(t)], e')
    ensures Walked(e, e', t) && e'.queues == e.queues && e'.Stage(t) == NextStage(e, t)
  {
    e' := e.AtStage(t, NextStage(e, t));
    TraceRuns([Dispatch(t)], [e, e']);
  }

  lemma InlineHanded(e: Engine, op: string, topics: seq<string>, t: string) returns (e': Engine)
    requires Feeds(e, op, topics) && e.Enabled(Dispatch(t))
    requires var o := e.Bound(t)[e.Stage(t).at]; o in e.operators && !e.operators[o]
    ensures DecodableRun(e, [Dispatch(t), FinishInline(t, false)], e')
    ensures Walked(e, e', t) && e'.queues == e.queues && e'.Stage(t) == NextStage(e, t)
  {
    var Dispatching(r, at, messages) := e.Stage(t);
    var e1 := e.AtStage(t, Processing(e.Bound(t)[at], r, at + 1, messages));
    assert e1.Bound(t) == e.Bound(t);
    e' := e1.FinishedInline(t, false);
    TraceRuns([Dispatch(t), FinishInline(t, false)], [e, e1, e']);
  }

  lemma SameDepth(e: Engine, e': Engine, t: string, op: string, b: string)
    requires Walked(e, e', t) && e'.queues == e.queues
    ensures e'.Depth(op) == e.Depth(op) && (AtRest(e, b) ==> AtRest(e', b))
  {
  }

  /** One operator is handed the record; one that runs in the loop finishes it at once. */
  lemma OneHanded(e: Engine, op: string, topics: seq<string>, t: string, b: string)
    returns (events: seq<Event>, e': Engine)
    requires Feeds(e, op, topics) && e.Enabled(Dispatch(t)) && AtRest(e, b)
    ensures DecodableRun(e, events, e')
    ensures Walked(e, e', t) && AtRest(e', b) && e'.Stage(t) == NextStage(e, t)
    ensures e'.Depth(op) == e.Depth(op) + if e.Bound(t)[e.Stage(t).at] == op then 1 else 0
  {
    var o := e.Bound(t)[e.Stage(t).at];
    if o in e.operators && e.operators[o] {
      e' := PutHanded(e, op, topics, t, b);
      events := [Dispatch(t)];
    } else if o in e.operators {
      e' := InlineHanded(e, op, topics, t);
      events := [Dispatch(t), FinishInline(t, false)];
      SameDepth(e, e', t, op, b);
    } else {
      e' := SkipHanded(e, op, topics, t);
      events := [Dispatch(t)];
      SameDepth(e, e', t, op, b);
    }
  }

  lemma WalkedOn(a: Engine, b: Engine, c: Engine, t: string)
    requires Walked(a, b, t) && Walked(b, c, t)
    ensures Walked(a, c, t)
  {
  }

  lemma WalkedFeeds(e: Engine, e': Engine, op: string, topics: seq<string>, t: string)
    requires Feeds(e, op, topics) && Walked(e, e', t)
    ensures Feeds(e', op, topics)
  {
    FeedsKept(e, e', op, topics, t);
  }

  /** The rest of the list is handed the record. */
  lemma {:induction false} HandedOn(e: Engine, op: string, topics: seq<string>, t: string, b: string)
    returns (events: seq<Event>, e': Engine)
    requires Feeds(e, op, topics) && e.Enabled(Dispatch(t)) && AtRest(e, b)
    ensures DecodableRun(e, events, e')
    ensures Walked(e, e', t) && AtRest(e', b) && e'.Stage(t) == Delivering(e.Stage(t).messages)
    ensures e'.Depth(op) == e.Depth(op) + From(e, op, t, e.Stage(t).at)
    decreases |e.Bound(t)| - e.Stage(t).at
  {
    var at := e.Stage(t).at;
    var e1: Engine;
    events, e1 := OneHanded(e, op, topics, t, b);
    FromStep(e, op, t, at);
    assert e1.Bound(t) == e.Bound(t);
    if at + 1 < |e.Bound(t)| {
      WalkedFeeds(e, e1, op, topics, t);
      var more: seq<Event>;
      more, e' := HandedOn(e1, op, topics, t, b);
      Onward(e, events, e1, more, e');
      WalkedOn(e, e1, e', t);
      events := events + more;
    } else {
      e' := e1;
      assert e.Bound(t)[at + 1..] == [];
    }
  }

  /** Topic `t` polls one message and hands its record to every operator in the list. */
  lemma OnePolled(e: Engine, op: string, topics: seq<string>, t: string, b: string)
    returns (events: seq<Event>, e': Engine)
    requires Feeds(e, op, topics) && t in topics && e.Stage(t).Polling? && t !in e.paused && e.limits.batch >= 1
    requires AtRest(e, b)
    ensures DecodableRun(e, events, e')
    ensures Walked(e, e', t) && AtRest(e', b) && e'.Stage(t) == Delivering([]) && e'.Depth(op) == e.Depth(op) + 1
  {
    var r := TopicRecord("", 0);
    assert e.Bound(t) != [];
    var e1 := e.AtStage(t, Delivering([Good(r)]));
    var e2 := e1.AtStage(t, Dispatching(r, 0, []));
    assert [Good(r)][1..] == [];
    assert e1.Bound(t) == e.Bound(t) && e2.Bound(t) == e.Bound(t);
    var first := [Poll(t, [Good(r)]), Decode(t)];
    TraceRuns(first, [e, e1, e2]);
    WalkedFeeds(e, e2, op, topics, t);
    FromStart(e2, op, t);
    var more: seq<Event>;
    more, e' := HandedOn(e2, op, topics, t, b);
    Onward(e, first, e2, more, e');
    events := first + more;
  }

  // ---- The other operator catches up ---------------------------------------------------------------

  /** Everything but the other operator's queue is as it was. */
  ghost predicate OnlyQueue(e: Engine, e': Engine, b: string) {
    && e.HasQueue(b) && |e'.queues| == |e.queues|
    && e' == e.(queues := e'.queues, inlineLog := e'.inlineLog)
    && forall q :: 0 <= q < |e.queues| && q != e.workerQueues[b] ==> e'.queues[q] == e.queues[q]
  }

  lemma {:induction false} CatchesUp(e: Engine, b: string) returns (events: seq<Event>, e': Engine)
    requires e.HasQueue(b) && AtRest(e, b)
    ensures DecodableRun(e, events, e') && OnlyQueue(e, e', b)
    ensures AtRest(e', b) && e'.queues[e.workerQueues[b]].items == []
    decreases |e.queues[e.workerQueues[b]].items|
  {
    var q := e.workerQueues[b];
    if e.queues[q].items == [] {
      events, e' := [], e;
    } else {
      var e1 := e.Taken(q);
      var e2 := e1.FinishedTake(q, false);
      TraceRuns([Take(q), Finish(q, false)], [e, e1, e2]);
      var more: seq<Event>;
      more, e' := CatchesUp(e2, b);
      Onward(e, [Take(q), Finish(q, false)], e2, more, e');
      events := [Take(q), Finish(q, false)] + more;
    }
  }

  // ---- One round --------------------------------------------------------------------------------------

  /** Ready for a round: the topic can poll, and the operator with the last word is at rest. */
  ghost predicate RoundReady(e: Engine, op: string, topics: seq<string>, t: string, k: nat) {
    && Feeds(e, op, topics) && t in topics && e.Stage(t).Polling? && t !in e.paused
    && LastWord(e, t, op, k) && AtRest(e, e.Bound(t)[k])
  }

  lemma LastWordKept(e: Engine, e': Engine, t: string, op: string, k: nat)
    requires LastWord(e, t, op, k) && e'.Bound(t) == e.Bound(t)
    requires e'.workerQueues == e.workerQueues && |e'.queues| == |e.queues|
    ensures LastWord(e', t, op, k)
  {
    assert forall o :: e'.HasQueue(o) <==> e.HasQueue(o);
  }

  /** The check of a topic whose last queue is empty leaves it free. */
  lemma EmptyQueueResumes(e: Engine, op: string, t: string, k: nat)
    requires LastWord(e, t, op, k) && e.queues[e.workerQueues[e.Bound(t)[k]]].items == []
    requires e.limits.high >= 0 && e.limits.low > 0
    ensures t !in e.Checked(t).paused
  {
    assert Below(e, e.Bound(t)[k]) && !Above(e, e.Bound(t)[k]);
    LastQueueDecides(e, t, e.Bound(t), k);
  }

  /** One record more for the operator, and the topic is free again, however deep its queue is. */
  lemma OneRound(e: Engine, op: string, topics: seq<string>, t: string, k: nat)
    returns (events: seq<Event>, e': Engine)
    requires RoundReady(e, op, topics, t, k) && e.limits.batch >= 1 && e.limits.high >= 0 && e.limits.low > 0
    ensures DecodableRun(e, events, e')
    ensures RoundReady(e', op, topics, t, k) && e'.Depth(op) == e.Depth(op) + 1 && e'.limits == e.limits
  {
    var b := e.Bound(t)[k];
    var first, e1 := OnePolled(e, op, topics, t, b);
    assert e1.Bound(t) == e.Bound(t);
    LastWordKept(e, e1, t, op, k);
    WalkedFeeds(e, e1, op, topics, t);
    var second, e2 := CatchesUp(e1, b);
    assert e2.Bound(t) == e.Bound(t);
    LastWordKept(e1, e2, t, op, k);
    WalkedFeeds(e1, e2, op, topics, t);
    EmptyQueueResumes(e2, op, t, k);
    e' := CheckedFree(e2, op, topics, t, k);
    Onward(e, first, e1, second, e2);
    Onward(e, first + second, e2, [Check(t)], e');
    events := first + second + [Check(t)];
  }

  lemma CheckedFree(e: Engine, op: string, topics: seq<string>, t: string, k: nat) returns (e': Engine)
    requires Feeds(e, op, topics) && t in topics && e.Stage(t) == Delivering([]) && t !in e.Checked(t).paused
    requires LastWord(e, t, op, k) && AtRest(e, e.Bound(t)[k])
    ensures DecodableRun(e, [Check(t)], e')
    ensures RoundReady(e', op, topics, t, k) && e'.Depth(op) == e.Depth(op) && e'.limits == e.limits
  {
    e' := e.Next(Check(t));
    OnlyFlags(e, t, e.Bound(t));
    TraceRuns([Check(t)], [e, e']);
    FeedsKept(e, e', op, topics, t);
    assert e'.Bound(t) == e.Bound(t);
    LastWordKept(e, e', t, op, k);
  }

  lemma {:induction false} AnyDepth(e: Engine, op: string, topics: seq<string>, t: string, k: nat, n: nat)
    returns (events: seq<Event>, e': Engine)
    requires RoundReady(e, op, topics, t, k) && e.limits.batch >= 1 && e.limits.high >= 0 && e.limits.low > 0
    ensures DecodableRun(e, events, e')
    ensures RoundReady(e', op, topics, t, k) && e'.Depth(op) == e.Depth(op) + n && e'.limits == e.limits
  {
    if n == 0 {
      events, e' := [], e;
    } else {
      var before, e1 := AnyDepth(e, op, topics, t, k, n - 1);
      var more: seq<Event>;
      more, e' := OneRound(e1, op, topics, t, k);
      Onward(e, before, e1, more, e');
      events := before + more;
    }
  }

  // ---- Exactly when -------------------------------------------------------------------------------------

  /** Every operator bound to one of the topics has a queue of its own, at rest. */
  ghost predicate QueuesAtRest(e: Engine, op: string, topics: seq<string>) {
    forall t, o :: t in topics && o in e.Bound(t) ==> AtRest(e, o)
  }

  /** If none of the operator's positions has the last queue, another operator has. */
  lemma {:induction false} SomeLastQueue(e: Engine, ops: seq<string>, n: nat) returns (k: nat)
    requires n <= |ops| && (exists j :: 0 <= j < n && e.HasQueue(ops[j]))
    requires forall j :: n <= j < |ops| ==> !e.HasQueue(ops[j])
    ensures k < n && e.HasQueue(ops[k]) && LastQueue(e, ops, k)
  {
    if e.HasQueue(ops[n - 1]) {
      k := n - 1;
    } else {
      k := SomeLastQueue(e, ops, n - 1);
    }
  }

  lemma AnotherHasLastWord(e: Engine, op: string, topics: seq<string>, t: string) returns (k: nat)
    requires Feeds(e, op, topics) && t in topics && !Throttles(e, op, t)
    ensures LastWord(e, t, op, k)
  {
    var ops := e.Bound(t);
    assert op in multiset(ops);
    var j :| 0 <= j < |ops| && ops[j] == op;
    assert e.HasQueue(ops[j]);
    k := SomeLastQueue(e, ops, |ops|);
    assert !LastAt(e, op, t, k);
  }

  /**
    Topics that feed several operators, marks in order, every message decodes: the depth of the
    operator's queue stays within the high-water mark and one batch for each topic, in all
    interleavings, exactly if no other operator bound after it has a queue, on any of its topics,
    or the low-water mark is not positive.  Otherwise nothing bounds it: an operator that keeps
    up resumes the topic at every check.
   */
  lemma SharedBoundIff(start: Engine, op: string, topics: seq<string>)
    requires Fresh(start, op, topics) && QueuesAtRest(start, op, topics)
    requires start.limits.batch >= 1 && start.limits.high >= 0 && MarksInOrder(start.limits)
    ensures BoundHoldsIfDecodable(start, op, topics) <==> Throttled(start, op, topics)
  {
    var bound := HighWaterBound(start.limits, |topics|);
    if Throttled(start, op, topics) {
      forall events, e | DecodableRun(start, events, e)
        ensures e.Depth(op) <= bound
      {
        DepthBoundedWhenDecodable(start, op, topics, events, e);
      }
    } else {
      var t :| t in topics && !Throttles(start, op, t);
      var k := AnotherHasLastWord(start, op, topics, t);
      var events, e := AnyDepth(start, op, topics, t, k, Greater(0, bound) + 1);
      assert DecodableRun(start, events, e);
    }
  }
}
