/**
  How deep a worker queue can get while its topics poll, deliver, check and pause in any
  interleaving with each other, with the worker and with the rest of the engine.
 */
module Backpressure {
  import opened Wrappers
  import opened Sequences
  import opened EdgeEngine
  import opened Checks

  /** Record traffic: everything but registration and deregistration. */
  predicate Traffic(e: Event) {
    e.Poll? || e.Decode? || e.Dispatch? || e.FinishInline? || e.Check? || e.Take? || e.Finish?
  }

  /** A batch of one of `topics` is abandoned because a message does not decode. */
  predicate Aborts(e: Engine, topics: seq<string>, ev: Event) {
    ev.Decode? && ev.topic in topics && e.Stage(ev.topic).Delivering?
    && e.Stage(ev.topic).messages != [] && e.Stage(ev.topic).messages[0].Malformed?
  }

  /** Abandoned batches in a run. */
  function AbortCount(start: Engine, topics: seq<string>, events: seq<Event>): nat
    decreases |events|
  {
    if events == [] then 0
    else
      var init := events[..|events| - 1];
      AbortCount(start, topics, init)
      + match Run(start, init)
        case None => 0
        case Some(e) => if Aborts(e, topics, events[|events| - 1]) then 1 else 0
  }

  /**
    `topics` are exactly the topics that feed the CPU-bound operator `op`.  Each may feed other
    operators as well; `op` is bound to it once.
   */
  ghost predicate Feeds(e: Engine, op: string, topics: seq<string>) {
    && Distinct(topics)
    && op in e.operators && e.operators[op] && e.HasQueue(op)
    && (forall t :: t in topics ==> multiset(e.Bound(t))[op] == 1)
    && (forall t :: t !in topics ==> op !in e.Bound(t))
    && (forall o :: o in e.workerQueues && o != op ==> e.workerQueues[o] != e.workerQueues[op])
  }

  /** Position `k` of the topic's list is the operator's, and no operator after it has a queue. */
  ghost predicate LastAt(e: Engine, op: string, t: string, k: nat) {
    LastQueue(e, e.Bound(t), k) && e.Bound(t)[k] == op
  }

  /** No other operator can resume the topic once a check has found this one above the marks. */
  ghost predicate Throttles(e: Engine, op: string, t: string) {
    e.limits.low <= 0 || exists k :: LastAt(e, op, t, k)
  }

  ghost predicate Throttled(e: Engine, op: string, topics: seq<string>) {
    forall t :: t in topics ==> Throttles(e, op, t)
  }

  /** The topics feed no other operator. */
  ghost predicate Alone(e: Engine, op: string, topics: seq<string>) {
    forall t :: t in topics ==> e.Bound(t) == [op]
  }

  lemma AloneIsThrottled(e: Engine, op: string, topics: seq<string>)
    requires Alone(e, op, topics)
    ensures Throttled(e, op, topics)
  {
    forall t | t in topics
      ensures Throttles(e, op, t)
    {
      assert LastAt(e, op, t, 0);
    }
  }

  /** Nothing of the operator's traffic is under way. */
  ghost predicate Idle(e: Engine, op: string, topics: seq<string>) {
    && Feeds(e, op, topics)
    && e.Depth(op) == 0
    && (forall t :: t in topics ==> e.Stage(t).Polling?)
  }

  /** How often the operators from position `at` on include `op`. */
  function From(e: Engine, op: string, t: string, at: nat): nat {
    if at <= |e.Bound(t)| then multiset(e.Bound(t)[at..])[op] else 0
  }

  /** Whether the record in hand is still on its way to the operator. */
  function InHand(e: Engine, op: string, t: string): nat {
    match e.Stage(t)
    case Dispatching(_, at, _) => From(e, op, t, at)
    case Processing(_, _, at, _) => From(e, op, t, at)
    case _ => 0
  }

  function Messages(s: LoopStage): seq<Message> {
    match s
    case Polling => []
    case Delivering(ms) => ms
    case Dispatching(_, _, ms) => ms
    case Processing(_, _, _, ms) => ms
  }

  /** How many records a topic can still put into the operator's queue before its next check. */
  function Credit(e: Engine, op: string, t: string): nat {
    if e.Stage(t).Polling? then (if t in e.paused then 0 else e.limits.batch)
    else InHand(e, op, t) + |Messages(e.Stage(t))|
  }

  function TotalCredit(e: Engine, op: string, topics: seq<string>): nat {
    if topics == [] then 0 else TotalCredit(e, op, topics[..|topics| - 1]) + Credit(e, op, topics[|topics| - 1])
  }

  function Times(n: nat, m: nat): nat {
    if n == 0 then 0 else Times(n - 1, m) + m
  }

  lemma {:induction false} TimesIsProduct(n: nat, m: nat)
    ensures Times(n, m) == n * m
  {
    if n > 0 {
      TimesIsProduct(n - 1, m);
    }
  }

  function Greater(a: int, b: int): int {
    if a >= b then a else b
  }

  /**
    The greatest depth at which a check leaves a topic free to poll records: up to the high-water
    mark it does not pause, and below the low-water mark it resumes.
   */
  function Threshold(limits: Limits): nat {
    if limits.batch == 0 then 0 else Greater(0, Greater(limits.high, limits.low - 1))
  }

  function Excess(limits: Limits): nat {
    if limits.batch == 0 then 0 else limits.batch - 1
  }

  /** The bound on the queue depth after `aborts` abandoned batches. */
  function DepthBound(limits: Limits, k: nat, aborts: nat): nat {
    Threshold(limits) + Times(k, limits.batch) + Times(aborts, Excess(limits))
  }

  /** No topic is ever ahead of its credit. */
  ghost predicate WithinCredit(e: Engine, op: string, topics: seq<string>, aborts: nat) {
    && Feeds(e, op, topics) && Throttled(e, op, topics)
    && (forall t :: t in topics ==> StageOk(e, op, t))
    && e.Depth(op) + TotalCredit(e, op, topics) <= DepthBound(e.limits, |topics|, aborts)
  }

  /** Loops stay within the binding list. */
  predicate InList(e: Engine, t: string) {
    match e.Stage(t)
    case Dispatching(_, at, _) => at < |e.Bound(t)|
    case Processing(_, _, at, _) => at <= |e.Bound(t)|
    case _ => true
  }

  ghost predicate StageOk(e: Engine, op: string, t: string) {
    Credit(e, op, t) <= e.limits.batch && InList(e, t)
  }

  // ---- Sums of credits ---------------------------------------------------------------------

  lemma {:induction false} CreditFrame(e: Engine, e': Engine, op: string, topics: seq<string>)
    requires forall t :: t in topics ==> Credit(e', op, t) == Credit(e, op, t)
    ensures TotalCredit(e', op, topics) == TotalCredit(e, op, topics)
  {
    if topics != [] {
      CreditFrame(e, e', op, topics[..|topics| - 1]);
    }
  }

  lemma {:induction false} CreditChange(e: Engine, e': Engine, op: string, topics: seq<string>, t: string)
    requires Distinct(topics) && t in topics
    requires forall u :: u in topics && u != t ==> Credit(e', op, u) == Credit(e, op, u)
    ensures TotalCredit(e', op, topics) + Credit(e, op, t) == TotalCredit(e, op, topics) + Credit(e', op, t)
  {
    var init, last := topics[..|topics| - 1], topics[|topics| - 1];
    assert topics == init + [last];
    if t == last {
      assert t !in init;
      CreditFrame(e, e', op, init);
    } else {
      CreditChange(e, e', op, init, t);
    }
  }

  lemma {:induction false} CreditCap(e: Engine, op: string, topics: seq<string>)
    requires forall t :: t in topics ==> Credit(e, op, t) <= e.limits.batch
    ensures TotalCredit(e, op, topics) <= Times(|topics|, e.limits.batch)
  {
    if topics != [] {
      CreditCap(e, op, topics[..|topics| - 1]);
    }
  }

  /** A topic without credit leaves room for one more batch. */
  lemma {:induction false} CreditRoom(e: Engine, op: string, topics: seq<string>, t: string)
    requires forall u :: u in topics ==> Credit(e, op, u) <= e.limits.batch
    requires Distinct(topics) && t in topics && Credit(e, op, t) == 0
    ensures TotalCredit(e, op, topics) + e.limits.batch <= Times(|topics|, e.limits.batch)
  {
    var init, last := topics[..|topics| - 1], topics[|topics| - 1];
    assert topics == init + [last];
    if t == last {
      CreditCap(e, op, init);
    } else {
      CreditRoom(e, op, init, t);
    }
  }

  // ---- Going through the list ------------------------------------------------------------------

  lemma FromStep(e: Engine, op: string, t: string, at: nat)
    requires at < |e.Bound(t)|
    ensures From(e, op, t, at) == From(e, op, t, at + 1) + if e.Bound(t)[at] == op then 1 else 0
  {
    assert e.Bound(t)[at..] == [e.Bound(t)[at]] + e.Bound(t)[at + 1..];
  }

  lemma FromStart(e: Engine, op: string, t: string)
    ensures From(e, op, t, 0) == multiset(e.Bound(t))[op]
  {
    assert e.Bound(t)[0..] == e.Bound(t);
  }

  /** Where the loop goes on with a record, the credit is what is still on its way. */
  lemma OnwardCredit(e: Engine, op: string, t: string, r: TopicRecord, at: nat, messages: seq<Message>)
    requires at <= |e.Bound(t)|
    ensures var e' := e.Onward(t, r, at, messages);
            Credit(e', op, t) == From(e, op, t, at) + |messages| && InList(e', t)
  {
    var e' := e.Onward(t, r, at, messages);
    assert e'.Bound(t) == e.Bound(t);
    if at == |e.Bound(t)| {
      assert e.Bound(t)[at..] == [];
    }
  }

  // ---- One step --------------------------------------------------------------------------------

  /** What a step of topic `t` leaves alone: the other loops, flags and all registrations. */
  ghost predicate OnlyTopic(e: Engine, e': Engine, t: string) {
    && e'.limits == e.limits && e'.operators == e.operators && e'.bindings == e.bindings
    && e'.workerQueues == e.workerQueues && |e'.queues| == |e.queues|
    && (forall u :: u != t ==> e'.Stage(u) == e.Stage(u) && (u in e'.paused <==> u in e.paused))
  }

  lemma FeedsKept(e: Engine, e': Engine, op: string, topics: seq<string>, t: string)
    requires Feeds(e, op, topics) && OnlyTopic(e, e', t)
    ensures Feeds(e', op, topics) && (Throttled(e, op, topics) ==> Throttled(e', op, topics))
  {
    forall u
      ensures e'.Bound(u) == e.Bound(u)
    {
    }
    if Throttled(e, op, topics) {
      forall u | u in topics
        ensures Throttles(e', op, u)
      {
        ThrottlesKept(e, e', op, u);
      }
    }
  }

  lemma ThrottlesKept(e: Engine, e': Engine, op: string, u: string)
    requires Throttles(e, op, u) && e'.limits == e.limits && e'.Bound(u) == e.Bound(u)
    requires e'.workerQueues == e.workerQueues && |e'.queues| == |e.queues|
    ensures Throttles(e', op, u)
  {
    if e.limits.low > 0 {
      var k :| LastAt(e, op, u, k);
      assert forall o :: e'.HasQueue(o) <==> e.HasQueue(o);
      assert LastAt(e', op, u, k);
    }
  }

  lemma OthersOk(e: Engine, e': Engine, op: string, topics: seq<string>, t: string, aborts: nat)
    requires WithinCredit(e, op, topics, aborts) && OnlyTopic(e, e', t)
    ensures forall u :: u in topics && u != t ==> StageOk(e', op, u) && Credit(e', op, u) == Credit(e, op, u)
  {
    forall u | u in topics && u != t
      ensures StageOk(e', op, u) && Credit(e', op, u) == Credit(e, op, u)
    {
      assert StageOk(e, op, u) && e'.Bound(u) == e.Bound(u);
    }
  }

  /** A step of a feeding topic that does not raise depth plus credit keeps the bound. */
  lemma FeedingStep(e: Engine, e': Engine, op: string, topics: seq<string>, t: string, aborts: nat)
    requires WithinCredit(e, op, topics, aborts) && t in topics && OnlyTopic(e, e', t)
    requires StageOk(e', op, t)
    requires e'.Depth(op) + Credit(e', op, t) <= e.Depth(op) + Credit(e, op, t)
    ensures WithinCredit(e', op, topics, aborts)
  {
    FeedsKept(e, e', op, topics, t);
    OthersOk(e, e', op, topics, t, aborts);
    CreditChange(e, e', op, topics, t);
  }

  lemma ForeignStep(e: Engine, e': Engine, op: string, topics: seq<string>, t: string, aborts: nat)
    requires WithinCredit(e, op, topics, aborts) && t !in topics && OnlyTopic(e, e', t)
    requires e'.Depth(op) == e.Depth(op)
    ensures WithinCredit(e', op, topics, aborts)
  {
    FeedsKept(e, e', op, topics, t);
    OthersOk(e, e', op, topics, t, aborts);
    CreditFrame(e, e', op, topics);
  }

  lemma PollStep(e: Engine, op: string, topics: seq<string>, aborts: nat, t: string, messages: seq<Message>)
    requires WithinCredit(e, op, topics, aborts) && e.Enabled(Poll(t, messages))
    ensures WithinCredit(e.Next(Poll(t, messages)), op, topics, aborts)
  {
    var e' := e.Next(Poll(t, messages));
    if t in topics {
      FeedingStep(e, e', op, topics, t, aborts);
    } else {
      ForeignStep(e, e', op, topics, t, aborts);
    }
  }

  lemma DecodeStep(e: Engine, op: string, topics: seq<string>, aborts: nat, t: string)
    requires WithinCredit(e, op, topics, aborts) && e.Enabled(Decode(t)) && !Aborts(e, topics, Decode(t))
    ensures WithinCredit(e.Next(Decode(t)), op, topics, aborts)
  {
    if t in topics {
      var r, rest := e.Stage(t).messages[0].record, e.Stage(t).messages[1..];
      assert StageOk(e, op, t);
      FromStart(e, op, t);
      OnwardCredit(e, op, t, r, 0, rest);
      FeedingStep(e, e.Onward(t, r, 0, rest), op, topics, t, aborts);
    } else {
      DecodeForeign(e, op, topics, aborts, t);
    }
  }

  lemma DecodeForeign(e: Engine, op: string, topics: seq<string>, aborts: nat, t: string)
    requires WithinCredit(e, op, topics, aborts) && e.Enabled(Decode(t)) && t !in topics
    ensures WithinCredit(e.Decoded(t), op, topics, aborts)
  {
    ForeignStep(e, e.Decoded(t), op, topics, t, aborts);
  }

  /** An abandoned batch hands the topic a fresh one without a check in between. */
  lemma AbortStep(e: Engine, op: string, topics: seq<string>, aborts: nat, t: string)
    requires WithinCredit(e, op, topics, aborts) && e.Enabled(Decode(t)) && Aborts(e, topics, Decode(t))
    ensures WithinCredit(e.Next(Decode(t)), op, topics, aborts + 1)
  {
    var e' := e.Next(Decode(t));
    assert StageOk(e, op, t);
    FeedsKept(e, e', op, topics, t);
    OthersOk(e, e', op, topics, t, aborts);
    CreditChange(e, e', op, topics, t);
    assert Credit(e', op, t) <= Credit(e, op, t) + Excess(e.limits);
  }

  lemma PutDepth(e: Engine, op: string, topics: seq<string>, o: string, r: TopicRecord)
    requires Feeds(e, op, topics)
    ensures e.QueuePut(o, r).Depth(op) == e.Depth(op) + if o == op then 1 else 0
    ensures |e.QueuePut(o, r).queues| == |e.queues|
  {
  }

  lemma DispatchStep(e: Engine, op: string, topics: seq<string>, aborts: nat, t: string)
    requires WithinCredit(e, op, topics, aborts) && e.Enabled(Dispatch(t))
    ensures WithinCredit(e.Next(Dispatch(t)), op, topics, aborts)
  {
    if t in topics {
      DispatchFeeding(e, op, topics, aborts, t);
    } else {
      DispatchForeign(e, e.Next(Dispatch(t)), op, topics, aborts, t);
    }
  }

  /** The record goes to the next operator in the list; if it is this one the queue takes over the credit. */
  lemma DispatchFeeding(e: Engine, op: string, topics: seq<string>, aborts: nat, t: string)
    requires WithinCredit(e, op, topics, aborts) && e.Enabled(Dispatch(t)) && t in topics
    ensures WithinCredit(e.Dispatched(t), op, topics, aborts)
  {
    var o := e.Bound(t)[e.Stage(t).at];
    if o in e.operators && e.operators[o] {
      PutFeeding(e, op, topics, aborts, t, o);
    } else if o in e.operators {
      InlineFeeding(e, op, topics, aborts, t, o);
    } else {
      SkipFeeding(e, op, topics, aborts, t, o);
    }
  }

  /** After the hand-over the credit is what is left of the list; the depth has grown if it was this one's turn. */
  ghost predicate HandedOver(e: Engine, e': Engine, op: string, t: string)
    requires e.Enabled(Dispatch(t))
  {
    && OnlyTopic(e, e', t) && InList(e', t)
    && Credit(e', op, t) == From(e, op, t, e.Stage(t).at + 1) + |Messages(e.Stage(t))|
    && e'.Depth(op) == e.Depth(op) + if e.Bound(t)[e.Stage(t).at] == op then 1 else 0
  }

  lemma HandedOverFeeding(e: Engine, e': Engine, op: string, topics: seq<string>, aborts: nat, t: string)
    requires WithinCredit(e, op, topics, aborts) && e.Enabled(Dispatch(t)) && t in topics && HandedOver(e, e', op, t)
    ensures WithinCredit(e', op, topics, aborts)
  {
    assert StageOk(e, op, t);
    FromStep(e, op, t, e.Stage(t).at);
    FeedingStep(e, e', op, topics, t, aborts);
  }

  lemma InlineFeeding(e: Engine, op: string, topics: seq<string>, aborts: nat, t: string, o: string)
    requires WithinCredit(e, op, topics, aborts) && e.Enabled(Dispatch(t)) && t in topics
    requires o == e.Bound(t)[e.Stage(t).at] && o in e.operators && !e.operators[o]
    ensures WithinCredit(e.Dispatched(t), op, topics, aborts)
  {
    InlineHandsOver(e, op, t, o);
    HandedOverFeeding(e, e.Dispatched(t), op, topics, aborts, t);
  }

  lemma InlineHandsOver(e: Engine, op: string, t: string, o: string)
    requires e.Enabled(Dispatch(t)) && o == e.Bound(t)[e.Stage(t).at] && o in e.operators && !e.operators[o]
    requires op in e.operators && e.operators[op]
    ensures HandedOver(e, e.Dispatched(t), op, t)
  {
    assert e.Dispatched(t).Bound(t) == e.Bound(t);
  }

  lemma SkipFeeding(e: Engine, op: string, topics: seq<string>, aborts: nat, t: string, o: string)
    requires WithinCredit(e, op, topics, aborts) && e.Enabled(Dispatch(t)) && t in topics
    requires o == e.Bound(t)[e.Stage(t).at] && o !in e.operators
    ensures WithinCredit(e.Dispatched(t), op, topics, aborts)
  {
    SkipHandsOver(e, op, t, o);
    HandedOverFeeding(e, e.Dispatched(t), op, topics, aborts, t);
  }

  lemma SkipHandsOver(e: Engine, op: string, t: string, o: string)
    requires e.Enabled(Dispatch(t)) && o == e.Bound(t)[e.Stage(t).at] && o !in e.operators && op in e.operators
    ensures HandedOver(e, e.Dispatched(t), op, t)
  {
    OnwardCredit(e, op, t, e.Stage(t).record, e.Stage(t).at + 1, e.Stage(t).messages);
  }

  lemma PutFeeding(e: Engine, op: string, topics: seq<string>, aborts: nat, t: string, o: string)
    requires WithinCredit(e, op, topics, aborts) && e.Enabled(Dispatch(t)) && t in topics
    requires o == e.Bound(t)[e.Stage(t).at] && o in e.operators && e.operators[o]
    ensures WithinCredit(e.Dispatched(t), op, topics, aborts)
  {
    PutDepth(e, op, topics, o, e.Stage(t).record);
    PutDispatched(e, t, o);
    PutHandsOver(e, e.QueuePut(o, e.Stage(t).record), e.Dispatched(t), op, t);
    HandedOverFeeding(e, e.Dispatched(t), op, topics, aborts, t);
  }

  lemma PutDispatched(e: Engine, t: string, o: string)
    requires e.Enabled(Dispatch(t)) && o == e.Bound(t)[e.Stage(t).at] && o in e.operators && e.operators[o]
    ensures e.Dispatched(t)
         == e.QueuePut(o, e.Stage(t).record).Onward(t, e.Stage(t).record, e.Stage(t).at + 1, e.Stage(t).messages)
  {
  }

  lemma PutHandsOver(e: Engine, put: Engine, e': Engine, op: string, t: string)
    requires e.Enabled(Dispatch(t)) && put == e.(queues := put.queues) && |put.queues| == |e.queues|
    requires put.Depth(op) == e.Depth(op) + if e.Bound(t)[e.Stage(t).at] == op then 1 else 0
    requires e' == put.Onward(t, e.Stage(t).record, e.Stage(t).at + 1, e.Stage(t).messages)
    ensures HandedOver(e, e', op, t)
  {
    var Dispatching(r, at, messages) := e.Stage(t);
    assert put.Bound(t) == e.Bound(t);
    OnwardCredit(put, op, t, r, at + 1, messages);
    OnwardOnly(put, t, r, at + 1, messages);
  }

  lemma OnwardOnly(e: Engine, t: string, r: TopicRecord, at: nat, messages: seq<Message>)
    ensures var e' := e.Onward(t, r, at, messages);
            e' == e.(loops := e'.loops) && forall u :: u != t ==> e'.Stage(u) == e.Stage(u)
  {
  }

  /** Moving a loop that does not feed the operator changes nothing for it. */
  lemma StageForeign(e: Engine, op: string, topics: seq<string>, aborts: nat, t: string, next: LoopStage)
    requires WithinCredit(e, op, topics, aborts) && t !in topics
    ensures WithinCredit(e.AtStage(t, next), op, topics, aborts)
  {
    ForeignStep(e, e.AtStage(t, next), op, topics, t, aborts);
  }

  /** Nor does a record for another operator. */
  lemma PutForeign(e: Engine, op: string, topics: seq<string>, aborts: nat, o: string, r: TopicRecord, t: string)
    requires WithinCredit(e, op, topics, aborts) && t !in topics && o != op
    ensures WithinCredit(e.QueuePut(o, r), op, topics, aborts)
  {
    PutDepth(e, op, topics, o, r);
    ForeignStep(e, e.QueuePut(o, r), op, topics, t, aborts);
  }

  lemma DispatchForeign(e: Engine, e': Engine, op: string, topics: seq<string>, aborts: nat, t: string)
    requires WithinCredit(e, op, topics, aborts) && e.Enabled(Dispatch(t)) && t !in topics && e' == e.Next(Dispatch(t))
    ensures WithinCredit(e', op, topics, aborts)
  {
    var Dispatching(r, at, messages) := e.Stage(t);
    var o := e.Bound(t)[at];
    assert o in e.Bound(t) && op !in e.Bound(t);
    if o in e.operators && e.operators[o] {
      PutForeign(e, op, topics, aborts, o, r, t);
      StageForeign(e.QueuePut(o, r), op, topics, aborts, t, e'.Stage(t));
    } else {
      StageForeign(e, op, topics, aborts, t, e'.Stage(t));
    }
  }

  lemma InlineStep(e: Engine, op: string, topics: seq<string>, aborts: nat, t: string, raised: bool)
    requires WithinCredit(e, op, topics, aborts) && e.Enabled(FinishInline(t, raised))
    ensures WithinCredit(e.Next(FinishInline(t, raised)), op, topics, aborts)
  {
    var e' := e.FinishedInline(t, raised);
    if t in topics {
      var Processing(o, r, at, messages) := e.Stage(t);
      assert StageOk(e, op, t);
      var logged := e.(inlineLog := e'.inlineLog);
      assert logged.Bound(t) == e.Bound(t);
      OnwardCredit(logged, op, t, r, at, messages);
      FeedingStep(e, e', op, topics, t, aborts);
    } else {
      ForeignStep(e, e', op, topics, t, aborts);
    }
  }

  /** After a check: above the threshold the topic is paused. */
  lemma CheckStep(e: Engine, op: string, topics: seq<string>, aborts: nat, t: string)
    requires WithinCredit(e, op, topics, aborts) && e.Enabled(Check(t))
    ensures WithinCredit(e.Next(Check(t)), op, topics, aborts)
  {
    var e' := e.Next(Check(t));
    OnlyFlags(e, t, e.Bound(t));
    if t in topics {
      if Credit(e', op, t) == 0 {
        FeedingStep(e, e', op, topics, t, aborts);
      } else {
        CheckThrottles(e, op, topics, t);
        UnpausedStep(e, e', op, topics, t, aborts);
      }
    } else {
      ForeignStep(e, e', op, topics, t, aborts);
    }
  }

  /** A check that leaves the topic free has found the queue at or below the threshold. */
  lemma CheckThrottles(e: Engine, op: string, topics: seq<string>, t: string)
    requires Feeds(e, op, topics) && t in topics && Throttles(e, op, t) && e.limits.batch > 0
    requires t !in e.Checked(t).paused
    ensures e.Depth(op) <= Threshold(e.limits)
  {
    if e.Depth(op) > Threshold(e.limits) {
      assert Above(e, op) && !Below(e, op);
      if e.limits.low > 0 {
        var k :| LastAt(e, op, t, k);
        LastQueueDecides(e, t, e.Bound(t), k);
      } else {
        assert op in multiset(e.Bound(t));
        var k :| 0 <= k < |e.Bound(t)| && e.Bound(t)[k] == op;
        AnyAbovePauses(e, t, e.Bound(t), k);
      }
    }
  }

  /** A topic that leaves its check unpaused found the queue at or below the threshold. */
  lemma UnpausedStep(e: Engine, e': Engine, op: string, topics: seq<string>, t: string, aborts: nat)
    requires WithinCredit(e, op, topics, aborts) && t in topics && OnlyTopic(e, e', t)
    requires Credit(e, op, t) == 0 && StageOk(e', op, t) && Credit(e', op, t) == e.limits.batch
    requires e'.Depth(op) == e.Depth(op) <= Threshold(e.limits)
    ensures WithinCredit(e', op, topics, aborts)
  {
    FeedsKept(e, e', op, topics, t);
    OthersOk(e, e', op, topics, t, aborts);
    CreditChange(e, e', op, topics, t);
    assert forall u :: u in topics ==> StageOk(e, op, u);
    CreditRoom(e, op, topics, t);
  }

  lemma WorkerStep(e: Engine, ev: Event, op: string, topics: seq<string>, aborts: nat)
    requires WithinCredit(e, op, topics, aborts) && (ev.Take? || ev.Finish?) && e.Enabled(ev)
    ensures WithinCredit(e.Next(ev), op, topics, aborts)
  {
    var e' := e.Next(ev);
    FeedsKept(e, e', op, topics, "");
    forall u | u in topics
      ensures StageOk(e', op, u) && Credit(e', op, u) == Credit(e, op, u)
    {
      assert StageOk(e, op, u) && e'.Bound(u) == e.Bound(u);
    }
    CreditFrame(e, e', op, topics);
  }

  lemma TrafficStep(e: Engine, ev: Event, op: string, topics: seq<string>, aborts: nat)
    requires WithinCredit(e, op, topics, aborts) && Traffic(ev) && e.Enabled(ev)
    ensures WithinCredit(e.Next(ev), op, topics, aborts + if Aborts(e, topics, ev) then 1 else 0)
  {
    match ev
    case Poll(t, messages) => PollStep(e, op, topics, aborts, t, messages);
    case Decode(t) =>
      if Aborts(e, topics, ev) {
        AbortStep(e, op, topics, aborts, t);
      } else {
        DecodeStep(e, op, topics, aborts, t);
      }
    case Dispatch(t) => DispatchStep(e, op, topics, aborts, t);
    case FinishInline(t, raised) => InlineStep(e, op, topics, aborts, t, raised);
    case Check(t) => CheckStep(e, op, topics, aborts, t);
    case _ => WorkerStep(e, ev, op, topics, aborts);
  }

  // ---- All runs ----------------------------------------------------------------------------------

  lemma LimitsKept(e: Engine, ev: Event)
    requires Traffic(ev) && e.Enabled(ev)
    ensures e.Next(ev).limits == e.limits
  {
    if ev.Check? {
      OnlyFlags(e, ev.topic, e.Bound(ev.topic));
    } else if ev.Dispatch? {
      DispatchKeepsLimits(e, ev.topic);
    }
  }

  lemma DispatchKeepsLimits(e: Engine, topic: string)
    requires e.Enabled(Dispatch(topic))
    ensures e.Dispatched(topic).limits == e.limits
  {
  }

  lemma IdleWithinCredit(e: Engine, op: string, topics: seq<string>)
    requires Idle(e, op, topics) && Throttled(e, op, topics)
    ensures WithinCredit(e, op, topics, 0)
  {
    CreditCap(e, op, topics);
  }

  lemma AbortCountStep(start: Engine, topics: seq<string>, events: seq<Event>, before: Engine)
    requires events != [] && Run(start, events[..|events| - 1]) == Some(before)
    ensures AbortCount(start, topics, events)
         == AbortCount(start, topics, events[..|events| - 1])
          + if Aborts(before, topics, events[|events| - 1]) then 1 else 0
  {
  }

  lemma StepWithinCredit(before: Engine, ev: Event, op: string, topics: seq<string>, aborts: nat, aborts': nat,
                         e: Engine)
    requires WithinCredit(before, op, topics, aborts) && Traffic(ev) && before.Enabled(ev) && e == before.Next(ev)
    requires aborts' == aborts + if Aborts(before, topics, ev) then 1 else 0
    ensures WithinCredit(e, op, topics, aborts') && e.limits == before.limits
  {
    TrafficStep(before, ev, op, topics, aborts);
    LimitsKept(before, ev);
  }

  lemma {:induction false} AlwaysWithinCredit(start: Engine, op: string, topics: seq<string>, events: seq<Event>,
                                              e: Engine)
    requires Throttled(start, op, topics)
    requires Idle(start, op, topics) && Run(start, events) == Some(e)
    requires forall k :: 0 <= k < |events| ==> Traffic(events[k])
    ensures WithinCredit(e, op, topics, AbortCount(start, topics, events)) && e.limits == start.limits
    decreases |events|
  {
    if events == [] {
      IdleWithinCredit(start, op, topics);
    } else {
      var before := LastStep(start, events, e);
      AlwaysWithinCredit(start, op, topics, events[..|events| - 1], before);
      AbortCountStep(start, topics, events, before);
      StepWithinCredit(before, events[|events| - 1], op, topics, AbortCount(start, topics, events[..|events| - 1]),
                       AbortCount(start, topics, events), e);
    }
  }

  /**
    In any interleaving the queue depth stays within the threshold plus one batch per feeding
    topic, plus what abandoned batches let through.
   */
  lemma QueueDepthBounded(start: Engine, op: string, topics: seq<string>, events: seq<Event>, e: Engine)
    requires Throttled(start, op, topics)
    requires Idle(start, op, topics) && Run(start, events) == Some(e)
    requires forall k :: 0 <= k < |events| ==> Traffic(events[k])
    ensures e.Depth(op) <= Threshold(start.limits) + |topics| * start.limits.batch
                           + AbortCount(start, topics, events) * Excess(start.limits)
  {
    AlwaysWithinCredit(start, op, topics, events, e);
    TimesIsProduct(|topics|, start.limits.batch);
    TimesIsProduct(AbortCount(start, topics, events), Excess(start.limits));
  }

  // ---- When every message decodes ---------------------------------------------------------

  /** Every polled message decodes. */
  ghost predicate Decodable(ev: Event) {
    ev.Poll? ==> forall m :: m in ev.messages ==> m.Good?
  }

  ghost predicate AllGood(e: Engine, topics: seq<string>) {
    forall t, m :: t in topics && m in Messages(e.Stage(t)) ==> m.Good?
  }

  /** A step moves only the loop of its own topic; workers move none. */
  lemma OtherLoopsKept(e: Engine, ev: Event, t: string)
    requires Traffic(ev) && e.Enabled(ev) && (ev.Take? || ev.Finish? || t != ev.topic)
    ensures e.Next(ev).Stage(t) == e.Stage(t)
  {
    if ev.Check? {
      OnlyFlags(e, ev.topic, e.Bound(ev.topic));
    } else if ev.Dispatch? {
      DispatchMovesOne(e, ev.topic, t);
    }
  }

  lemma DispatchMovesOne(e: Engine, topic: string, t: string)
    requires e.Enabled(Dispatch(topic)) && t != topic
    ensures e.Dispatched(topic).Stage(t) == e.Stage(t)
  {
  }

  lemma OwnLoopGood(e: Engine, ev: Event)
    requires Traffic(ev) && Decodable(ev) && e.Enabled(ev) && !ev.Take? && !ev.Finish?
    requires forall m :: m in Messages(e.Stage(ev.topic)) ==> m.Good?
    ensures forall m :: m in Messages(e.Next(ev).Stage(ev.topic)) ==> m.Good?
  {
    if !ev.Poll? {
      forall m | m in Messages(e.Next(ev).Stage(ev.topic))
        ensures m.Good?
      {
        MessagesShrink(e, ev, m);
      }
    }
  }

  lemma AllGoodStep(e: Engine, ev: Event, topics: seq<string>)
    requires AllGood(e, topics) && Traffic(ev) && Decodable(ev) && e.Enabled(ev)
    ensures AllGood(e.Next(ev), topics) && !Aborts(e, topics, ev)
  {
    forall t, m | t in topics && m in Messages(e.Next(ev).Stage(t))
      ensures m.Good?
    {
      if ev.Take? || ev.Finish? || t != ev.topic {
        OtherLoopsKept(e, ev, t);
      } else {
        OwnLoopGood(e, ev);
      }
    }
  }

  lemma MessagesShrink(e: Engine, ev: Event, m: Message)
    requires e.Enabled(ev) && (ev.Decode? || ev.Dispatch? || ev.FinishInline? || ev.Check?)
    requires m in Messages(e.Next(ev).Stage(ev.topic))
    ensures m in Messages(e.Stage(ev.topic))
  {
  }

  lemma {:induction false} NoAborts(start: Engine, op: string, topics: seq<string>, events: seq<Event>, e: Engine)
    requires Idle(start, op, topics) && Run(start, events) == Some(e)
    requires forall k :: 0 <= k < |events| ==> Traffic(events[k]) && Decodable(events[k])
    ensures AllGood(e, topics) && AbortCount(start, topics, events) == 0
    decreases |events|
  {
    if events != [] {
      var before := LastStep(start, events, e);
      NoAborts(start, op, topics, events[..|events| - 1], before);
      AllGoodStep(before, events[|events| - 1], topics);
      AbortCountStep(start, topics, events, before);
    }
  }

  /** If every record decodes, the depth never exceeds the threshold plus one batch per feeding topic. */
  lemma DepthBoundedWhenDecodable(start: Engine, op: string, topics: seq<string>, events: seq<Event>, e: Engine)
    requires Throttled(start, op, topics)
    requires Idle(start, op, topics) && Run(start, events) == Some(e)
    requires forall k :: 0 <= k < |events| ==> Traffic(events[k]) && Decodable(events[k])
    ensures e.Depth(op) <= Threshold(start.limits) + |topics| * start.limits.batch
  {
    NoAborts(start, op, topics, events, e);
    QueueDepthBounded(start, op, topics, events, e);
  }

  /** Topic `t` can poll for `op` again, exactly as at the start. */
  ghost predicate Ready(start: Engine, e: Engine, op: string, topics: seq<string>, t: string) {
    && Feeds(e, op, topics) && Alone(e, op, topics) && e.limits == start.limits
    && t in topics && e.Stage(t).Polling? && t !in e.paused
  }

  /** A batch of one good and one malformed record leaves one record behind and skips the check. */
  lemma AbortedBatch(start: Engine, e: Engine, op: string, topics: seq<string>, t: string)
    returns (events: seq<Event>, e': Engine)
    requires Ready(start, e, op, topics, t) && start.limits.batch >= 2
    ensures Run(e, events) == Some(e') && Ready(start, e', op, topics, t) && e'.Depth(op) == e.Depth(op) + 1
    ensures forall k :: 0 <= k < |events| ==> Traffic(events[k])
  {
    var r := TopicRecord("", 0);
    var e2 := HalfBatch(e, op, t, r);
    e' := HalfAborted(e2, op, t, r);
    RunConcat(e, [Poll(t, [Good(r), Malformed]), Decode(t)], e2, [Dispatch(t), Decode(t)]);
    events := [Poll(t, [Good(r), Malformed]), Decode(t)] + [Dispatch(t), Decode(t)];
    ReadyAgain(start, e, e', op, topics, t, r);
  }

  lemma HalfBatch(e: Engine, op: string, t: string, r: TopicRecord) returns (e2: Engine)
    requires e.Bound(t) == [op] && e.Enabled(Poll(t, [Good(r), Malformed]))
    ensures Run(e, [Poll(t, [Good(r), Malformed]), Decode(t)]) == Some(e2)
    ensures e2 == e.(loops := e2.loops) && e2.Stage(t) == Dispatching(r, 0, [Malformed])
    ensures forall u :: u != t ==> e2.Stage(u) == e.Stage(u)
  {
    var e1 := e.AtStage(t, Delivering([Good(r), Malformed]));
    e2 := e1.AtStage(t, Dispatching(r, 0, [Malformed]));
    assert [Good(r), Malformed][1..] == [Malformed];
    assert e1.Bound(t) == [op];
    TraceRuns([Poll(t, [Good(r), Malformed]), Decode(t)], [e, e1, e2]);
  }

  lemma HalfAborted(e2: Engine, op: string, t: string, r: TopicRecord) returns (e': Engine)
    requires e2.Bound(t) == [op] && e2.Stage(t) == Dispatching(r, 0, [Malformed])
    requires op in e2.operators && e2.operators[op]
    ensures Run(e2, [Dispatch(t), Decode(t)]) == Some(e') && e'.Stage(t).Polling?
    ensures e' == e2.(queues := e2.QueuePut(op, r).queues, loops := e'.loops)
    ensures forall u :: u != t ==> e'.Stage(u) == e2.Stage(u)
  {
    var e3 := e2.QueuePut(op, r).AtStage(t, Delivering([Malformed]));
    e' := e3.AtStage(t, Polling);
    assert e2.QueuePut(op, r).Bound(t) == [op];
    TraceRuns([Dispatch(t), Decode(t)], [e2, e3, e']);
  }

  lemma ReadyAgain(start: Engine, e: Engine, e': Engine, op: string, topics: seq<string>, t: string, r: TopicRecord)
    requires Ready(start, e, op, topics, t)
    requires e' == e.(queues := e.QueuePut(op, r).queues, loops := e'.loops) && e'.Stage(t).Polling?
    requires forall u :: u != t ==> e'.Stage(u) == e.Stage(u)
    ensures Ready(start, e', op, topics, t) && e'.Depth(op) == e.Depth(op) + 1
  {
    PutDepth(e, op, topics, op, r);
    FeedsKept(e, e', op, topics, t);
  }

  lemma {:induction false} DepthReaches(start: Engine, op: string, topics: seq<string>, t: string, n: nat)
    returns (events: seq<Event>, e: Engine)
    requires Idle(start, op, topics) && Alone(start, op, topics)
    requires t in topics && t !in start.paused && start.limits.batch >= 2
    ensures Run(start, events) == Some(e) && Ready(start, e, op, topics, t)
    ensures forall k :: 0 <= k < |events| ==> Traffic(events[k])
    ensures e.Depth(op) == n
  {
    if n == 0 {
      events, e := [], start;
    } else {
      events, e := DepthReaches(start, op, topics, t, n - 1);
      var more, e' := AbortedBatch(start, e, op, topics, t);
      RunConcat(start, events, e, more);
      events, e := events + more, e';
    }
  }

  lemma {:induction false} TimesZero(n: nat)
    ensures Times(n, 0) == 0
  {
    if n > 0 {
      TimesZero(n - 1);
    }
  }

  /** With batches of at most one message an abandoned batch lets nothing through. */
  lemma SmallBatchesBounded(start: Engine, op: string, topics: seq<string>, events: seq<Event>, e: Engine)
    requires Throttled(start, op, topics)
    requires Idle(start, op, topics) && start.limits.batch <= 1
    requires forall k :: 0 <= k < |events| ==> Traffic(events[k])
    requires Run(start, events) == Some(e)
    ensures e.Depth(op) <= Threshold(start.limits) + |topics| * start.limits.batch
  {
    AlwaysWithinCredit(start, op, topics, events, e);
    TimesIsProduct(|topics|, start.limits.batch);
    TimesZero(AbortCount(start, topics, events));
  }
}
