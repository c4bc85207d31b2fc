/**
  Deregistration waits for the worker queue: what has been queued is handled, in order, with
  the output routes still in place, and nothing is queued afterwards.  An operator may be
  registered and deregistered any number of times.
 */
module Draining {
  import opened Wrappers
  import opened EdgeEngine

  function Records(handled: seq<Handled>): seq<TopicRecord> {
    if handled == [] then [] else Records(handled[..|handled| - 1]) + [handled[|handled| - 1].record]
  }

  function InHand(busy: Option<TopicRecord>): seq<TopicRecord> {
    if busy.Some? then [busy.value] else []
  }

  /** First in, first out, nothing lost and nothing twice. */
  ghost predicate QueueOk(q: Queue) {
    && q.accepted == Records(q.handled) + InHand(q.busy) + q.items
    && q.unfinished == |InHand(q.busy)| + |q.items|
  }

  /** Whatever did not raise sent its output to `outputs`. */
  ghost predicate AllTo(handled: seq<Handled>, outputs: seq<string>) {
    forall k :: 0 <= k < |handled| ==> handled[k].sentTo in {None, Some(outputs)}
  }

  /** The queue table is consistent. */
  ghost predicate QueuesOk(e: Engine) {
    && (forall q :: 0 <= q < |e.queues| ==> QueueOk(e.queues[q]))
    && (forall o :: o in e.workerQueues ==> e.workerQueues[o] < |e.queues| && e.queues[e.workerQueues[o]].owner == o)
  }

  predicate Routed(e: Engine, op: string, outputs: seq<string>) {
    op in e.routes && e.routes[op] == outputs
  }

  ghost predicate Joining(e: Engine, op: string) {
    exists q :: (op, q) in e.joining
  }

  /** A registration of the operator is still binding topics or about to create its worker. */
  ghost predicate BeingRegistered(e: Engine, op: string) {
    exists s :: s in e.starting && s.op == op
  }

  /** Queue `q` belongs to operator `op`. */
  predicate Owns(e: Engine, op: string, q: int) {
    0 <= q < |e.queues| && e.queues[q].owner == op
  }

  /** The queue is the one the operator's records go to, or one that a deregistration waits for. */
  predicate InUse(e: Engine, op: string, q: int) {
    (op in e.workerQueues && e.workerQueues[op] == q) || (q >= 0 && (op, q) in e.joining)
  }

  /** Nothing is left of an earlier registration: it is over, and so is its deregistration. */
  ghost predicate Vacant(e: Engine, op: string) {
    op !in e.operators && op !in e.workerQueues && !BeingRegistered(e, op) && !Joining(e, op)
  }

  // ---- Queues --------------------------------------------------------------------------------

  lemma RecordsSnoc(handled: seq<Handled>, h: Handled)
    ensures Records(handled + [h]) == Records(handled) + [h.record]
  {
    assert (handled + [h])[..|handled|] == handled;
  }

  lemma PutOk(q: Queue, r: TopicRecord)
    requires QueueOk(q)
    ensures QueueOk(q.Put(r))
  {
    assert Records(q.handled) + InHand(q.busy) + (q.items + [r]) ==
        (Records(q.handled) + InHand(q.busy) + q.items) + [r];
  }

  /** The queue while its worker processes the first record. */
  function Busy(q: Queue): Queue
    requires q.items != []
  {
    q.(items := q.items[1..], busy := Some(q.items[0]))
  }

  lemma TakeOk(q: Queue)
    requires QueueOk(q) && q.busy.None? && q.items != []
    ensures QueueOk(Busy(q))
  {
    assert q.items == [q.items[0]] + q.items[1..];
  }

  /** The queue after its worker has emitted to `sentTo` or has raised. */
  function Finished(q: Queue, sentTo: Option<seq<string>>): Queue
    requires q.busy.Some? && q.unfinished > 0
  {
    q.(busy := None, unfinished := q.unfinished - 1, handled := q.handled + [Handled(q.busy.value, sentTo)])
  }

  lemma FinishOk(q: Queue, sentTo: Option<seq<string>>)
    requires QueueOk(q) && q.busy.Some? && q.unfinished > 0
    ensures QueueOk(Finished(q, sentTo))
  {
    RecordsSnoc(q.handled, Handled(q.busy.value, sentTo));
  }

  // ---- The queue table in every run -------------------------------------------------------------

  /** Steps of the loops and checks that leave registration, queues and routes alone. */
  ghost predicate SameBooks(e: Engine, e': Engine) {
    && e'.operators == e.operators && e'.routes == e.routes && e'.queues == e.queues
    && e'.workerQueues == e.workerQueues
    && e'.starting == e.starting && e'.joining == e.joining
  }

  lemma {:induction false} CheckedKeepsBooks(e: Engine, t: string, ops: seq<string>)
    ensures SameBooks(e, e.CheckedAll(t, ops))
    ensures e.CheckedAll(t, ops).inlineLog == e.inlineLog && e.CheckedAll(t, ops).loops == e.loops
  {
    if ops != [] {
      CheckedKeepsBooks(e, t, ops[..|ops| - 1]);
    }
  }

  lemma StageKeepsBooks(e: Engine, t: string, stage: LoopStage)
    ensures SameBooks(e, e.AtStage(t, stage))
  {
  }

  lemma DecodeKeepsBooks(e: Engine, t: string)
    requires e.Stage(t).Delivering? && e.Stage(t).messages != []
    ensures SameBooks(e, e.Decoded(t))
  {
    StageKeepsBooks(e, t, e.Decoded(t).Stage(t));
  }

  /** Polling, decoding, processing in the loop and checking leave registration, queues and routes alone. */
  lemma LoopKeepsBooks(e: Engine, ev: Event)
    requires e.Enabled(ev) && (ev.Poll? || ev.Decode? || ev.FinishInline? || ev.Check?)
    ensures SameBooks(e, e.Next(ev))
  {
    match ev
    case Check(t) => CheckedKeepsBooks(e, t, e.Bound(t));
    case Decode(t) => DecodeKeepsBooks(e, t);
    case FinishInline(t, raised) =>
    case Poll(t, messages) =>
  }

  /** Steps of registrations and workers that leave the loops, the operators and their routes alone. */
  ghost predicate SameLoops(e: Engine, e': Engine) {
    && e'.operators == e.operators && e'.routes == e.routes && e'.joining == e.joining
    && e'.loops == e.loops && e'.inlineLog == e.inlineLog
  }

  lemma BindKeepsLoops(e: Engine, s: Starting)
    requires s.inputs != []
    ensures SameLoops(e, e.BoundNext(s))
  {
  }

  lemma StartKeepsLoops(e: Engine, s: Starting)
    ensures SameLoops(e, e.Started(s))
  {
  }

  /** The record that a dispatch puts into a queue goes to the queue of a registered operator. */
  lemma DispatchPuts(e: Engine, t: string) returns (o: string)
    requires e.Enabled(Dispatch(t))
    ensures o == e.Bound(t)[e.Stage(t).at]
    ensures if o in e.operators && e.operators[o] then SameBooks(e.QueuePut(o, e.Stage(t).record), e.Dispatched(t))
            else SameBooks(e, e.Dispatched(t))
  {
    o := e.Bound(t)[e.Stage(t).at];
  }

  lemma ReplacedOk(e: Engine, i: nat, queue: Queue)
    requires QueuesOk(e) && i < |e.queues| && queue.owner == e.queues[i].owner && QueueOk(queue)
    ensures QueuesOk(e.(queues := e.queues[i := queue]))
  {
  }

  lemma PutQueuesOk(e: Engine, t: string)
    requires QueuesOk(e) && e.Enabled(Dispatch(t))
    ensures QueuesOk(e.Dispatched(t))
  {
    var o := DispatchPuts(e, t);
    if o in e.operators && e.operators[o] && e.HasQueue(o) {
      var i := e.workerQueues[o];
      PutOk(e.queues[i], e.Stage(t).record);
      ReplacedOk(e, i, e.queues[i].Put(e.Stage(t).record));
    }
  }

  function SentTo(e: Engine, q: nat, raised: bool): Option<seq<string>>
    requires q < |e.queues|
  {
    if raised then None else Some(e.Routes(e.queues[q].owner))
  }

  lemma WorkerQueuesOk(e: Engine, ev: Event)
    requires QueuesOk(e) && (ev.Take? || ev.Finish?) && e.Enabled(ev)
    ensures QueuesOk(e.Next(ev))
  {
    var q := e.queues[ev.queue];
    if ev.Take? {
      TakeOk(q);
      ReplacedOk(e, ev.queue, Busy(q));
    } else {
      FinishOk(q, SentTo(e, ev.queue, ev.raised));
      ReplacedOk(e, ev.queue, Finished(q, SentTo(e, ev.queue, ev.raised)));
    }
  }

  lemma StartQueuesOk(e: Engine, s: Starting)
    requires QueuesOk(e) && e.Enabled(Start(s))
    ensures QueuesOk(e.Started(s))
  {
  }

  lemma RegistryQueuesOk(e: Engine, ev: Event)
    requires QueuesOk(e) && e.Enabled(ev) && (ev.Register? || ev.Bind? || ev.DeregisterStart? || ev.DeregisterEnd?)
    ensures QueuesOk(e.Next(ev))
  {
    match ev
    case Register(o, cpuBound, inputs, outs) =>
    case Bind(s) =>
    case DeregisterStart(o) =>
    case DeregisterEnd(o, joined) =>
  }

  lemma QueuesOkStep(e: Engine, ev: Event)
    requires QueuesOk(e) && e.Enabled(ev)
    ensures QueuesOk(e.Next(ev))
  {
    if ev.Dispatch? {
      PutQueuesOk(e, ev.topic);
    } else if ev.Take? || ev.Finish? {
      WorkerQueuesOk(e, ev);
    } else if ev.Poll? || ev.Decode? || ev.FinishInline? || ev.Check? {
      LoopKeepsBooks(e, ev);
    } else if ev.Start? {
      StartQueuesOk(e, ev.starting);
    } else {
      RegistryQueuesOk(e, ev);
    }
  }

  /** In every run each queue is first in, first out, whatever is registered and deregistered. */
  lemma {:induction false} AlwaysQueuesOk(limits: Limits, events: seq<Event>, e: Engine)
    requires Run(Empty(limits), events) == Some(e)
    ensures QueuesOk(e)
    decreases |events|
  {
    if events != [] {
      var before := LastStep(Empty(limits), events, e);
      AlwaysQueuesOk(limits, events[..|events| - 1], before);
      QueuesOkStep(before, events[|events| - 1]);
    }
  }

  // ---- Where a registered operator's output goes ----------------------------------------------------

  predicate Registers(ev: Event, op: string) {
    ev.Register? && ev.op == op
  }

  /** The output topics of the operator's latest registration. */
  function LatestOutputs(events: seq<Event>, op: string): seq<string> {
    if events == [] then []
    else
      var ev := events[|events| - 1];
      if Registers(ev, op) then ev.outputs else LatestOutputs(events[..|events| - 1], op)
  }

  /** Every registration of `op` in the run names some output topic. */
  ghost predicate NamesOutputs(events: seq<Event>, op: string) {
    forall k :: 0 <= k < |events| && Registers(events[k], op) ==> events[k].outputs != []
  }

  /** The event takes the operator's output routes away. */
  predicate DropsRoutes(e: Engine, ev: Event, op: string) {
    || (ev.DeregisterEnd? && ev.op == op)
    || (ev.DeregisterStart? && ev.op == op && op in e.operators && op !in e.workerQueues)
  }

  /** A registration with one input and one output topic. */
  function Registering(op: string, cpuBound: bool, topic: string, output: string): seq<Event> {
    [Register(op, cpuBound, [topic], [output]), Bind(Starting(op, cpuBound, [topic])),
     Start(Starting(op, cpuBound, []))]
  }

  /** Some deregistration of the operator has ended since it was last registered. */
  predicate EndedSince(events: seq<Event>, op: string) {
    events != []
    && var ev := events[|events| - 1];
       !Registers(ev, op) && ((ev.DeregisterEnd? && ev.op == op) || EndedSince(events[..|events| - 1], op))
  }

  lemma RoutesWhenDeregistering(e: Engine, o: string, op: string)
    requires op in e.Deregistering(o).operators
    ensures op in e.operators
    ensures (op in e.Deregistering(o).routes <==> op in e.routes) && e.Deregistering(o).Routes(op) == e.Routes(op)
  {
  }

  lemma RoutesStep(e: Engine, ev: Event, op: string)
    requires e.Enabled(ev) && op in e.Next(ev).operators && !Registers(ev, op)
    ensures op in e.operators
    ensures !(ev.DeregisterEnd? && ev.op == op) ==>
              (op in e.Next(ev).routes <==> op in e.routes) && e.Next(ev).Routes(op) == e.Routes(op)
    ensures ev.DeregisterEnd? && ev.op == op ==> op !in e.Next(ev).routes
  {
    match ev
    case Dispatch(t) =>
      var o := DispatchPuts(e, t);
    case DeregisterStart(o) => RoutesWhenDeregistering(e, o, op);
    case Register(o, cpuBound, inputs, outs) =>
    case DeregisterEnd(o, joined) =>
    case Poll(t, messages) => LoopKeepsBooks(e, ev);
    case Decode(t) => LoopKeepsBooks(e, ev);
    case FinishInline(t, raised) => LoopKeepsBooks(e, ev);
    case Check(t) => LoopKeepsBooks(e, ev);
    case _ => WorkersKeepRoutes(e, ev);
  }

  lemma WorkersKeepRoutes(e: Engine, ev: Event)
    requires e.Enabled(ev) && (ev.Bind? || ev.Start? || ev.Take? || ev.Finish?)
    ensures e.Next(ev).routes == e.routes && e.Next(ev).operators == e.operators
  {
    match ev
    case Bind(s) => BindKeepsLoops(e, s);
    case Start(s) => StartKeepsLoops(e, s);
    case Take(i) =>
    case Finish(i, raised) =>
  }

  /**
    The output of a registered operator has somewhere to go exactly if no deregistration of it
    has ended since it was registered; then it goes to the topics it was registered with.
   */
  lemma {:induction false} RoutesOfRegistered(limits: Limits, events: seq<Event>, e: Engine, op: string)
    requires Run(Empty(limits), events) == Some(e) && op in e.operators
    ensures op in e.routes <==> !EndedSince(events, op)
    ensures op in e.routes ==> e.routes[op] == LatestOutputs(events, op)
    decreases |events|
  {
    var before := LastStep(Empty(limits), events, e);
    var ev := events[|events| - 1];
    if !Registers(ev, op) {
      RoutesStep(before, ev, op);
      RoutesOfRegistered(limits, events[..|events| - 1], before, op);
    }
  }

  // ---- Draining, over any number of lives --------------------------------------------------------

  /**
    An operator registered only while vacant; `outputs` are its latest output topics.  Queues
    that are not in use any more have been emptied.
   */
  ghost predicate LifeOk(e: Engine, op: string, outputs: seq<string>) {
    && (op in e.operators ==> Routed(e, op, outputs) && !Joining(e, op))
    && (forall q :: Owns(e, op, q) && e.queues[q].unfinished > 0 ==> Routed(e, op, outputs) && InUse(e, op, q))
    && (forall q :: Owns(e, op, q) && InUse(e, op, q) ==> AllTo(e.queues[q].handled, outputs))
    && (forall q :: (op, q) in e.joining ==> Owns(e, op, q) && op !in e.workerQueues)
    && (forall p, q :: (op, p) in e.joining && (op, q) in e.joining ==> p == q)
    && (BeingRegistered(e, op) ==> op !in e.workerQueues && !Joining(e, op))
    && (forall s, s' :: s in e.starting && s' in e.starting && s.op == op && s'.op == op ==>
        s == s' && e.starting[s] == 1)
  }

  ghost predicate Drainable(e: Engine, op: string, outputs: seq<string>) {
    QueuesOk(e) && LifeOk(e, op, outputs)
  }

  lemma SameBooksDrainable(e: Engine, e': Engine, op: string, outputs: seq<string>)
    requires Drainable(e, op, outputs) && SameBooks(e, e')
    ensures Drainable(e', op, outputs)
  {
    assert Joining(e', op) <==> Joining(e, op);
    assert BeingRegistered(e', op) <==> BeingRegistered(e, op);
    assert forall q :: Owns(e', op, q) <==> Owns(e, op, q);
    assert forall q :: InUse(e', op, q) <==> InUse(e, op, q);
  }

  /** Replacing one queue by another of the same owner. */
  lemma QueueReplaced(e: Engine, op: string, outputs: seq<string>, i: nat, queue: Queue)
    requires Drainable(e, op, outputs) && i < |e.queues| && queue.owner == e.queues[i].owner && QueueOk(queue)
    requires queue.owner == op ==>
               && (queue.unfinished > 0 ==> Routed(e, op, outputs) && InUse(e, op, i))
               && (InUse(e, op, i) ==> AllTo(queue.handled, outputs))
    ensures Drainable(e.(queues := e.queues[i := queue]), op, outputs)
  {
    var e' := e.(queues := e.queues[i := queue]);
    assert Joining(e', op) <==> Joining(e, op);
    assert BeingRegistered(e', op) <==> BeingRegistered(e, op);
    assert forall q :: Owns(e', op, q) <==> Owns(e, op, q);
    assert forall q :: InUse(e', op, q) <==> InUse(e, op, q);
  }

  lemma PutDrainable(e: Engine, op: string, outputs: seq<string>, o: string, r: TopicRecord)
    requires Drainable(e, op, outputs) && o in e.operators
    ensures Drainable(e.QueuePut(o, r), op, outputs)
  {
    if e.HasQueue(o) {
      var i := e.workerQueues[o];
      PutOk(e.queues[i], r);
      QueueReplaced(e, op, outputs, i, e.queues[i].Put(r));
    }
  }

  lemma DispatchDrainable(e: Engine, op: string, outputs: seq<string>, topic: string)
    requires Drainable(e, op, outputs) && e.Enabled(Dispatch(topic))
    ensures Drainable(e.Dispatched(topic), op, outputs)
  {
    var o := DispatchPuts(e, topic);
    if o in e.operators && e.operators[o] {
      PutDrainable(e, op, outputs, o, e.Stage(topic).record);
      SameBooksDrainable(e.QueuePut(o, e.Stage(topic).record), e.Dispatched(topic), op, outputs);
    } else {
      SameBooksDrainable(e, e.Dispatched(topic), op, outputs);
    }
  }

  lemma TakeDrainable(e: Engine, op: string, outputs: seq<string>, i: nat)
    requires Drainable(e, op, outputs) && e.Enabled(Take(i))
    ensures Drainable(e.Taken(i), op, outputs)
  {
    TakeOk(e.queues[i]);
    assert e.queues[i].owner == op ==> Owns(e, op, i);
    QueueReplaced(e, op, outputs, i, Busy(e.queues[i]));
  }

  lemma AllToSnoc(handled: seq<Handled>, outputs: seq<string>, h: Handled)
    requires AllTo(handled, outputs) && h.sentTo in {None, Some(outputs)}
    ensures AllTo(handled + [h], outputs)
  {
  }

  lemma FinishOwn(e: Engine, op: string, outputs: seq<string>, i: nat, raised: bool)
    requires Drainable(e, op, outputs) && e.Enabled(Finish(i, raised)) && e.queues[i].owner == op
    ensures Routed(e, op, outputs) && InUse(e, op, i)
    ensures AllTo(Finished(e.queues[i], SentTo(e, i, raised)).handled, outputs)
  {
    assert Owns(e, op, i);
    AllToSnoc(e.queues[i].handled, outputs, Handled(e.queues[i].busy.value, SentTo(e, i, raised)));
  }

  lemma FinishDrainable(e: Engine, op: string, outputs: seq<string>, i: nat, raised: bool)
    requires Drainable(e, op, outputs) && e.Enabled(Finish(i, raised))
    ensures Drainable(e.FinishedTake(i, raised), op, outputs)
  {
    FinishOk(e.queues[i], SentTo(e, i, raised));
    if e.queues[i].owner == op {
      FinishOwn(e, op, outputs, i, raised);
    }
    QueueReplaced(e, op, outputs, i, Finished(e.queues[i], SentTo(e, i, raised)));
  }

  /** A new life begins with its own outputs: nothing of the earlier ones is in use. */
  lemma RegisterDrainable(e: Engine, op: string, outputs: seq<string>, ev: Event, outputs': seq<string>)
    requires Drainable(e, op, outputs) && ev.Register?
    requires if ev.op == op then Vacant(e, op) && outputs' == ev.outputs else outputs' == outputs
    ensures Drainable(e.Next(ev), op, outputs')
  {
    var e' := e.Next(ev);
    assert Joining(e', op) <==> Joining(e, op);
    assert BeingRegistered(e', op) ==> BeingRegistered(e, op) || ev.op == op;
    assert forall q :: Owns(e', op, q) <==> Owns(e, op, q);
    assert forall q :: InUse(e', op, q) <==> InUse(e, op, q);
    if ev.op == op {
      assert forall q :: !InUse(e, op, q);
      assert forall s :: s in e.starting ==> s.op != op;
    }
  }

  lemma BindDrainable(e: Engine, op: string, outputs: seq<string>, s: Starting)
    requires Drainable(e, op, outputs) && e.Enabled(Bind(s))
    ensures Drainable(e.BoundNext(s), op, outputs)
  {
    var e' := e.BoundNext(s);
    assert Joining(e', op) <==> Joining(e, op);
    assert forall r :: r in e'.starting ==> r in e.starting || r == s.(inputs := s.inputs[1..]);
    assert BeingRegistered(e', op) ==> BeingRegistered(e, op);
    assert forall q :: Owns(e', op, q) <==> Owns(e, op, q);
    assert forall q :: InUse(e', op, q) <==> InUse(e, op, q);
  }

  /** A registration that is over, of another operator or without a worker, only leaves the table. */
  lemma SettleDrainable(e: Engine, op: string, outputs: seq<string>, s: Starting)
    requires Drainable(e, op, outputs) && s in e.starting
    ensures Drainable(e.(starting := e.starting - multiset{s}), op, outputs)
    ensures s.op == op ==> !BeingRegistered(e.(starting := e.starting - multiset{s}), op)
  {
    var e' := e.(starting := e.starting - multiset{s});
    assert forall r :: r in e'.starting ==> r in e.starting;
    assert BeingRegistered(e', op) ==> BeingRegistered(e, op);
    assert Joining(e', op) <==> Joining(e, op);
    assert forall q :: Owns(e', op, q) <==> Owns(e, op, q);
    assert forall q :: InUse(e', op, q) <==> InUse(e, op, q);
  }

  /** Nothing that concerns the operator differs. */
  ghost predicate SameFor(e: Engine, e': Engine, op: string) {
    && (op in e'.operators <==> op in e.operators)
    && (op in e'.routes <==> op in e.routes) && e'.Routes(op) == e.Routes(op)
    && (op in e'.workerQueues <==> op in e.workerQueues)
    && (op in e.workerQueues ==> e'.workerQueues[op] == e.workerQueues[op])
    && e'.starting == e.starting
    && (forall q :: (op, q) in e'.joining <==> (op, q) in e.joining)
    && (forall q :: Owns(e', op, q) <==> Owns(e, op, q))
    && (forall q :: Owns(e, op, q) ==> e'.queues[q] == e.queues[q])
  }

  lemma SameForDrainable(e: Engine, e': Engine, op: string, outputs: seq<string>)
    requires Drainable(e, op, outputs) && QueuesOk(e') && SameFor(e, e', op)
    ensures Drainable(e', op, outputs)
  {
    assert Joining(e', op) <==> Joining(e, op);
    assert BeingRegistered(e', op) <==> BeingRegistered(e, op);
    assert forall q :: InUse(e', op, q) <==> InUse(e, op, q);
  }

  function WithQueue(e: Engine, o: string): Engine {
    e.(queues := e.queues + [Queue(o, [], None, 0, [], [])], workerQueues := e.workerQueues[o := |e.queues|])
  }

  /** A new, empty queue for an operator that has none in use. */
  lemma QueueAdded(e: Engine, op: string, outputs: seq<string>)
    requires Drainable(e, op, outputs) && op !in e.workerQueues && !Joining(e, op) && !BeingRegistered(e, op)
    ensures LifeOk(WithQueue(e, op), op, outputs)
  {
    var e' := WithQueue(e, op);
    assert Joining(e', op) <==> Joining(e, op);
    assert BeingRegistered(e', op) <==> BeingRegistered(e, op);
    assert forall q :: (op, q) in e.joining ==> Joining(e, op);
    assert forall q :: Owns(e, op, q) ==> e.queues[q].unfinished == 0 && !InUse(e', op, q);
    assert forall q :: Owns(e', op, q) ==> Owns(e, op, q) || q == |e.queues|;
  }

  lemma StartDrainable(e: Engine, op: string, outputs: seq<string>, s: Starting)
    requires Drainable(e, op, outputs) && e.Enabled(Start(s))
    ensures Drainable(e.Started(s), op, outputs)
  {
    var rest := e.(starting := e.starting - multiset{s});
    SettleDrainable(e, op, outputs, s);
    if s.cpuBound {
      assert e.Started(s) == WithQueue(rest, s.op);
      StartQueuesOk(e, s);
      if s.op == op {
        assert BeingRegistered(e, op);
        assert Joining(rest, op) <==> Joining(e, op);
        QueueAdded(rest, op, outputs);
      } else {
        SameForDrainable(rest, WithQueue(rest, s.op), op, outputs);
      }
    }
  }

  lemma DeregisterOther(e: Engine, op: string, outputs: seq<string>, o: string)
    requires Drainable(e, op, outputs) && (o != op || op !in e.operators)
    ensures Drainable(e.Deregistering(o), op, outputs)
  {
    RegistryQueuesOk(e, DeregisterStart(o));
    DeregisteringOther(e, op, o);
    SameForDrainable(e, e.Deregistering(o), op, outputs);
  }

  lemma DeregisteringOther(e: Engine, op: string, o: string)
    requires o != op || op !in e.operators
    ensures SameFor(e, e.Deregistering(o), op)
  {
  }

  /** Without a queue the deregistration is over at once: nothing of the operator is in use. */
  lemma DeregisterAtOnce(e: Engine, op: string, outputs: seq<string>)
    requires Drainable(e, op, outputs) && op in e.operators && op !in e.workerQueues
    ensures Drainable(e.Deregistering(op), op, outputs)
  {
    var e' := e.Deregistering(op);
    assert forall q :: Owns(e', op, q) <==> Owns(e, op, q);
    assert BeingRegistered(e', op) <==> BeingRegistered(e, op);
    assert Joining(e', op) <==> Joining(e, op);
    assert forall q :: (op, q) in e.joining ==> Joining(e, op);
    assert forall q :: !InUse(e, op, q);
  }

  /** Otherwise the queue stays in use while the deregistration waits for it. */
  lemma DeregisterWaiting(e: Engine, op: string, outputs: seq<string>)
    requires Drainable(e, op, outputs) && op in e.operators && op in e.workerQueues
    ensures Drainable(e.Deregistering(op), op, outputs)
  {
    var e' := e.Deregistering(op);
    assert forall q :: Owns(e', op, q) <==> Owns(e, op, q);
    assert BeingRegistered(e', op) <==> BeingRegistered(e, op);
    assert forall q :: (op, q) in e.joining ==> Joining(e, op);
    assert forall q :: (op, q) in e'.joining <==> q == e.workerQueues[op];
    assert forall q :: Owns(e, op, q) ==> (InUse(e', op, q) <==> InUse(e, op, q));
  }

  lemma DeregisterOwn(e: Engine, op: string, outputs: seq<string>)
    requires Drainable(e, op, outputs) && op in e.operators
    ensures Drainable(e.Deregistering(op), op, outputs)
  {
    if op in e.workerQueues {
      DeregisterWaiting(e, op, outputs);
    } else {
      DeregisterAtOnce(e, op, outputs);
    }
  }

  lemma DeregisterDrainable(e: Engine, op: string, outputs: seq<string>, o: string)
    requires Drainable(e, op, outputs)
    ensures Drainable(e.Deregistering(o), op, outputs)
  {
    if o == op && op in e.operators {
      DeregisterOwn(e, op, outputs);
    } else {
      DeregisterOther(e, op, outputs, o);
    }
  }

  lemma EndDrainable(e: Engine, op: string, outputs: seq<string>, o: string, joined: nat)
    requires Drainable(e, op, outputs) && e.Enabled(DeregisterEnd(o, joined))
    ensures Drainable(e.Deregistered(o, joined), op, outputs)
  {
    var e' := e.Deregistered(o, joined);
    assert forall q :: Owns(e', op, q) <==> Owns(e, op, q);
    assert BeingRegistered(e', op) <==> BeingRegistered(e, op);
    assert forall q :: (op, q) in e'.joining <==> (op, q) in e.joining && o != op;
    assert Joining(e', op) ==> Joining(e, op);
    assert o == op ==> Joining(e, op) && forall q :: InUse(e, op, q) ==> q == joined;
  }

  lemma DrainableStep(e: Engine, op: string, outputs: seq<string>, ev: Event, outputs': seq<string>)
    requires Drainable(e, op, outputs) && e.Enabled(ev)
    requires if Registers(ev, op) then Vacant(e, op) && outputs' == ev.outputs else outputs' == outputs
    ensures Drainable(e.Next(ev), op, outputs')
  {
    match ev
    case Register(o, cpuBound, inputs, outs) => RegisterDrainable(e, op, outputs, ev, outputs');
    case Bind(s) => BindDrainable(e, op, outputs, s);
    case Start(s) => StartDrainable(e, op, outputs, s);
    case Dispatch(t) => DispatchDrainable(e, op, outputs, t);
    case Take(i) => TakeDrainable(e, op, outputs, i);
    case Finish(i, raised) => FinishDrainable(e, op, outputs, i, raised);
    case DeregisterStart(o) => DeregisterDrainable(e, op, outputs, o);
    case DeregisterEnd(o, joined) => EndDrainable(e, op, outputs, o, joined);
    case _ =>
      LoopKeepsBooks(e, ev);
      SameBooksDrainable(e, e.Next(ev), op, outputs);
  }

  /** Event `k` registers the operator although something of an earlier registration is left. */
  ghost predicate Overlaps(limits: Limits, events: seq<Event>, op: string, k: nat) {
    k < |events| && Registers(events[k], op)
    && Run(Empty(limits), events[..k]).Some? && !Vacant(Run(Empty(limits), events[..k]).value, op)
  }

  /** The operator is registered only while vacant, any number of times. */
  ghost predicate CleanlyRegistered(limits: Limits, events: seq<Event>, op: string) {
    forall k: nat :: !Overlaps(limits, events, op, k)
  }

  lemma CleanPrefix(limits: Limits, events: seq<Event>, op: string, n: nat)
    requires CleanlyRegistered(limits, events, op) && n <= |events|
    ensures CleanlyRegistered(limits, events[..n], op)
  {
    forall k: nat
      ensures !Overlaps(limits, events[..n], op, k)
    {
      if k < n {
        assert events[..n][..k] == events[..k];
        assert !Overlaps(limits, events, op, k);
      }
    }
  }

  lemma {:induction false} AlwaysDrainable(limits: Limits, events: seq<Event>, e: Engine, op: string)
    requires Run(Empty(limits), events) == Some(e) && CleanlyRegistered(limits, events, op)
    ensures Drainable(e, op, LatestOutputs(events, op))
    decreases |events|
  {
    if events != [] {
      var n := |events| - 1;
      var before := LastStep(Empty(limits), events, e);
      CleanPrefix(limits, events, op, n);
      AlwaysDrainable(limits, events[..n], before, op);
      assert !Overlaps(limits, events, op, n);
      DrainableStep(before, op, LatestOutputs(events[..n], op), events[n], LatestOutputs(events, op));
    }
  }

  /**
    When the deregistration of a cleanly registered operator returns from its join, every
    record ever queued for it, in this life or an earlier one, has been handled, once and in
    queueing order, and everything this life handled without raising went to its output topics.
   */
  lemma DeregistrationDrains(limits: Limits, events: seq<Event>, e: Engine, op: string, q: nat)
    requires Run(Empty(limits), events) == Some(e) && CleanlyRegistered(limits, events, op)
    requires e.Enabled(DeregisterEnd(op, q))
    ensures Owns(e, op, q) && AllTo(e.queues[q].handled, LatestOutputs(events, op))
    ensures forall p :: Owns(e, op, p) ==>
              && Records(e.queues[p].handled) == e.queues[p].accepted
              && e.queues[p].items == [] && e.queues[p].busy == None
  {
    AlwaysDrainable(limits, events, e, op);
    assert InUse(e, op, q);
    forall p | Owns(e, op, p)
      ensures Records(e.queues[p].handled) == e.queues[p].accepted
      ensures e.queues[p].items == [] && e.queues[p].busy == None
    {
      assert QueueOk(e.queues[p]);
      assert InUse(e, op, p) ==> p == q;
    }
  }

  // ---- Nothing is queued afterwards ---------------------------------------------------------------

  lemma NothingPut(e: Engine, op: string, q: nat, t: string)
    requires QueuesOk(e) && Owns(e, op, q) && op !in e.operators && e.Enabled(Dispatch(t))
    ensures Owns(e.Dispatched(t), op, q) && op !in e.Dispatched(t).operators
    ensures e.Dispatched(t).queues[q].accepted == e.queues[q].accepted
  {
    var o := DispatchPuts(e, t);
    if o in e.operators && e.HasQueue(o) {
      assert e.workerQueues[o] != q;
    }
  }

  lemma NothingQueuedStep(e: Engine, ev: Event, op: string, q: nat)
    requires QueuesOk(e) && e.Enabled(ev) && Owns(e, op, q) && op !in e.operators
    requires !Registers(ev, op)
    ensures Owns(e.Next(ev), op, q) && op !in e.Next(ev).operators
    ensures e.Next(ev).queues[q].accepted == e.queues[q].accepted
  {
    match ev
    case Dispatch(t) => NothingPut(e, op, q, t);
    case Register(o, cpuBound, inputs, outs) =>
    case Bind(s) =>
    case Start(s) =>
    case Take(i) =>
    case Finish(i, raised) =>
    case DeregisterStart(o) =>
    case DeregisterEnd(o, joined) =>
    case _ => LoopKeepsBooks(e, ev);
  }

  /**
    From the moment a deregistration has started, nothing is queued for the operator any more,
    whatever happens, unless it is registered again.
   */
  lemma {:induction false} NothingQueuedAfterwards(limits: Limits, first: seq<Event>, e: Engine, later: seq<Event>,
                                                   e': Engine, op: string, q: nat)
    requires Run(Empty(limits), first) == Some(e) && Owns(e, op, q) && op !in e.operators
    requires Run(Empty(limits), first + later) == Some(e')
    requires forall k :: 0 <= k < |later| ==> !Registers(later[k], op)
    ensures Owns(e', op, q) && op !in e'.operators && e'.queues[q].accepted == e.queues[q].accepted
    decreases |later|
  {
    var all := first + later;
    if later == [] {
      assert all == first;
    } else {
      var init := later[..|later| - 1];
      var before := LastStep(Empty(limits), all, e');
      assert all[..|all| - 1] == first + init;
      NothingQueuedAfterwards(limits, first, e, init, before, op, q);
      AlwaysQueuesOk(limits, first + init, before);
      NothingQueuedStep(before, later[|later| - 1], op, q);
    }
  }
}
