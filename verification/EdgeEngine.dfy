/**
  The edge runtime: consumer loops, worker queues, backpressure and deregistration.

  `Engine` is the engine's in-memory state; a queue keeps its identity (its index) when it
  leaves the table of worker queues, because its worker and a pending join still hold it.
 */
module EdgeEngine {
  import opened Wrappers

  datatype TopicRecord = TopicRecord(payload: string, offset: int)

  /** A polled message either decodes to a record or raises. */
  datatype Message = Good(record: TopicRecord) | Malformed

  /** A record that was processed and the topics its output went to; none if processing it raised. */
  datatype Handled = Handled(record: TopicRecord, sentTo: Option<seq<string>>)

  /** A worker queue with the history of what was put and what was processed. */
  datatype Queue = Queue(owner: string, items: seq<TopicRecord>, busy: Option<TopicRecord>, unfinished: nat,
                         accepted: seq<TopicRecord>, handled: seq<Handled>) {
    function Put(r: TopicRecord): Queue {
      this.(items := items + [r], unfinished := unfinished + 1, accepted := accepted + [r])
    }
  }

  /**
    Where a topic's consumer loop stands.  The loop walks the live binding list, which only
    grows: `at` is the position of the next operator to hand the record to.
   */
  datatype LoopStage =
    | Polling
    | Delivering(messages: seq<Message>)
    | Dispatching(record: TopicRecord, at: nat, messages: seq<Message>)
    | Processing(op: string, record: TopicRecord, at: nat, messages: seq<Message>)

  /** A registration under way: the topics still to be bound; a worker follows for a CPU-bound operator. */
  datatype Starting = Starting(op: string, cpuBound: bool, inputs: seq<string>)

  datatype Limits = Limits(batch: nat, high: int, low: int)

  datatype Event =
    | Register(op: string, cpuBound: bool, inputs: seq<string>, outputs: seq<string>)
    | Bind(starting: Starting)
    | Start(starting: Starting)
    | Poll(topic: string, messages: seq<Message>)
    | Decode(topic: string)
    | Dispatch(topic: string)
    | FinishInline(topic: string, raised: bool)
    | Check(topic: string)
    | Take(queue: nat)
    | Finish(queue: nat, raised: bool)
    | DeregisterStart(op: string)
    | DeregisterEnd(op: string, queue: nat)

  datatype Engine = Engine(limits: Limits,
                           operators: map<string, bool>, bindings: map<string, seq<string>>,
                           routes: map<string, seq<string>>, queues: seq<Queue>, workerQueues: map<string, nat>,
                           paused: set<string>, loops: map<string, LoopStage>, starting: multiset<Starting>,
                           joining: set<(string, nat)>, inlineLog: map<string, seq<Handled>>) {

    function Bound(topic: string): seq<string> {
      if topic in bindings then bindings[topic] else []
    }

    function Routes(op: string): seq<string> {
      if op in routes then routes[op] else []
    }

    function Stage(topic: string): LoopStage {
      if topic in loops then loops[topic] else Polling
    }

    predicate HasQueue(op: string) {
      op in workerQueues && workerQueues[op] < |queues|
    }

    /** Records waiting in the operator's worker queue. */
    function Depth(op: string): nat {
      if HasQueue(op) then |queues[workerQueues[op]].items| else 0
    }

    // ---- Registration ------------------------------------------------------------------

    function Registered(op: string, cpuBound: bool, inputs: seq<string>, outputs: seq<string>): Engine {
      this.(operators := operators[op := cpuBound], routes := routes[op := outputs],
            starting := starting + multiset{Starting(op, cpuBound, inputs)})
    }

    /** Binds the next input topic; the operator is appended even if it is bound already. */
    function BoundNext(s: Starting): Engine
      requires s.inputs != []
    {
      this.(bindings := bindings[s.inputs[0] := Bound(s.inputs[0]) + [s.op]],
            starting := starting - multiset{s} + multiset{s.(inputs := s.inputs[1..])})
    }

    /** All topics are bound: a CPU-bound operator gets its queue and worker. */
    function Started(s: Starting): Engine {
      var rest := this.(starting := starting - multiset{s});
      if s.cpuBound then
        rest.(queues := queues + [Queue(s.op, [], None, 0, [], [])], workerQueues := workerQueues[s.op := |queues|])
      else rest
    }

    // ---- Delivery ------------------------------------------------------------------------

    function AtStage(topic: string, stage: LoopStage): Engine {
      this.(loops := loops[topic := stage])
    }

    /** Goes on to the operator at position `at`, or to the next message if the list ends there. */
    function Onward(topic: string, record: TopicRecord, at: nat, messages: seq<Message>): Engine {
      AtStage(topic, if at < |Bound(topic)| then Dispatching(record, at, messages) else Delivering(messages))
    }

    /** The next message: a malformed one abandons the batch, so the check below is skipped. */
    function Decoded(topic: string): Engine
      requires Stage(topic).Delivering? && Stage(topic).messages != []
    {
      var messages := Stage(topic).messages;
      match messages[0]
      case Malformed => AtStage(topic, Polling)
      case Good(r) => Onward(topic, r, 0, messages[1..])
    }

    function QueuePut(op: string, r: TopicRecord): Engine {
      if HasQueue(op) then this.(queues := queues[workerQueues[op] := queues[workerQueues[op]].Put(r)]) else this
    }

    /** Handing the record to the next bound operator. */
    function Dispatched(topic: string): Engine
      requires Stage(topic).Dispatching? && Stage(topic).at < |Bound(topic)|
    {
      var Dispatching(r, at, messages) := Stage(topic);
      var op := Bound(topic)[at];
      if op !in operators then Onward(topic, r, at + 1, messages)
      else if operators[op] then QueuePut(op, r).Onward(topic, r, at + 1, messages)
      else AtStage(topic, Processing(op, r, at + 1, messages))
    }

    function Logged(op: string): seq<Handled> {
      if op in inlineLog then inlineLog[op] else []
    }

    /** An operator that runs in the consumer loop has processed its record and emits, or has raised. */
    function FinishedInline(topic: string, raised: bool): Engine
      requires Stage(topic).Processing?
    {
      var Processing(op, r, at, messages) := Stage(topic);
      var done := Handled(r, if raised then None else Some(Routes(op)));
      this.(inlineLog := inlineLog[op := Logged(op) + [done]]).Onward(topic, r, at, messages)
    }

    // ---- Backpressure ----------------------------------------------------------------------

    /** One turn of the check's loop. */
    function CheckedFor(topic: string, op: string): Engine {
      if !HasQueue(op) then this
      else if Depth(op) > limits.high && topic !in paused then this.(paused := paused + {topic})
      else if Depth(op) < limits.low && topic in paused then this.(paused := paused - {topic})
      else this
    }

    function CheckedAll(topic: string, ops: seq<string>): Engine {
      if ops == [] then this else CheckedAll(topic, ops[..|ops| - 1]).CheckedFor(topic, ops[|ops| - 1])
    }

    function Checked(topic: string): Engine {
      CheckedAll(topic, Bound(topic))
    }

    // ---- Workers and deregistration --------------------------------------------------------

    function Taken(q: nat): Engine
      requires q < |queues| && queues[q].busy.None? && queues[q].items != []
    {
      var queue := queues[q];
      this.(queues := queues[q := queue.(items := queue.items[1..], busy := Some(queue.items[0]))])
    }

    /** The worker emits to the routes it finds, or has caught an exception; either way the record is done. */
    function FinishedTake(q: nat, raised: bool): Engine
      requires q < |queues| && queues[q].busy.Some? && queues[q].unfinished > 0
    {
      var queue := queues[q];
      var done := Handled(queue.busy.value, if raised then None else Some(Routes(queue.owner)));
      this.(queues := queues[q := queue.(busy := None, unfinished := queue.unfinished - 1,
                                         handled := queue.handled + [done])])
    }

    /** Deregistration waits if there is a worker queue; otherwise it is over at once. */
    function Deregistering(op: string): Engine {
      if op !in operators then this
      else if op !in workerQueues then this.(operators := operators - {op}, routes := routes - {op})
      else
        this.(operators := operators - {op}, workerQueues := workerQueues - {op},
              joining := joining + {(op, workerQueues[op])})
    }

    function Deregistered(op: string, q: nat): Engine {
      this.(routes := routes - {op}, joining := joining - {(op, q)})
    }

    // ---- Steps -------------------------------------------------------------------------------

    predicate Enabled(e: Event) {
      match e
      case Register(_, _, _, _) => true
      case Bind(s) => s in starting && s.inputs != []
      case Start(s) => s in starting && s.inputs == []
      case Poll(topic, messages) =>
        Stage(topic).Polling? && |messages| <= limits.batch && (topic in paused ==> messages == [])
      case Decode(topic) => Stage(topic).Delivering? && Stage(topic).messages != []
      case Dispatch(topic) => Stage(topic).Dispatching? && Stage(topic).at < |Bound(topic)|
      case FinishInline(topic, _) => Stage(topic).Processing?
      case Check(topic) => Stage(topic).Delivering? && Stage(topic).messages == []
      case Take(q) => q < |queues| && queues[q].busy.None? && queues[q].items != []
      case Finish(q, _) => q < |queues| && queues[q].busy.Some? && queues[q].unfinished > 0
      case DeregisterStart(_) => true
      case DeregisterEnd(op, q) => (op, q) in joining && q < |queues| && queues[q].unfinished == 0
    }

    function Next(e: Event): Engine
      requires Enabled(e)
    {
      match e
      case Register(op, cpuBound, inputs, outputs) => Registered(op, cpuBound, inputs, outputs)
      case Bind(s) => BoundNext(s)
      case Start(s) => Started(s)
      case Poll(topic, messages) => AtStage(topic, Delivering(messages))
      case Decode(topic) => Decoded(topic)
      case Dispatch(topic) => Dispatched(topic)
      case FinishInline(topic, raised) => FinishedInline(topic, raised)
      case Check(topic) => Checked(topic).AtStage(topic, Polling)
      case Take(q) => Taken(q)
      case Finish(q, raised) => FinishedTake(q, raised)
      case DeregisterStart(op) => Deregistering(op)
      case DeregisterEnd(op, q) => Deregistered(op, q)
    }
  }

  /** The engine after `events`, or `None` if they cannot happen in this order. */
  function Run(start: Engine, events: seq<Event>): Option<Engine>
    decreases |events|
  {
    if events == [] then Some(start)
    else
      match Run(start, events[..|events| - 1])
      case None => None
      case Some(e) => if e.Enabled(events[|events| - 1]) then Some(e.Next(events[|events| - 1])) else None
  }

  lemma LastStep(start: Engine, events: seq<Event>, e: Engine) returns (before: Engine)
    requires events != [] && Run(start, events) == Some(e)
    ensures Run(start, events[..|events| - 1]) == Some(before)
    ensures before.Enabled(events[|events| - 1]) && e == before.Next(events[|events| - 1])
  {
    before := Run(start, events[..|events| - 1]).value;
  }

  /** Every prefix of a run is a run. */
  lemma {:induction false} PrefixRuns(start: Engine, events: seq<Event>, e: Engine, k: nat) returns (before: Engine)
    requires Run(start, events) == Some(e) && k <= |events|
    ensures Run(start, events[..k]) == Some(before)
    ensures k < |events| ==> before.Enabled(events[k]) && Run(start, events[..k + 1]) == Some(before.Next(events[k]))
    decreases |events|
  {
    if k == |events| {
      assert events[..k] == events;
      before := e;
    } else {
      var last := LastStep(start, events, e);
      if k == |events| - 1 {
        assert events[..k + 1] == events;
        before := last;
      } else {
        before := PrefixRuns(start, events[..|events| - 1], last, k);
        assert events[..|events| - 1][..k] == events[..k];
        assert events[..|events| - 1][..k + 1] == events[..k + 1];
      }
    }
  }

  function Empty(limits: Limits): Engine {
    Engine(limits, map[], map[], map[], [], map[], {}, map[], multiset{}, {}, map[])
  }

  lemma {:induction false} RunConcat(start: Engine, first: seq<Event>, e: Engine, second: seq<Event>)
    requires Run(start, first) == Some(e)
    ensures Run(start, first + second) == Run(e, second)
    decreases |second|
  {
    if second == [] {
      assert first + second == first;
    } else {
      var init := second[..|second| - 1];
      RunConcat(start, first, e, init);
      assert (first + second)[..|first + second| - 1] == first + init;
    }
  }

  predicate StepsTo(a: Engine, ev: Event, b: Engine) {
    a.Enabled(ev) && b == a.Next(ev)
  }

  /** A run spelled out state by state. */
  lemma {:induction false} TraceRuns(events: seq<Event>, trace: seq<Engine>)
    requires |trace| == |events| + 1
    requires forall i :: 0 <= i < |events| ==> StepsTo(trace[i], events[i], trace[i + 1])
    ensures Run(trace[0], events) == Some(trace[|events|])
    decreases |events|
  {
    if events != [] {
      var n := |events| - 1;
      assert StepsTo(trace[n], events[n], trace[n + 1]);
      TraceRuns(events[..n], trace[..n + 1]);
    }
  }

  class OperatorEngine {
    const limits: Limits
    var operators: map<string, bool>
    var bindings: map<string, seq<string>>
    var routes: map<string, seq<string>>
    var queues: seq<Queue>
    var workerQueues: map<string, nat>
    var paused: set<string>
    var loops: map<string, LoopStage>
    var starting: multiset<Starting>
    var joining: set<(string, nat)>
    var inlineLog: map<string, seq<Handled>>

    function State(): Engine
      reads this
    {
      Engine(limits, operators, bindings, routes, queues, workerQueues, paused, loops, starting, joining, inlineLog)
    }

    constructor (limits: Limits)
      ensures State() == Empty(limits)
    {
      this.limits := limits;
      operators, bindings, routes, queues, workerQueues := map[], map[], map[], [], map[];
      paused, loops, starting, joining, inlineLog := {}, map[], multiset{}, {}, map[];
    }

    /** Registration up to the first topic. */
    method RegisterOperator(op: string, cpuBound: bool, inputTopics: seq<string>, outputTopics: seq<string>)
      modifies this
      ensures State() == old(State()).Registered(op, cpuBound, inputTopics, outputTopics)
    {
      operators := operators[op := cpuBound];
      routes := routes[op := outputTopics];
      starting := starting + multiset{Starting(op, cpuBound, inputTopics)};
    }

    /** Binding one topic; starting its consumer may suspend the registration. */
    method BindTopic(s: Starting)
      requires State().Enabled(Bind(s))
      modifies this
      ensures State() == old(State()).BoundNext(s)
    {
      var topic := s.inputs[0];
      bindings := bindings[topic := (if topic in bindings then bindings[topic] else []) + [s.op]];
      starting := starting - multiset{s} + multiset{s.(inputs := s.inputs[1..])};
    }

    /** The rest of a registration, once all topics are bound. */
    method FinishRegistration(s: Starting)
      requires State().Enabled(Start(s))
      modifies this
      ensures State() == old(State()).Started(s)
    {
      starting := starting - multiset{s};
      if s.cpuBound {
        workerQueues := workerQueues[s.op := |queues|];
        queues := queues + [Queue(s.op, [], None, 0, [], [])];
      }
    }

    /** Hands the record of a topic's loop to the next operator bound to the topic. */
    method DispatchNext(topic: string)
      requires State().Enabled(Dispatch(topic))
      modifies this
      ensures State() == old(State()).Dispatched(topic)
    {
      var Dispatching(record, at, messages) := State().Stage(topic);
      var bound := State().Bound(topic);
      var op := bound[at];
      var next := if at + 1 < |bound| then Dispatching(record, at + 1, messages) else Delivering(messages);
      if op !in operators {
        loops := loops[topic := next];
        return;
      }
      if operators[op] {
        if op in workerQueues && workerQueues[op] < |queues| {
          queues := queues[workerQueues[op] := queues[workerQueues[op]].Put(record)];
        }
        loops := loops[topic := next];
      } else {
        loops := loops[topic := Processing(op, record, at + 1, messages)];
      }
    }

    /** Pauses or resumes a topic's consumer after a batch, looking at every operator bound to it. */
    method CheckBackpressure(topic: string)
      modifies this
      ensures State() == old(State()).Checked(topic)
    {
      var ops := State().Bound(topic);
      ghost var before := State();
      for k := 0 to |ops|
        invariant State() == before.CheckedAll(topic, ops[..k])
      {
        assert ops[..k + 1][..k] == ops[..k];
        if ops[k] in workerQueues && workerQueues[ops[k]] < |queues| {
          var depth := |queues[workerQueues[ops[k]]].items|;
          if depth > limits.high && topic !in paused {
            paused := paused + {topic};
          } else if depth < limits.low && topic in paused {
            paused := paused - {topic};
          }
        }
      }
      assert ops[..|ops|] == ops;
    }

    /** Deregistration up to the join of the worker queue, or to its end if there is none. */
    method DeregisterOperator(op: string)
      modifies this
      ensures State() == old(State()).Deregistering(op)
    {
      if op !in operators {
        return;
      }
      operators := operators - {op};
      if op in workerQueues {
        joining := joining + {(op, workerQueues[op])};
        workerQueues := workerQueues - {op};
      } else {
        routes := routes - {op};
      }
    }

    /** The rest of a deregistration, once the join has returned. */
    method FinishDeregistration(op: string, queue: nat)
      requires State().Enabled(DeregisterEnd(op, queue))
      modifies this
      ensures State() == old(State()).Deregistered(op, queue)
    {
      routes := routes - {op};
      joining := joining - {(op, queue)};
    }
  }
}
