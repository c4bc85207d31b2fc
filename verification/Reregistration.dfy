/**
  What a second registration does to an operator: its topics are bound once more, and if the
  deregistration of the first life is still waiting, its end takes the second life's routes.
 */
module Reregistration {
  import opened Wrappers
  import opened EdgeEngine
  import opened Draining

  // ---- Bindings accumulate ------------------------------------------------------------------------

  /** How often the run has bound operator `op` to topic `t`. */
  function Binds(events: seq<Event>, op: string, t: string): nat {
    if events == [] then 0
    else
      var ev := events[|events| - 1];
      Binds(events[..|events| - 1], op, t)
        + if ev.Bind? && ev.starting.op == op && ev.starting.inputs != [] && ev.starting.inputs[0] == t then 1 else 0
  }

  lemma {:induction false} ChecksKeepBindings(e: Engine, t: string, ops: seq<string>)
    ensures e.CheckedAll(t, ops).bindings == e.bindings
  {
    if ops != [] {
      ChecksKeepBindings(e, t, ops[..|ops| - 1]);
    }
  }

  lemma OnlyBindBinds(e: Engine, ev: Event)
    requires e.Enabled(ev) && !ev.Bind?
    ensures e.Next(ev).bindings == e.bindings
  {
    match ev
    case Check(t) => ChecksKeepBindings(e, t, e.Bound(t));
    case Start(s) => StartKeepsBindings(e, s);
    case Dispatch(t) => DispatchKeepsBindings(e, t);
    case Decode(t) =>
    case DeregisterStart(o) =>
    case _ =>
  }

  lemma StartKeepsBindings(e: Engine, s: Starting)
    ensures e.Started(s).bindings == e.bindings
  {
  }

  lemma DispatchKeepsBindings(e: Engine, t: string)
    requires e.Enabled(Dispatch(t))
    ensures e.Dispatched(t).bindings == e.bindings
  {
  }

  /**
    A topic's binding list names an operator as often as it has been bound to the topic over all
    its registrations: deregistration leaves the bindings in place.
   */
  lemma {:induction false} BoundAsOftenAsRegistered(limits: Limits, events: seq<Event>, e: Engine, op: string,
                                                    t: string)
    requires Run(Empty(limits), events) == Some(e)
    ensures multiset(e.Bound(t))[op] == Binds(events, op, t)
    decreases |events|
  {
    if events != [] {
      var before := LastStep(Empty(limits), events, e);
      var ev := events[|events| - 1];
      BoundAsOftenAsRegistered(limits, events[..|events| - 1], before, op, t);
      if !ev.Bind? {
        OnlyBindBinds(before, ev);
        assert e.Bound(t) == before.Bound(t);
      }
    }
  }

  // ---- Every record is handed over as often ------------------------------------------------------------

  /** The event hands the record of topic `t` to operator `op`, which may be gone. */
  predicate Hands(e: Engine, ev: Event, op: string, t: string) {
    ev == Dispatch(t) && e.Stage(t).Dispatching? && e.Stage(t).at < |e.Bound(t)| && e.Bound(t)[e.Stage(t).at] == op
  }

  /** How often the run from `start` on hands a record of topic `t` to the operator. */
  function Handovers(start: Engine, events: seq<Event>, op: string, t: string): nat
    decreases |events|
  {
    if events == [] then 0
    else
      var init := events[..|events| - 1];
      Handovers(start, init, op, t)
      + match Run(start, init)
        case None => 0
        case Some(e) => if Hands(e, events[|events| - 1], op, t) then 1 else 0
  }

  /** The loop of topic `t` is still going through the operators with record `r`. */
  predicate HandingOut(e: Engine, t: string, r: TopicRecord, messages: seq<Message>) {
    match e.Stage(t)
    case Dispatching(r', at, ms) => r' == r && ms == messages && at < |e.Bound(t)|
    case Processing(_, r', at, ms) => r' == r && ms == messages && at <= |e.Bound(t)|
    case _ => false
  }

  function Position(s: LoopStage): nat {
    match s
    case Dispatching(_, at, _) => at
    case Processing(_, _, at, _) => at
    case _ => 0
  }

  /** In every state before the end the record is still being handed out. */
  ghost predicate HandedOutUntil(start: Engine, events: seq<Event>, t: string, r: TopicRecord, messages: seq<Message>) {
    forall k :: 0 <= k < |events| && Run(start, events[..k]).Some? ==>
      HandingOut(Run(start, events[..k]).value, t, r, messages)
  }

  /** The operator comes up as often in the first `n` positions as it has been handed the record. */
  ghost predicate HandedUpTo(e: Engine, op: string, t: string, n: nat, handed: nat) {
    n <= |e.Bound(t)| && multiset(e.Bound(t)[..n])[op] == handed
  }

  /** Positions passed, or the whole list once the loop has moved on. */
  ghost predicate Passed(e: Engine, op: string, t: string, r: TopicRecord, messages: seq<Message>, handed: nat) {
    if e.Stage(t) == Delivering(messages) then multiset(e.Bound(t))[op] == handed
    else HandingOut(e, t, r, messages) && HandedUpTo(e, op, t, Position(e.Stage(t)), handed)
  }

  lemma OnwardPasses(e: Engine, op: string, t: string, r: TopicRecord, at: nat, messages: seq<Message>, handed: nat)
    requires HandedUpTo(e, op, t, at, handed)
    ensures Passed(e.Onward(t, r, at, messages), op, t, r, messages, handed)
  {
    var e' := e.Onward(t, r, at, messages);
    assert e'.Bound(t) == e.Bound(t);
    assert e.Bound(t)[..|e.Bound(t)|] == e.Bound(t);
  }

  lemma DispatchPasses(e: Engine, op: string, t: string, r: TopicRecord, messages: seq<Message>, handed: nat)
    requires e.Enabled(Dispatch(t)) && HandingOut(e, t, r, messages) && Passed(e, op, t, r, messages, handed)
    ensures Passed(e.Dispatched(t), op, t, r, messages, handed + if Hands(e, Dispatch(t), op, t) then 1 else 0)
  {
    var at, o := e.Stage(t).at, e.Bound(t)[e.Stage(t).at];
    var handed' := handed + if o == op then 1 else 0;
    OnePositionMore(e, op, t, at, handed);
    if o in e.operators && e.operators[o] {
      PutPasses(e, o, op, t, r, at + 1, messages, handed');
    } else if o !in e.operators {
      OnwardPasses(e, op, t, r, at + 1, messages, handed');
    } else {
      InlinePasses(e, o, op, t, r, at + 1, messages, handed');
    }
  }

  lemma OnePositionMore(e: Engine, op: string, t: string, at: nat, handed: nat)
    requires HandedUpTo(e, op, t, at, handed) && at < |e.Bound(t)|
    ensures HandedUpTo(e, op, t, at + 1, handed + if e.Bound(t)[at] == op then 1 else 0)
  {
    assert e.Bound(t)[..at + 1] == e.Bound(t)[..at] + [e.Bound(t)[at]];
  }

  lemma InlinePasses(e: Engine, o: string, op: string, t: string, r: TopicRecord, at: nat, messages: seq<Message>,
                     handed: nat)
    requires HandedUpTo(e, op, t, at, handed)
    ensures Passed(e.AtStage(t, Processing(o, r, at, messages)), op, t, r, messages, handed)
  {
    assert e.AtStage(t, Processing(o, r, at, messages)).Bound(t) == e.Bound(t);
  }

  lemma PutPasses(e: Engine, o: string, op: string, t: string, r: TopicRecord, at: nat, messages: seq<Message>,
                  handed: nat)
    requires HandedUpTo(e, op, t, at, handed)
    ensures Passed(e.QueuePut(o, r).Onward(t, r, at, messages), op, t, r, messages, handed)
  {
    var put := e.QueuePut(o, r);
    assert put.Bound(t) == e.Bound(t);
    OnwardPasses(put, op, t, r, at, messages, handed);
  }

  lemma FinishPasses(e: Engine, op: string, t: string, raised: bool, r: TopicRecord, messages: seq<Message>,
                     handed: nat)
    requires e.Enabled(FinishInline(t, raised)) && HandingOut(e, t, r, messages)
    requires Passed(e, op, t, r, messages, handed)
    ensures Passed(e.FinishedInline(t, raised), op, t, r, messages, handed)
  {
    var Processing(o, _, at, _) := e.Stage(t);
    var logged := e.(inlineLog := e.FinishedInline(t, raised).inlineLog);
    assert HandedUpTo(logged, op, t, at, handed);
    OnwardPasses(logged, op, t, r, at, messages, handed);
  }

  lemma BindPasses(e: Engine, s: Starting, op: string, t: string, r: TopicRecord, messages: seq<Message>, handed: nat)
    requires e.Enabled(Bind(s)) && HandingOut(e, t, r, messages) && Passed(e, op, t, r, messages, handed)
    ensures Passed(e.BoundNext(s), op, t, r, messages, handed)
  {
    var e' := e.BoundNext(s);
    var n := Position(e.Stage(t));
    assert e'.Bound(t)[..n] == e.Bound(t)[..n];
  }

  /** Other events leave the loop and its binding list alone. */
  lemma OthersPass(e: Engine, ev: Event, op: string, t: string, r: TopicRecord, messages: seq<Message>, handed: nat)
    requires e.Enabled(ev) && !ev.Bind? && HandingOut(e, t, r, messages)
    requires (ev.Dispatch? || ev.FinishInline?) ==> ev.topic != t
    requires Passed(e, op, t, r, messages, handed)
    ensures Passed(e.Next(ev), op, t, r, messages, handed)
  {
    OnlyBindBinds(e, ev);
    assert e.Next(ev).Stage(t) == e.Stage(t) by {
      match ev
      case Check(u) => Draining.CheckedKeepsBooks(e, u, e.Bound(u));
      case Dispatch(u) => OtherLoop(e, u, t);
      case DeregisterStart(o) =>
      case Start(s) =>
      case _ =>
    }
  }

  lemma OtherLoop(e: Engine, u: string, t: string)
    requires e.Enabled(Dispatch(u)) && u != t
    ensures e.Dispatched(u).Stage(t) == e.Stage(t)
  {
  }

  lemma PassedStep(e: Engine, ev: Event, op: string, t: string, r: TopicRecord, messages: seq<Message>, handed: nat)
    requires e.Enabled(ev) && HandingOut(e, t, r, messages) && Passed(e, op, t, r, messages, handed)
    ensures Passed(e.Next(ev), op, t, r, messages, handed + if Hands(e, ev, op, t) then 1 else 0)
  {
    if ev == Dispatch(t) {
      DispatchPasses(e, op, t, r, messages, handed);
    } else if ev.FinishInline? && ev.topic == t {
      FinishPasses(e, op, t, ev.raised, r, messages, handed);
    } else if ev.Bind? {
      BindPasses(e, ev.starting, op, t, r, messages, handed);
    } else {
      OthersPass(e, ev, op, t, r, messages, handed);
    }
  }

  lemma {:induction false} AlwaysPassed(start: Engine, events: seq<Event>, e: Engine, op: string, t: string,
                                        r: TopicRecord, messages: seq<Message>)
    requires Run(start, events) == Some(e) && HandedOutUntil(start, events, t, r, messages)
    requires Passed(start, op, t, r, messages, 0)
    ensures Passed(e, op, t, r, messages, Handovers(start, events, op, t))
    decreases |events|
  {
    if events != [] {
      var n := |events| - 1;
      var before := LastStep(start, events, e);
      forall k | 0 <= k < n && Run(start, events[..n][..k]).Some?
        ensures HandingOut(Run(start, events[..n][..k]).value, t, r, messages)
      {
        assert events[..n][..k] == events[..k];
      }
      AlwaysPassed(start, events[..n], before, op, t, r, messages);
      assert HandingOut(before, t, r, messages);
      PassedStep(before, events[n], op, t, r, messages, Handovers(start, events[..n], op, t));
    }
  }

  /**
    In every run: from the decoding of a record of topic `t` until the loop moves on to the next
    message, the record is handed to an operator as often as the operator has been bound to the
    topic by then, over all its registrations; other registrations may come in between.
   */
  lemma HandedAsOftenAsRegistered(limits: Limits, first: seq<Event>, decoding: Engine, events: seq<Event>, e: Engine,
                                  op: string, t: string, r: TopicRecord, messages: seq<Message>)
    requires Run(Empty(limits), first) == Some(decoding) && decoding.Stage(t) == Delivering([Good(r)] + messages)
    requires decoding.Enabled(Decode(t)) && Run(decoding.Next(Decode(t)), events) == Some(e)
    requires HandedOutUntil(decoding.Next(Decode(t)), events, t, r, messages) && e.Stage(t) == Delivering(messages)
    ensures Handovers(decoding.Next(Decode(t)), events, op, t) == Binds(first + [Decode(t)] + events, op, t)
  {
    var start := decoding.Next(Decode(t));
    assert ([Good(r)] + messages)[1..] == messages;
    assert HandedUpTo(decoding, op, t, 0, 0);
    OnwardPasses(decoding, op, t, r, 0, messages, 0);
    AlwaysPassed(start, events, e, op, t, r, messages);
    var all := first + [Decode(t)];
    TraceRuns([Decode(t)], [decoding, start]);
    RunConcat(Empty(limits), first, decoding, [Decode(t)]);
    RunConcat(Empty(limits), all, start, events);
    BoundAsOftenAsRegistered(limits, all + events, e, op, t);
  }

  // ---- And received as often ---------------------------------------------------------------------------

  /** The operator is registered, with a queue if it is CPU-bound. */
  predicate Settled(e: Engine, op: string) {
    op in e.operators && (e.operators[op] ==> e.HasQueue(op))
  }

  /**
    The step brings the operator the record of topic `t`: it stands last in its queue, or the
    loop is processing it.
   */
  predicate Receives(e: Engine, e': Engine, op: string, t: string) {
    && Settled(e, op) && e.Stage(t).Dispatching?
    && if e.operators[op] then
         var i := e.workerQueues[op];
         && i < |e'.queues|
         && e'.queues[i].items == e.queues[i].items + [e.Stage(t).record]
         && e'.queues[i].accepted == e.queues[i].accepted + [e.Stage(t).record]
       else e'.Stage(t) == Processing(op, e.Stage(t).record, e.Stage(t).at + 1, e.Stage(t).messages)
  }

  /** A dispatch brings the record to the operator whose turn it is, and to no other registered one. */
  lemma HandsIffReceives(e: Engine, op: string, t: string)
    requires QueuesOk(e) && e.Enabled(Dispatch(t)) && Settled(e, op)
    ensures Hands(e, Dispatch(t), op, t) <==> Receives(e, e.Dispatched(t), op, t)
  {
    var o := e.Bound(t)[e.Stage(t).at];
    if o in e.operators && e.operators[o] {
      PutReceives(e, o, op, t);
    }
  }

  lemma PutReceives(e: Engine, o: string, op: string, t: string)
    requires QueuesOk(e) && e.Enabled(Dispatch(t)) && Settled(e, op)
    requires o == e.Bound(t)[e.Stage(t).at] && o in e.operators && e.operators[o]
    ensures o == op <==> Receives(e, e.Dispatched(t), op, t)
  {
    var e' := e.Dispatched(t);
    assert e'.queues == e.QueuePut(o, e.Stage(t).record).queues;
    if o != op && e.operators[op] {
      assert e'.queues[e.workerQueues[op]] == e.queues[e.workerQueues[op]];
    }
  }

  /** How often the run from `start` on brings the operator a record of topic `t`. */
  function Receipts(start: Engine, events: seq<Event>, op: string, t: string): nat
    decreases |events|
  {
    if events == [] then 0
    else
      var init, ev := events[..|events| - 1], events[|events| - 1];
      Receipts(start, init, op, t)
      + match Run(start, init)
        case None => 0
        case Some(e) =>
          if ev == Dispatch(t) && e.Enabled(ev) && Receives(e, e.Next(ev), op, t) then 1 else 0
  }

  ghost predicate SettledThroughout(start: Engine, events: seq<Event>, op: string) {
    forall k :: 0 <= k < |events| && Run(start, events[..k]).Some? ==> Settled(Run(start, events[..k]).value, op)
  }

  lemma {:induction false} ReceiptsAreHandovers(limits: Limits, first: seq<Event>, start: Engine, events: seq<Event>,
                                                e: Engine, op: string, t: string)
    requires Run(Empty(limits), first) == Some(start) && Run(start, events) == Some(e)
    requires SettledThroughout(start, events, op)
    ensures Receipts(start, events, op, t) == Handovers(start, events, op, t)
    decreases |events|
  {
    if events != [] {
      var n := |events| - 1;
      var before := LastStep(start, events, e);
      forall k | 0 <= k < n && Run(start, events[..n][..k]).Some?
        ensures Settled(Run(start, events[..n][..k]).value, op)
      {
        assert events[..n][..k] == events[..k];
      }
      ReceiptsAreHandovers(limits, first, start, events[..n], before, op, t);
      RunConcat(Empty(limits), first, start, events[..n]);
      AlwaysQueuesOk(limits, first + events[..n], before);
      assert Settled(before, op);
      if events[n] == Dispatch(t) {
        HandsIffReceives(before, op, t);
      }
    }
  }

  /**
    From the decoding of a record until the loop moves on, an operator registered all the while
    receives it, in its queue or in the loop, as often as it has been bound to the topic.
   */
  lemma ReceivedAsOftenAsRegistered(limits: Limits, first: seq<Event>, decoding: Engine, events: seq<Event>, e: Engine,
                                    op: string, t: string, r: TopicRecord, messages: seq<Message>)
    requires Run(Empty(limits), first) == Some(decoding) && decoding.Stage(t) == Delivering([Good(r)] + messages)
    requires decoding.Enabled(Decode(t)) && Run(decoding.Next(Decode(t)), events) == Some(e)
    requires HandedOutUntil(decoding.Next(Decode(t)), events, t, r, messages) && e.Stage(t) == Delivering(messages)
    requires SettledThroughout(decoding.Next(Decode(t)), events, op)
    ensures Receipts(decoding.Next(Decode(t)), events, op, t) == Binds(first + [Decode(t)] + events, op, t)
  {
    var start := decoding.Next(Decode(t));
    TraceRuns([Decode(t)], [decoding, start]);
    RunConcat(Empty(limits), first, decoding, [Decode(t)]);
    ReceiptsAreHandovers(limits, first + [Decode(t)], start, events, e, op, t);
    HandedAsOftenAsRegistered(limits, first, decoding, events, e, op, t, r, messages);
  }

  // ---- Registered again too early --------------------------------------------------------------------

  function Delivery(topic: string, r: TopicRecord): seq<Event> {
    [Poll(topic, [Good(r)]), Decode(topic), Dispatch(topic)]
  }

  lemma Registered(e: Engine, op: string, topic: string, output: string) returns (e': Engine)
    requires e.starting == multiset{}
    ensures Run(e, Registering(op, true, topic, output)) == Some(e')
    ensures e' == e.(operators := e.operators[op := true], routes := e.routes[op := [output]],
                     bindings := e.bindings[topic := e.Bound(topic) + [op]],
                     queues := e.queues + [Queue(op, [], None, 0, [], [])],
                      workerQueues := e.workerQueues[op := |e.queues|])
  {
    var s, s' := Starting(op, true, [topic]), Starting(op, true, []);
    var e1 := e.Registered(op, true, [topic], [output]);
    var e2 := e1.BoundNext(s);
    e' := e2.Started(s');
    assert [topic][1..] == [];
    assert e1.starting == multiset{s} && e2.starting == multiset{s'} && e'.starting == multiset{};
    TraceRuns(Registering(op, true, topic, output), [e, e1, e2, e']);
  }

  lemma Delivered(e: Engine, op: string, topic: string, r: TopicRecord) returns (e': Engine)
    requires e.Bound(topic) == [op] && e.Stage(topic).Polling? && topic !in e.paused && e.limits.batch >= 1
    requires op in e.operators && e.operators[op] && e.HasQueue(op)
    ensures Run(e, Delivery(topic, r)) == Some(e')
    ensures e' == e.(queues := e.queues[e.workerQueues[op] := e.queues[e.workerQueues[op]].Put(r)], loops := e'.loops)
    ensures forall t :: t != topic ==> e'.Stage(t) == e.Stage(t)
  {
    var e1 := e.AtStage(topic, Delivering([Good(r)]));
    var e2 := e1.AtStage(topic, Dispatching(r, 0, []));
    e' := e2.Dispatched(topic);
    assert [Good(r)][1..] == [];
    assert e1.Bound(topic) == [op] && e2.Bound(topic) == [op];
    TraceRuns(Delivery(topic, r), [e, e1, e2, e']);
  }

  /** The worker of queue `q` processes the one record in it. */
  lemma Worked(e: Engine, q: nat, op: string, r: TopicRecord) returns (e': Engine)
    requires q < |e.queues| && e.queues[q] == Queue(op, [r], None, 1, [r], [])
    ensures Run(e, [Take(q), Finish(q, false)]) == Some(e')
    ensures e' == e.(queues := e.queues[q := Queue(op, [], None, 0, [r], [Handled(r, Some(e.Routes(op)))])])
  {
    var e1 := e.Taken(q);
    e' := e1.FinishedTake(q, false);
    assert [r][1..] == [];
    var done := Handled(r, Some(e.Routes(op)));
    assert [] + [done] == [done];
    assert e1.queues == e.queues[q := Queue(op, [], Some(r), 1, [r], [])];
    assert e'.queues == e.queues[q := Queue(op, [], None, 0, [r], [done])];
    TraceRuns([Take(q), Finish(q, false)], [e, e1, e']);
  }

  lemma Chain(start: Engine, first: seq<Event>, e: Engine, second: seq<Event>, e': Engine)
    requires Run(start, first) == Some(e) && Run(e, second) == Some(e')
    ensures Run(start, first + second) == Some(e')
  {
    RunConcat(start, first, e, second);
  }

  lemma {:induction false} LatestKept(events: seq<Event>, more: seq<Event>, op: string)
    requires forall k :: 0 <= k < |more| ==> !Registers(more[k], op)
    ensures LatestOutputs(events + more, op) == LatestOutputs(events, op)
  {
    if more == [] {
      assert events + more == events;
    } else {
      assert (events + more)[..|events + more| - 1] == events + more[..|more| - 1];
      LatestKept(events, more[..|more| - 1], op);
    }
  }

  lemma LatestOfRegistering(events: seq<Event>, op: string, topic: string, output: string)
    ensures LatestOutputs(events + Registering(op, true, topic, output), op) == [output]
  {
    var reg := Registering(op, true, topic, output);
    assert (events + [reg[0]])[..|events|] == events;
    LatestKept(events + [reg[0]], reg[1..], op);
    assert events + reg == (events + [reg[0]]) + reg[1..];
  }

  /** The operator's only queue holds one record. */
  lemma OneWaiting(limits: Limits, op: string, topic: string, output: string, r: TopicRecord)
    returns (events: seq<Event>, e: Engine)
    requires limits.batch >= 1
    ensures Run(Empty(limits), events) == Some(e)
    ensures e == Empty(limits).(operators := map[op := true], bindings := map[topic := [op]],
                                routes := map[op := [output]], queues := [Queue(op, [r], None, 1, [r], [])],
                                workerQueues := map[op := 0], loops := e.loops)
    ensures forall t :: t != topic ==> e.Stage(t).Polling?
  {
    var e0 := Empty(limits);
    var e1 := Registered(e0, op, topic, output);
    assert [] + [op] == [op];
    e := Delivered(e1, op, topic, r);
    assert [] + [r] == [r];
    Chain(e0, Registering(op, true, topic, output), e1, Delivery(topic, r), e);
    events := Registering(op, true, topic, output) + Delivery(topic, r);
  }

  /** The first life waits for its queue; the second one has routes, a queue and a topic of its own. */
  ghost predicate Overlapping(e: Engine, op: string, topic: string, output: string, r: TopicRecord) {
    && e.queues == [Queue(op, [r], None, 1, [r], []), Queue(op, [], None, 0, [], [])]
    && e.operators == map[op := true] && e.workerQueues == map[op := 1] && e.joining == {(op, 0)}
    && e.Bound(topic) == [op] && e.Stage(topic).Polling? && e.paused == {} && e.routes == map[op := [output]]
  }

  lemma OverlapsWith(e: Engine, e3: Engine, op: string, first: string, second: string, output: string, r: TopicRecord)
    returns (e4: Engine)
    requires e == Empty(e.limits).(operators := map[op := true], bindings := map[first := [op]],
                                   routes := map[op := [output]], queues := [Queue(op, [r], None, 1, [r], [])],
                                   workerQueues := map[op := 0], loops := e.loops)
    requires first != second && e.Stage(second).Polling? && e3 == e.Deregistering(op)
    ensures Run(e3, Registering(op, true, second, output)) == Some(e4)
    ensures Overlapping(e4, op, second, output, r) && e4.limits == e.limits
  {
    e4 := Registered(e3, op, second, output);
    assert e3.Bound(second) == [] && [] + [op] == [op];
  }

  /** The operator has a record waiting when its deregistration starts, and is registered again. */
  lemma RegisteredTwice(limits: Limits, op: string, first: string, second: string, output: string, r: TopicRecord)
    returns (events: seq<Event>, e: Engine)
    requires limits.batch >= 1 && first != second
    ensures Run(Empty(limits), events) == Some(e) && LatestOutputs(events, op) == [output]
    ensures Overlapping(e, op, second, output, r) && e.limits == limits
  {
    var e2: Engine;
    events, e2 := OneWaiting(limits, op, first, output, r);
    var e3 := e2.Deregistering(op);
    TraceRuns([DeregisterStart(op)], [e2, e3]);
    Chain(Empty(limits), events, e2, [DeregisterStart(op)], e3);
    events := events + [DeregisterStart(op)];
    e := OverlapsWith(e2, e3, op, first, second, output, r);
    Chain(Empty(limits), events, e3, Registering(op, true, second, output), e);
    LatestOfRegistering(events, op, second, output);
    events := events + Registering(op, true, second, output);
  }

  /** The first life's worker finishes and its deregistration ends: the second life has no routes. */
  lemma FirstLifeEnds(e: Engine, op: string, topic: string, output: string, r: TopicRecord) returns (e2: Engine)
    requires Overlapping(e, op, topic, output, r)
    ensures Run(e, [Take(0), Finish(0, false), DeregisterEnd(op, 0)]) == Some(e2)
    ensures e2 == e.(queues := e2.queues, routes := map[], joining := {})
    ensures |e2.queues| == 2 && e2.queues[1] == e.queues[1]
  {
    var e1 := Worked(e, 0, op, r);
    e2 := e1.Deregistered(op, 0);
    TraceRuns([DeregisterEnd(op, 0)], [e1, e2]);
    Chain(e, [Take(0), Finish(0, false)], e1, [DeregisterEnd(op, 0)], e2);
    assert [Take(0), Finish(0, false)] + [DeregisterEnd(op, 0)] == [Take(0), Finish(0, false), DeregisterEnd(op, 0)];
  }

  /** A record of the second life is handled without routes, and its deregistration starts. */
  lemma SecondLifeUnrouted(e2: Engine, op: string, topic: string, r: TopicRecord) returns (more: seq<Event>, e: Engine)
    requires |e2.queues| == 2 && e2.queues[1] == Queue(op, [], None, 0, [], []) && e2.routes == map[]
    requires e2.operators == map[op := true] && e2.workerQueues == map[op := 1]
    requires e2.Bound(topic) == [op] && e2.Stage(topic).Polling? && e2.paused == {} && e2.limits.batch >= 1
    ensures Run(e2, more) == Some(e) && forall k :: 0 <= k < |more| ==> !Registers(more[k], op)
    ensures |e.queues| == 2 && e.queues[1] == Queue(op, [], None, 0, [r], [Handled(r, Some([]))])
    ensures e.Enabled(DeregisterEnd(op, 1))
  {
    var e4: Engine;
    more, e4 := HandledUnrouted(e2, op, topic, r);
    e := e4.Deregistering(op);
    TraceRuns([DeregisterStart(op)], [e4, e]);
    Chain(e2, more, e4, [DeregisterStart(op)], e);
    more := more + [DeregisterStart(op)];
  }

  lemma HandledUnrouted(e2: Engine, op: string, topic: string, r: TopicRecord) returns (more: seq<Event>, e4: Engine)
    requires |e2.queues| == 2 && e2.queues[1] == Queue(op, [], None, 0, [], []) && e2.routes == map[]
    requires e2.operators == map[op := true] && e2.workerQueues == map[op := 1]
    requires e2.Bound(topic) == [op] && e2.Stage(topic).Polling? && e2.paused == {} && e2.limits.batch >= 1
    ensures Run(e2, more) == Some(e4) && forall k :: 0 <= k < |more| ==> !Registers(more[k], op)
    ensures e4 == e2.(queues := e4.queues, loops := e4.loops)
    ensures |e4.queues| == 2 && e4.queues[1] == Queue(op, [], None, 0, [r], [Handled(r, Some([]))])
  {
    var e3 := Delivered(e2, op, topic, r);
    assert [] + [r] == [r];
    e4 := Worked(e3, 1, op, r);
    Chain(e2, Delivery(topic, r), e3, [Take(1), Finish(1, false)], e4);
    more := Delivery(topic, r) + [Take(1), Finish(1, false)];
  }

  /**
    Registering an operator while its deregistration still waits breaks the drain: for every
    operator, topics and output there is a run in which the second deregistration returns from
    its join although a record it waited for was handled and sent nowhere.
   */
  lemma OverlapLosesOutput(limits: Limits, op: string, first: string, second: string, output: string, r: TopicRecord,
                           r': TopicRecord)
    returns (events: seq<Event>, e: Engine)
    requires limits.batch >= 1 && first != second
    ensures Run(Empty(limits), events) == Some(e) && e.Enabled(DeregisterEnd(op, 1))
    ensures Owns(e, op, 1) && LatestOutputs(events, op) == [output]
    ensures e.queues[1].handled == [Handled(r', Some([]))] && !AllTo(e.queues[1].handled, [output])
  {
    var before, e0 := RegisteredTwice(limits, op, first, second, output, r);
    var e2 := FirstLifeEnds(e0, op, second, output, r);
    var ending := [Take(0), Finish(0, false), DeregisterEnd(op, 0)];
    Chain(Empty(limits), before, e0, ending, e2);
    LatestKept(before, ending, op);
    var more: seq<Event>;
    more, e := SecondLifeUnrouted(e2, op, second, r');
    Chain(Empty(limits), before + ending, e2, more, e);
    LatestKept(before + ending, more, op);
    events := before + ending + more;
    assert e.queues[1].handled[0].sentTo == Some([]);
  }

  // ---- Registered again while still registered ---------------------------------------------------------

  /** The operator's first queue holds a record; its second one has taken the first one's place in the table. */
  ghost predicate Replaced(e: Engine, op: string, r: TopicRecord) {
    && e.queues == [Queue(op, [r], None, 1, [r], []), Queue(op, [], None, 0, [], [])]
    && e.operators == map[op := true] && e.workerQueues == map[op := 1] && e.joining == {}
  }

  lemma RegisteredTwiceAtOnce(limits: Limits, op: string, first: string, second: string, output: string,
                              r: TopicRecord)
    returns (events: seq<Event>, e: Engine)
    requires limits.batch >= 1 && first != second
    ensures Run(Empty(limits), events) == Some(e) && Replaced(e, op, r)
  {
    var e1: Engine;
    events, e1 := OneWaiting(limits, op, first, output, r);
    e := Registered(e1, op, second, output);
    assert e.operators == map[op := true] && e.workerQueues == map[op := 1];
    Chain(Empty(limits), events, e1, Registering(op, true, second, output), e);
    events := events + Registering(op, true, second, output);
  }

  /** The deregistration joins the new queue, which is empty, and the old one is handled without routes. */
  lemma ReplacedIsNotWaitedFor(e: Engine, op: string, r: TopicRecord) returns (e3: Engine)
    requires Replaced(e, op, r)
    ensures Run(e, [DeregisterStart(op), DeregisterEnd(op, 1), Take(0), Finish(0, false)]) == Some(e3)
    ensures Owns(e3, op, 0) && e3.queues[0].handled == [Handled(r, Some([]))]
    ensures op !in e3.operators && e3.joining == {}
  {
    var e1 := e.Deregistering(op);
    assert e1.joining == {(op, 1)};
    var e2 := e1.Deregistered(op, 1);
    assert e2.joining == {} && e2.queues == e.queues && e2.Routes(op) == [];
    TraceRuns([DeregisterStart(op), DeregisterEnd(op, 1)], [e, e1, e2]);
    e3 := Worked(e2, 0, op, r);
    Chain(e, [DeregisterStart(op), DeregisterEnd(op, 1)], e2, [Take(0), Finish(0, false)], e3);
    assert [DeregisterStart(op), DeregisterEnd(op, 1)] + [Take(0), Finish(0, false)]
        == [DeregisterStart(op), DeregisterEnd(op, 1), Take(0), Finish(0, false)];
  }

  /**
    Registering an operator that is still registered replaces its queue, and the deregistration
    that follows does not wait for the old one: for every operator, topics and output there is a
    run in which it is over at once and a record queued before is then handled and sent nowhere.
   */
  lemma ReplacedQueueLosesOutput(limits: Limits, op: string, first: string, second: string, output: string,
                                 r: TopicRecord)
    returns (events: seq<Event>, e: Engine)
    requires limits.batch >= 1 && first != second
    ensures Run(Empty(limits), events) == Some(e) && op !in e.operators && e.joining == {}
    ensures Owns(e, op, 0) && e.queues[0].handled == [Handled(r, Some([]))]
  {
    var e0: Engine;
    events, e0 := RegisteredTwiceAtOnce(limits, op, first, second, output, r);
    e := ReplacedIsNotWaitedFor(e0, op, r);
    var more := [DeregisterStart(op), DeregisterEnd(op, 1), Take(0), Finish(0, false)];
    Chain(Empty(limits), events, e0, more, e);
    events := events + more;
  }
}
