/**
  The output of queued records, whatever is registered and deregistered meanwhile.  It is kept
  exactly if no queue of the operator holds records while the operator has no routes.
 */
module QueuedOutputs {
  import opened Wrappers
  import opened EdgeEngine
  import opened Draining

  /** Queue `q` of the operator holds records, but their output has nowhere to go. */
  predicate Stuck(e: Engine, op: string, q: nat) {
    Owns(e, op, q) && e.queues[q].unfinished > 0 && op !in e.routes
  }

  ghost predicate StuckAt(limits: Limits, events: seq<Event>, op: string, k: nat, q: nat) {
    && k <= |events| && Run(Empty(limits), events[..k]).Some?
    && Stuck(Run(Empty(limits), events[..k]).value, op, q)
  }

  /** No queue of the operator is ever stuck. */
  ghost predicate NeverStuck(limits: Limits, events: seq<Event>, op: string) {
    forall k: nat, q: nat :: !StuckAt(limits, events, op, k, q)
  }

  /** What the worker of queue `q` has handled, had all output gone to the topics registered last. */
  function IntendedHandled(limits: Limits, events: seq<Event>, op: string, q: nat): seq<Handled>
    decreases |events|
  {
    if events == [] then []
    else
      var init, ev := events[..|events| - 1], events[|events| - 1];
      IntendedHandled(limits, init, op, q)
      + match Run(Empty(limits), init)
        case None => []
        case Some(e) => Finishing(e, ev, op, q, LatestOutputs(init, op))
  }

  /** The entry that the event adds for queue `q` of the operator if its output goes to `outputs`. */
  function Finishing(e: Engine, ev: Event, op: string, q: nat, outputs: seq<string>): seq<Handled> {
    if ev.Finish? && ev.queue == q && Owns(e, op, q) && e.queues[q].busy.Some?
    then [Handled(e.queues[q].busy.value, if ev.raised then None else Some(outputs))] else []
  }

  /** Everything handled in the operator's queues went where it was meant to go. */
  ghost predicate AsIntended(limits: Limits, events: seq<Event>, e: Engine, op: string) {
    forall q: nat :: Owns(e, op, q) ==> e.queues[q].handled == IntendedHandled(limits, events, op, q)
  }

  // ---- Routes ----------------------------------------------------------------------------------

  /** Only a registration brings or changes routes. */
  lemma RoutesOnlyGo(e: Engine, ev: Event, op: string)
    requires e.Enabled(ev) && !Registers(ev, op) && op in e.Next(ev).routes
    ensures op in e.routes && e.Next(ev).routes[op] == e.routes[op]
  {
    match ev
    case Dispatch(t) => var o := DispatchPuts(e, t);
    case Check(t) => CheckedKeepsBooks(e, t, e.Bound(t));
    case DeregisterStart(o) =>
    case Decode(t) => DecodeKeepsBooks(e, t);
    case Start(s) => StartKeepsLoops(e, s);
    case _ =>
  }

  lemma {:induction false} RoutesAreLatest(limits: Limits, events: seq<Event>, e: Engine, op: string)
    requires Run(Empty(limits), events) == Some(e) && op in e.routes
    ensures e.routes[op] == LatestOutputs(events, op)
    decreases |events|
  {
    var before := LastStep(Empty(limits), events, e);
    var ev := events[|events| - 1];
    if !Registers(ev, op) {
      RoutesOnlyGo(before, ev, op);
      RoutesAreLatest(limits, events[..|events| - 1], before, op);
    }
  }

  // ---- Kept while never stuck -------------------------------------------------------------------

  /** A step adds to a queue's handled records what its worker finishes. */
  lemma HandledStep(e: Engine, ev: Event, op: string, q: nat)
    requires e.Enabled(ev) && Owns(e, op, q)
    ensures Owns(e.Next(ev), op, q)
    ensures e.Next(ev).queues[q].handled == e.queues[q].handled + Finishing(e, ev, op, q, e.Routes(op))
  {
    match ev
    case Dispatch(t) => var o := DispatchPuts(e, t);
    case Check(t) => CheckedKeepsBooks(e, t, e.Bound(t));
    case Decode(t) => DecodeKeepsBooks(e, t);
    case DeregisterStart(o) =>
    case Start(s) =>
    case Take(i) =>
    case Finish(i, raised) =>
    case _ =>
  }

  /** A queue that was not there before has handled nothing. */
  lemma NewQueueIsEmpty(e: Engine, ev: Event, op: string, q: nat)
    requires e.Enabled(ev) && Owns(e.Next(ev), op, q) && !Owns(e, op, q)
    ensures q >= |e.queues| && ev.Start? && ev.starting.op == op
    ensures e.Next(ev).queues[q] == Queue(op, [], None, 0, [], [])
  {
    match ev
    case Dispatch(t) => var o := DispatchPuts(e, t);
    case Check(t) => CheckedKeepsBooks(e, t, e.Bound(t));
    case Decode(t) => DecodeKeepsBooks(e, t);
    case DeregisterStart(o) =>
    case Start(s) =>
    case _ =>
  }

  lemma QueuesGrow(e: Engine, ev: Event)
    requires e.Enabled(ev)
    ensures |e.Next(ev).queues| >= |e.queues|
  {
    match ev
    case Dispatch(t) => var o := DispatchPuts(e, t);
    case Check(t) => CheckedKeepsBooks(e, t, e.Bound(t));
    case Decode(t) => DecodeKeepsBooks(e, t);
    case DeregisterStart(o) =>
    case Start(s) =>
    case _ =>
  }

  lemma {:induction false} NothingBeforeQueue(limits: Limits, events: seq<Event>, e: Engine, op: string, q: nat)
    requires Run(Empty(limits), events) == Some(e) && q >= |e.queues|
    ensures IntendedHandled(limits, events, op, q) == []
    decreases |events|
  {
    if events != [] {
      var before := LastStep(Empty(limits), events, e);
      QueuesGrow(before, events[|events| - 1]);
      NothingBeforeQueue(limits, events[..|events| - 1], before, op, q);
    }
  }

  lemma IntendedStep(limits: Limits, events: seq<Event>, before: Engine, e: Engine, op: string)
    requires events != [] && Run(Empty(limits), events[..|events| - 1]) == Some(before)
    requires before.Enabled(events[|events| - 1]) && e == before.Next(events[|events| - 1])
    requires AsIntended(limits, events[..|events| - 1], before, op)
    requires forall q: nat :: !Stuck(before, op, q)
    ensures AsIntended(limits, events, e, op)
  {
    var n := |events| - 1;
    forall q: nat | Owns(e, op, q)
      ensures e.queues[q].handled == IntendedHandled(limits, events, op, q)
    {
      if Owns(before, op, q) {
        HandledStep(before, events[n], op, q);
        if Finishing(before, events[n], op, q, []) != [] {
          assert !Stuck(before, op, q);
          RoutesAreLatest(limits, events[..n], before, op);
        }
      } else {
        NewQueueIsEmpty(before, events[n], op, q);
        NothingBeforeQueue(limits, events[..n], before, op, q);
      }
    }
  }

  lemma {:induction false} KeptWhileNeverStuck(limits: Limits, events: seq<Event>, e: Engine, op: string)
    requires Run(Empty(limits), events) == Some(e) && NeverStuck(limits, events, op)
    ensures AsIntended(limits, events, e, op)
    decreases |events|
  {
    if events != [] {
      var n := |events| - 1;
      var before := LastStep(Empty(limits), events, e);
      forall k: nat, q: nat
        ensures !StuckAt(limits, events[..n], op, k, q)
      {
        if k <= n {
          assert events[..n][..k] == events[..k];
          assert !StuckAt(limits, events, op, k, q);
        }
      }
      KeptWhileNeverStuck(limits, events[..n], before, op);
      forall q: nat
        ensures !Stuck(before, op, q)
      {
        assert !StuckAt(limits, events, op, n, q);
      }
      IntendedStep(limits, events, before, e, op);
    }
  }

  // ---- Lost when stuck --------------------------------------------------------------------------

  /** The worker finishes a record of queue `q` at event `j` before the operator is registered again. */
  ghost predicate FinishesAt(events: seq<Event>, op: string, k: nat, q: nat, j: nat) {
    k <= j < |events| && events[j] == Finish(q, false) && forall i :: k <= i < j ==> !Registers(events[i], op)
  }

  /** Every queue that gets stuck has a record finished without raising before a new registration. */
  ghost predicate StuckFinish(limits: Limits, events: seq<Event>, op: string) {
    forall k: nat, q: nat :: StuckAt(limits, events, op, k, q) ==> exists j: nat :: FinishesAt(events, op, k, q, j)
  }

  ghost predicate LostIn(e: Engine, op: string, q: nat) {
    Owns(e, op, q) && exists h :: h in e.queues[q].handled && h.sentTo == Some([])
  }

  lemma {:induction false} UnroutedUntil(limits: Limits, events: seq<Event>, e: Engine, op: string, q: nat, k: nat,
                                         stuck: Engine)
    requires k <= |events| && Run(Empty(limits), events) == Some(e)
    requires Run(Empty(limits), events[..k]) == Some(stuck) && op !in stuck.routes && Owns(stuck, op, q)
    requires forall i :: k <= i < |events| ==> !Registers(events[i], op)
    ensures op !in e.routes && Owns(e, op, q)
    decreases |events|
  {
    var n := |events| - 1;
    if k <= n {
      var before := LastStep(Empty(limits), events, e);
      assert events[..n][..k] == events[..k];
      UnroutedUntil(limits, events[..n], before, op, q, k, stuck);
      HandledStep(before, events[n], op, q);
      if op in e.routes {
        RoutesOnlyGo(before, events[n], op);
      }
    } else {
      assert events[..k] == events;
    }
  }

  lemma LostStays(e: Engine, ev: Event, op: string, q: nat)
    requires LostIn(e, op, q) && e.Enabled(ev)
    ensures LostIn(e.Next(ev), op, q)
  {
    HandledStep(e, ev, op, q);
    var h :| h in e.queues[q].handled && h.sentTo == Some([]);
    assert h in e.Next(ev).queues[q].handled;
  }

  lemma {:induction false} LostToTheEnd(limits: Limits, events: seq<Event>, e: Engine, op: string, q: nat, j: nat,
                                        lost: Engine)
    requires Run(Empty(limits), events) == Some(e) && j <= |events|
    requires Run(Empty(limits), events[..j]) == Some(lost) && LostIn(lost, op, q)
    ensures LostIn(e, op, q)
    decreases |events|
  {
    if j < |events| {
      var n := |events| - 1;
      var before := LastStep(Empty(limits), events, e);
      assert events[..n][..j] == events[..j];
      LostToTheEnd(limits, events[..n], before, op, q, j, lost);
      LostStays(before, events[n], op, q);
    } else {
      assert events[..j] == events;
    }
  }

  lemma FinishLoses(e: Engine, op: string, q: nat)
    requires Owns(e, op, q) && op !in e.routes && e.Enabled(Finish(q, false))
    ensures LostIn(e.Next(Finish(q, false)), op, q)
  {
    HandledStep(e, Finish(q, false), op, q);
    var h := Handled(e.queues[q].busy.value, Some([]));
    assert Finishing(e, Finish(q, false), op, q, []) == [h];
    assert h in e.Next(Finish(q, false)).queues[q].handled;
  }

  lemma StuckLosesOne(limits: Limits, events: seq<Event>, e: Engine, op: string, k: nat, q: nat, j: nat)
    requires Run(Empty(limits), events) == Some(e)
    requires StuckAt(limits, events, op, k, q) && FinishesAt(events, op, k, q, j)
    ensures LostIn(e, op, q)
  {
    var before := PrefixRuns(Empty(limits), events, e, j);
    assert events[..j][..k] == events[..k];
    UnroutedUntil(limits, events[..j], before, op, q, k, Run(Empty(limits), events[..k]).value);
    FinishLoses(before, op, q);
    LostToTheEnd(limits, events, e, op, q, j + 1, before.Next(events[j]));
  }

  /** Whoever owns a queue or is about to get one has been registered. */
  lemma {:induction false} OwnerWasRegistered(limits: Limits, events: seq<Event>, e: Engine, op: string)
    requires Run(Empty(limits), events) == Some(e) && NamesOutputs(events, op)
    ensures BeingRegistered(e, op) || (exists q: nat :: Owns(e, op, q)) ==> LatestOutputs(events, op) != []
    decreases |events|
  {
    if events != [] {
      var n := |events| - 1;
      var before := LastStep(Empty(limits), events, e);
      OwnerWasRegistered(limits, events[..n], before, op);
      if !Registers(events[n], op) {
        if BeingRegistered(e, op) {
          StartingBefore(before, events[n], op);
        }
        if q: nat :| Owns(e, op, q) && !Owns(before, op, q) {
          NewQueueIsEmpty(before, events[n], op, q);
          assert events[n].starting in before.starting;
        }
      }
    }
  }

  lemma StartingBefore(e: Engine, ev: Event, op: string)
    requires e.Enabled(ev) && !Registers(ev, op) && BeingRegistered(e.Next(ev), op)
    ensures BeingRegistered(e, op)
  {
    var s :| s in e.Next(ev).starting && s.op == op;
    match ev
    case Dispatch(t) => var o := DispatchPuts(e, t);
    case Check(t) => CheckedKeepsBooks(e, t, e.Bound(t));
    case Decode(t) => DecodeKeepsBooks(e, t);
    case DeregisterStart(o) =>
    case Start(s') => assert s in e.starting;
    case Bind(s') => assert s in e.starting || s == s'.(inputs := s'.inputs[1..]);
    case Register(o, cpuBound, inputs, outputs) => assert s in e.starting;
    case _ =>
  }

  lemma {:induction false} IntendedGoesSomewhere(limits: Limits, events: seq<Event>, e: Engine, op: string, q: nat)
    requires Run(Empty(limits), events) == Some(e) && NamesOutputs(events, op)
    ensures forall h :: h in IntendedHandled(limits, events, op, q) ==> h.sentTo != Some([])
    decreases |events|
  {
    if events != [] {
      var before := LastStep(Empty(limits), events, e);
      IntendedGoesSomewhere(limits, events[..|events| - 1], before, op, q);
      OwnerWasRegistered(limits, events[..|events| - 1], before, op);
    }
  }

  /**
    In every run, however registrations and deregistrations overlap: everything the operator's
    workers handled without raising went to the topics registered last exactly if no queue of
    the operator ever held records while the operator had no routes.
   */
  lemma QueuedOutputsKeptIff(limits: Limits, events: seq<Event>, e: Engine, op: string)
    requires Run(Empty(limits), events) == Some(e) && NamesOutputs(events, op)
    requires StuckFinish(limits, events, op)
    ensures AsIntended(limits, events, e, op) <==> NeverStuck(limits, events, op)
  {
    if NeverStuck(limits, events, op) {
      KeptWhileNeverStuck(limits, events, e, op);
    } else {
      var k: nat, q: nat :| StuckAt(limits, events, op, k, q);
      var j: nat :| FinishesAt(events, op, k, q, j);
      StuckLosesOne(limits, events, e, op, k, q, j);
      IntendedGoesSomewhere(limits, events, e, op, q);
    }
  }

  /**
    What gets a queue stuck: a deregistration that takes the routes away while the queue holds
    records, or a record put into it while there are none.
   */
  lemma StuckByIff(limits: Limits, events: seq<Event>, e: Engine, ev: Event, op: string, q: nat)
    requires Run(Empty(limits), events) == Some(e) && e.Enabled(ev) && !Stuck(e, op, q)
    ensures Stuck(e.Next(ev), op, q) <==>
              && Owns(e, op, q)
              && ((DropsRoutes(e, ev, op) && e.queues[q].unfinished > 0)
                  || (op !in e.routes && PutsInto(e, ev, q)))
  {
    AlwaysQueuesOk(limits, events, e);
    if Owns(e, op, q) {
      StuckByOwnIff(e, ev, op, q);
    } else if Owns(e.Next(ev), op, q) {
      NewQueueIsEmpty(e, ev, op, q);
    }
  }

  /** The event puts a record into queue `q`. */
  predicate PutsInto(e: Engine, ev: Event, q: nat) {
    && ev.Dispatch? && e.Stage(ev.topic).Dispatching? && e.Stage(ev.topic).at < |e.Bound(ev.topic)|
    && var o := e.Bound(ev.topic)[e.Stage(ev.topic).at];
       o in e.operators && e.operators[o] && e.HasQueue(o) && e.workerQueues[o] == q
  }

  lemma StuckByOwnIff(e: Engine, ev: Event, op: string, q: nat)
    requires QueuesOk(e) && e.Enabled(ev) && Owns(e, op, q) && !Stuck(e, op, q)
    ensures Stuck(e.Next(ev), op, q) <==>
              (DropsRoutes(e, ev, op) && e.queues[q].unfinished > 0) || (op !in e.routes && PutsInto(e, ev, q))
  {
    match ev
    case Dispatch(t) => StuckByDispatchIff(e, t, op, q);
    case Check(t) => CheckedKeepsBooks(e, t, e.Bound(t));
    case Poll(t, messages) => LoopKeepsBooks(e, ev);
    case Decode(t) => LoopKeepsBooks(e, ev);
    case FinishInline(t, raised) => LoopKeepsBooks(e, ev);
    case DeregisterStart(o) => DeregisteringKeepsQueues(e, o);
    case Start(s) => StartKeepsLoops(e, s);
    case _ =>
  }

  lemma DeregisteringKeepsQueues(e: Engine, o: string)
    ensures e.Deregistering(o).queues == e.queues
  {
  }

  lemma StuckByDispatchIff(e: Engine, t: string, op: string, q: nat)
    requires e.Enabled(Dispatch(t)) && Owns(e, op, q) && !Stuck(e, op, q)
    ensures Stuck(e.Dispatched(t), op, q) <==> op !in e.routes && PutsInto(e, Dispatch(t), q)
  {
    var o := DispatchPuts(e, t);
  }
}
