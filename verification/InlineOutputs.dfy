/**
  Operators that run in the consumer loop have no queue for a deregistration to wait for.
  Their output is kept exactly if no record is under way when their routes go.
 */
module InlineOutputs {
  import opened Wrappers
  import opened EdgeEngine
  import opened Draining

  /** The loop of topic `t` is waiting for operator `op` to process a record. */
  predicate At(e: Engine, op: string, t: string) {
    e.Stage(t).Processing? && e.Stage(t).op == op
  }

  /** Event `k` takes the routes away while the loop of topic `t` is waiting for the operator. */
  ghost predicate Cuts(limits: Limits, events: seq<Event>, op: string, k: nat, t: string) {
    && k < |events| && Run(Empty(limits), events[..k]).Some?
    && DropsRoutes(Run(Empty(limits), events[..k]).value, events[k], op)
    && At(Run(Empty(limits), events[..k]).value, op, t)
  }

  /** The operator is never deregistered while a loop is waiting for it. */
  ghost predicate Undisturbed(limits: Limits, events: seq<Event>, op: string) {
    forall k: nat, t: string :: !Cuts(limits, events, op, k, t)
  }

  /** The operator's log, had all its output gone to the topics it was registered with last. */
  function IntendedLog(limits: Limits, events: seq<Event>, op: string): seq<Handled>
    decreases |events|
  {
    if events == [] then []
    else
      var init, ev := events[..|events| - 1], events[|events| - 1];
      IntendedLog(limits, init, op)
      + match Run(Empty(limits), init)
        case None => []
        case Some(e) => Finishes(e, ev, op, LatestOutputs(init, op))
  }

  /** The entry that the event adds to the operator's log if its output goes to `outputs`. */
  function Finishes(e: Engine, ev: Event, op: string, outputs: seq<string>): seq<Handled> {
    if ev.FinishInline? && At(e, op, ev.topic)
    then [Handled(e.Stage(ev.topic).record, if ev.raised then None else Some(outputs))] else []
  }

  predicate EndsAt(ev: Event, t: string) {
    ev.FinishInline? && ev.topic == t
  }

  // ---- Kept while undisturbed --------------------------------------------------------------------

  /** Routes go with the registration, and a loop that waits for the operator finds them. */
  ghost predicate Kept(e: Engine, op: string, outputs: seq<string>) {
    && (op in e.operators ==> Routed(e, op, outputs) && !Joining(e, op))
    && (op in e.routes ==> op in e.operators || Joining(e, op))
    && (forall t :: At(e, op, t) ==> Routed(e, op, outputs))
  }

  lemma SameBooksKept(e: Engine, e': Engine, op: string, outputs: seq<string>)
    requires Kept(e, op, outputs) && SameBooks(e, e')
    requires forall t :: At(e', op, t) ==> At(e, op, t) || op in e.operators
    ensures Kept(e', op, outputs)
  {
    assert Joining(e', op) <==> Joining(e, op);
  }

  lemma FinishKept(e: Engine, op: string, outputs: seq<string>, t: string, raised: bool)
    requires Kept(e, op, outputs) && e.Enabled(FinishInline(t, raised))
    ensures Kept(e.FinishedInline(t, raised), op, outputs)
  {
    var e' := e.FinishedInline(t, raised);
    assert Joining(e', op) <==> Joining(e, op);
    assert forall u :: At(e', op, u) ==> At(e, op, u);
  }

  lemma LoopKept(e: Engine, op: string, outputs: seq<string>, ev: Event)
    requires Kept(e, op, outputs) && e.Enabled(ev) && (ev.Poll? || ev.Decode? || ev.Check?)
    ensures Kept(e.Next(ev), op, outputs)
  {
    var e' := e.Next(ev);
    LoopKeepsBooks(e, ev);
    if ev.Check? {
      CheckedKeepsBooks(e, ev.topic, e.Bound(ev.topic));
    }
    SameBooksKept(e, e', op, outputs);
  }

  lemma DispatchKept(e: Engine, op: string, outputs: seq<string>, t: string)
    requires Kept(e, op, outputs) && e.Enabled(Dispatch(t))
    ensures Kept(e.Dispatched(t), op, outputs)
  {
    var e' := e.Dispatched(t);
    DispatchActive(e, t, op);
    DispatchRoutes(e, t);
    assert Joining(e', op) <==> Joining(e, op);
  }

  /** A dispatch makes a loop wait for registered operators only. */
  lemma DispatchActive(e: Engine, t: string, op: string)
    requires e.Enabled(Dispatch(t))
    ensures forall u :: At(e.Dispatched(t), op, u) ==> At(e, op, u) || op in e.operators
  {
  }

  lemma DispatchRoutes(e: Engine, t: string)
    requires e.Enabled(Dispatch(t))
    ensures e.Dispatched(t).operators == e.operators && e.Dispatched(t).routes == e.routes
    ensures e.Dispatched(t).joining == e.joining
  {
    var o := DispatchPuts(e, t);
  }

  lemma DeregisterKept(e: Engine, op: string, outputs: seq<string>, o: string)
    requires Kept(e, op, outputs)
    requires DropsRoutes(e, DeregisterStart(o), op) ==> forall t :: !At(e, op, t)
    ensures Kept(e.Deregistering(o), op, outputs)
  {
    var e' := e.Deregistering(o);
    assert forall t :: At(e', op, t) <==> At(e, op, t);
    if o != op {
      assert Joining(e', op) ==> Joining(e, op);
    }
  }

  lemma EndKept(e: Engine, op: string, outputs: seq<string>, o: string, q: nat)
    requires Kept(e, op, outputs) && e.Enabled(DeregisterEnd(o, q))
    requires o == op ==> forall t :: !At(e, op, t)
    ensures Kept(e.Deregistered(o, q), op, outputs)
  {
    var e' := e.Deregistered(o, q);
    assert Joining(e', op) ==> Joining(e, op);
    assert o == op ==> Joining(e, op);
    assert forall t :: At(e', op, t) <==> At(e, op, t);
  }

  /** A new registration brings its own topics; the operator was vacant, so no loop waits for it. */
  lemma RegisterKept(e: Engine, op: string, outputs: seq<string>, ev: Event)
    requires Kept(e, op, outputs) && ev.Register?
    requires Registers(ev, op) ==> Vacant(e, op)
    ensures Kept(e.Next(ev), op, if Registers(ev, op) then ev.outputs else outputs)
  {
    assert Joining(e.Next(ev), op) <==> Joining(e, op);
    assert forall t :: At(e.Next(ev), op, t) <==> At(e, op, t);
  }

  lemma OthersKept(e: Engine, op: string, outputs: seq<string>, ev: Event)
    requires Kept(e, op, outputs) && e.Enabled(ev) && (ev.Bind? || ev.Start? || ev.Take? || ev.Finish?)
    ensures Kept(e.Next(ev), op, outputs)
  {
    OthersKeepLoops(e, ev);
    assert Joining(e.Next(ev), op) <==> Joining(e, op);
    assert forall t :: At(e.Next(ev), op, t) <==> At(e, op, t);
  }

  lemma OthersKeepLoops(e: Engine, ev: Event)
    requires e.Enabled(ev) && (ev.Bind? || ev.Start? || ev.Take? || ev.Finish?)
    ensures SameLoops(e, e.Next(ev))
  {
    match ev
    case Bind(s) => BindKeepsLoops(e, s);
    case Start(s) => StartKeepsLoops(e, s);
    case Take(q) =>
    case Finish(q, raised) =>
  }

  lemma KeptStep(e: Engine, op: string, outputs: seq<string>, ev: Event)
    requires Kept(e, op, outputs) && e.Enabled(ev)
    requires Registers(ev, op) ==> Vacant(e, op)
    requires DropsRoutes(e, ev, op) ==> forall t :: !At(e, op, t)
    ensures Kept(e.Next(ev), op, if Registers(ev, op) then ev.outputs else outputs)
  {
    match ev
    case Register(o, cpuBound, inputs, outs) => RegisterKept(e, op, outputs, ev);
    case Dispatch(t) => DispatchKept(e, op, outputs, t);
    case FinishInline(t, raised) => FinishKept(e, op, outputs, t, raised);
    case DeregisterStart(o) => DeregisterKept(e, op, outputs, o);
    case DeregisterEnd(o, q) => EndKept(e, op, outputs, o, q);
    case Poll(t, messages) => LoopKept(e, op, outputs, ev);
    case Decode(t) => LoopKept(e, op, outputs, ev);
    case Check(t) => LoopKept(e, op, outputs, ev);
    case _ => OthersKept(e, op, outputs, ev);
  }

  /** What a step adds to the operator's log, as long as a waiting loop finds the routes. */
  lemma LogStep(e: Engine, op: string, outputs: seq<string>, ev: Event)
    requires Kept(e, op, outputs) && e.Enabled(ev)
    ensures e.Next(ev).Logged(op) == e.Logged(op) + Finishes(e, ev, op, outputs)
  {
    match ev
    case Check(t) => CheckedKeepsBooks(e, t, e.Bound(t));
    case FinishInline(t, raised) => assert At(e, op, t) <==> e.Stage(t).op == op;
    case Dispatch(t) => DispatchKeepsLog(e, t);
    case DeregisterStart(o) =>
    case _ =>
  }

  lemma DispatchKeepsLog(e: Engine, t: string)
    requires e.Enabled(Dispatch(t))
    ensures e.Dispatched(t).inlineLog == e.inlineLog
  {
  }

  lemma {:induction false} AlwaysKept(limits: Limits, events: seq<Event>, e: Engine, op: string)
    requires Run(Empty(limits), events) == Some(e)
    requires CleanlyRegistered(limits, events, op) && Undisturbed(limits, events, op)
    ensures Kept(e, op, LatestOutputs(events, op)) && e.Logged(op) == IntendedLog(limits, events, op)
    decreases |events|
  {
    if events != [] {
      var n := |events| - 1;
      var before := LastStep(Empty(limits), events, e);
      CleanPrefix(limits, events, op, n);
      UndisturbedPrefix(limits, events, op, n);
      AlwaysKept(limits, events[..n], before, op);
      assert !Overlaps(limits, events, op, n);
      forall t | At(before, op, t)
        ensures !DropsRoutes(before, events[n], op)
      {
        assert !Cuts(limits, events, op, n, t);
      }
      KeptStep(before, op, LatestOutputs(events[..n], op), events[n]);
      LogStep(before, op, LatestOutputs(events[..n], op), events[n]);
    }
  }

  /**
    As long as no deregistration takes a cleanly registered operator's routes away while a loop
    waits for it, everything it processes in the loops goes to the topics of its registration.
   */
  lemma KeptWhileUndisturbed(limits: Limits, events: seq<Event>, e: Engine, op: string)
    requires Run(Empty(limits), events) == Some(e)
    requires CleanlyRegistered(limits, events, op) && Undisturbed(limits, events, op)
    ensures e.Logged(op) == IntendedLog(limits, events, op)
  {
    AlwaysKept(limits, events, e, op);
  }

  lemma UndisturbedPrefix(limits: Limits, events: seq<Event>, op: string, n: nat)
    requires Undisturbed(limits, events, op) && n <= |events|
    ensures Undisturbed(limits, events[..n], op)
  {
    forall k: nat, t: string
      ensures !Cuts(limits, events[..n], op, k, t)
    {
      if k < n {
        assert events[..n][..k] == events[..k];
        assert !Cuts(limits, events, op, k, t);
      }
    }
  }

  // ---- Lost when disturbed ------------------------------------------------------------------------

  /** The routes are gone while the loop of topic `t` is still waiting for the operator. */
  predicate CutOff(e: Engine, op: string, t: string) {
    At(e, op, t) && op !in e.routes
  }

  lemma CutOffStays(e: Engine, ev: Event, op: string, t: string)
    requires CutOff(e, op, t) && e.Enabled(ev) && !Registers(ev, op) && !EndsAt(ev, t)
    ensures CutOff(e.Next(ev), op, t)
  {
    match ev
    case Check(u) => CheckedKeepsBooks(e, u, e.Bound(u));
    case Dispatch(u) => DispatchSpares(e, u, t);
    case FinishInline(u, raised) =>
    case DeregisterStart(o) =>
    case Start(s) =>
    case _ =>
  }

  lemma DispatchSpares(e: Engine, u: string, t: string)
    requires e.Enabled(Dispatch(u)) && e.Stage(t).Processing?
    ensures e.Dispatched(u).Stage(t) == e.Stage(t) && e.Dispatched(u).routes == e.routes
  {
    var o := DispatchPuts(e, u);
  }

  /** Some record's output went nowhere although processing it did not raise. */
  ghost predicate LostOne(e: Engine, op: string) {
    exists k :: 0 <= k < |e.Logged(op)| && e.Logged(op)[k].sentTo == Some([])
  }

  lemma LogGrows(e: Engine, ev: Event, op: string)
    requires e.Enabled(ev)
    ensures e.Logged(op) <= e.Next(ev).Logged(op)
  {
    if ev.Check? {
      CheckedKeepsBooks(e, ev.topic, e.Bound(ev.topic));
    }
  }

  /** The loop that was waiting at event `k` gets its record back at event `j`, with the routes still gone. */
  ghost predicate ReturnsAt(events: seq<Event>, op: string, k: nat, t: string, j: nat) {
    && k < j < |events| && events[j] == FinishInline(t, false)
    && forall i :: k < i < j ==> !Registers(events[i], op) && !EndsAt(events[i], t)
  }

  lemma {:induction false} CutOffUntil(limits: Limits, events: seq<Event>, e: Engine, op: string, k: nat, t: string,
                                       cut: Engine)
    requires k < |events| && Run(Empty(limits), events) == Some(e)
    requires Run(Empty(limits), events[..k]) == Some(cut) && At(cut, op, t) && DropsRoutes(cut, events[k], op)
    requires forall i :: k < i < |events| ==> !Registers(events[i], op) && !EndsAt(events[i], t)
    ensures CutOff(e, op, t)
    decreases |events|
  {
    var n := |events| - 1;
    var before := LastStep(Empty(limits), events, e);
    if k < n {
      assert events[..n][..k] == events[..k];
      CutOffUntil(limits, events[..n], before, op, k, t, cut);
      CutOffStays(before, events[n], op, t);
    } else {
      CutOffAtOnce(cut, events[k], op, t);
    }
  }

  lemma CutOffAtOnce(e: Engine, ev: Event, op: string, t: string)
    requires e.Enabled(ev) && At(e, op, t) && DropsRoutes(e, ev, op)
    ensures CutOff(e.Next(ev), op, t)
  {
  }

  lemma {:induction false} LostStays(limits: Limits, events: seq<Event>, e: Engine, op: string, j: nat, before: Engine)
    requires Run(Empty(limits), events) == Some(e) && j <= |events|
    requires Run(Empty(limits), events[..j]) == Some(before) && LostOne(before, op)
    ensures LostOne(e, op)
    decreases |events| - j
  {
    if j == |events| {
      assert events[..j] == events;
    } else {
      var e0 := PrefixRuns(Empty(limits), events, e, j);
      LogGrows(before, events[j], op);
      LostStays(limits, events, e, op, j + 1, before.Next(events[j]));
    }
  }

  lemma ReturnLoses(e: Engine, op: string, t: string)
    requires CutOff(e, op, t)
    ensures e.Enabled(FinishInline(t, false)) && LostOne(e.Next(FinishInline(t, false)), op)
  {
    var e' := e.FinishedInline(t, false);
    assert e'.Logged(op)[|e.Logged(op)|] == Handled(e.Stage(t).record, Some([]));
  }

  lemma LosesFrom(limits: Limits, events: seq<Event>, e: Engine, op: string, t: string, j: nat, before: Engine)
    requires Run(Empty(limits), events) == Some(e) && j < |events| && events[j] == FinishInline(t, false)
    requires CutOff(before, op, t)
    requires before.Enabled(events[j]) && Run(Empty(limits), events[..j + 1]) == Some(before.Next(events[j]))
    ensures LostOne(e, op)
  {
    ReturnLoses(before, op, t);
    LostStays(limits, events, e, op, j + 1, before.Next(events[j]));
  }

  lemma CutLosesOne(limits: Limits, events: seq<Event>, e: Engine, op: string, k: nat, t: string, j: nat)
    requires Run(Empty(limits), events) == Some(e)
    requires Cuts(limits, events, op, k, t) && ReturnsAt(events, op, k, t, j)
    ensures LostOne(e, op)
  {
    var before := PrefixRuns(Empty(limits), events, e, j);
    assert events[..j][..k] == events[..k];
    CutOffUntil(limits, events[..j], before, op, k, t, Run(Empty(limits), events[..k]).value);
    LosesFrom(limits, events, e, op, t, j, before);
  }

  /** Every record that was under way when the routes went is finished without raising before a new registration. */
  ghost predicate CutsReturn(limits: Limits, events: seq<Event>, op: string) {
    forall k: nat, t: string :: Cuts(limits, events, op, k, t) ==> exists j: nat :: ReturnsAt(events, op, k, t, j)
  }

  /** Whoever is registered or waited for has been registered. */
  lemma {:induction false} ActiveWasRegistered(limits: Limits, events: seq<Event>, e: Engine, op: string)
    requires Run(Empty(limits), events) == Some(e) && NamesOutputs(events, op)
    ensures op in e.operators ==> LatestOutputs(events, op) != []
    ensures forall t :: At(e, op, t) ==> LatestOutputs(events, op) != []
    decreases |events|
  {
    if events != [] {
      var before := LastStep(Empty(limits), events, e);
      var ev := events[|events| - 1];
      ActiveWasRegistered(limits, events[..|events| - 1], before, op);
      if !Registers(ev, op) {
        ActiveBefore(before, ev, op);
      }
    }
  }

  lemma ActiveBefore(e: Engine, ev: Event, op: string)
    requires e.Enabled(ev) && !Registers(ev, op)
    ensures op in e.Next(ev).operators ==> op in e.operators
    ensures forall t :: At(e.Next(ev), op, t) ==> At(e, op, t) || op in e.operators
  {
    match ev
    case Check(t) => CheckedKeepsBooks(e, t, e.Bound(t));
    case Dispatch(t) =>
      DispatchActive(e, t, op);
      DispatchRoutes(e, t);
    case Poll(t, messages) => LoopActiveBefore(e, ev, op);
    case Decode(t) => LoopActiveBefore(e, ev, op);
    case FinishInline(t, raised) => LoopActiveBefore(e, ev, op);
    case DeregisterStart(o) => DeregisteringActive(e, o, op);
    case _ =>
  }

  lemma LoopActiveBefore(e: Engine, ev: Event, op: string)
    requires e.Enabled(ev) && (ev.Poll? || ev.Decode? || ev.FinishInline?)
    ensures e.Next(ev).operators == e.operators
    ensures forall t :: At(e.Next(ev), op, t) ==> At(e, op, t)
  {
    LoopKeepsBooks(e, ev);
  }

  lemma DeregisteringActive(e: Engine, o: string, op: string)
    ensures e.Deregistering(o).operators.Keys <= e.operators.Keys && e.Deregistering(o).loops == e.loops
  {
  }

  lemma {:induction false} IntendedGoesSomewhere(limits: Limits, events: seq<Event>, e: Engine, op: string)
    requires Run(Empty(limits), events) == Some(e) && NamesOutputs(events, op)
    ensures forall h :: h in IntendedLog(limits, events, op) ==> h.sentTo != Some([])
    decreases |events|
  {
    if events != [] {
      var before := LastStep(Empty(limits), events, e);
      IntendedGoesSomewhere(limits, events[..|events| - 1], before, op);
      ActiveWasRegistered(limits, events[..|events| - 1], before, op);
    }
  }

  lemma LostIsNotIntended(limits: Limits, events: seq<Event>, e: Engine, op: string)
    requires Run(Empty(limits), events) == Some(e) && NamesOutputs(events, op) && LostOne(e, op)
    ensures e.Logged(op) != IntendedLog(limits, events, op)
  {
    IntendedGoesSomewhere(limits, events, e, op);
    var k :| 0 <= k < |e.Logged(op)| && e.Logged(op)[k].sentTo == Some([]);
    assert e.Logged(op)[k] in e.Logged(op);
  }

  /**
    For a cleanly registered operator with output topics, in any number of lives: everything it
    processed in the consumer loops without raising went to the topics of its registration
    exactly if no deregistration took its routes away while a loop was waiting for it.
   */
  lemma InlineOutputsKeptIff(limits: Limits, events: seq<Event>, e: Engine, op: string)
    requires Run(Empty(limits), events) == Some(e) && NamesOutputs(events, op)
    requires CleanlyRegistered(limits, events, op) && CutsReturn(limits, events, op)
    ensures e.Logged(op) == IntendedLog(limits, events, op) <==> Undisturbed(limits, events, op)
  {
    if Undisturbed(limits, events, op) {
      KeptWhileUndisturbed(limits, events, e, op);
    } else {
      var k: nat, t: string :| Cuts(limits, events, op, k, t);
      var j: nat :| ReturnsAt(events, op, k, t, j);
      CutLosesOne(limits, events, e, op, k, t, j);
      LostIsNotIntended(limits, events, e, op);
    }
  }

  // ---- Such a run exists -----------------------------------------------------------------------------

  /** The operator is deregistered while it processes a record. */
  function LeavingEarly(op: string, topic: string, r: TopicRecord): seq<Event> {
    [Poll(topic, [Good(r)]), Decode(topic), Dispatch(topic), DeregisterStart(op), FinishInline(topic, false)]
  }

  lemma UnderWay(e3: Engine, op: string, topic: string, r: TopicRecord) returns (e6: Engine)
    requires e3.Bound(topic) == [op] && e3.Stage(topic).Polling? && topic !in e3.paused && e3.limits.batch >= 1
    requires op in e3.operators && !e3.operators[op]
    ensures Run(e3, LeavingEarly(op, topic, r)[..3]) == Some(e6)
    ensures e6 == e3.(loops := e6.loops) && e6.Stage(topic) == Processing(op, r, 1, [])
  {
    var e4 := e3.AtStage(topic, Delivering([Good(r)]));
    var e5 := e4.AtStage(topic, Dispatching(r, 0, []));
    e6 := e5.AtStage(topic, Processing(op, r, 1, []));
    assert [Good(r)][1..] == [];
    assert e4.Bound(topic) == [op] && e5.Bound(topic) == [op];
    TraceRuns(LeavingEarly(op, topic, r)[..3], [e3, e4, e5, e6]);
  }

  lemma LeavesEarly(e3: Engine, op: string, topic: string, r: TopicRecord) returns (e: Engine)
    requires e3.Bound(topic) == [op] && e3.Stage(topic).Polling? && topic !in e3.paused && e3.limits.batch >= 1
    requires op in e3.operators && !e3.operators[op] && op !in e3.workerQueues && e3.Logged(op) == []
    ensures Run(e3, LeavingEarly(op, topic, r)) == Some(e) && e.Logged(op) == [Handled(r, Some([]))]
  {
    var all := LeavingEarly(op, topic, r);
    var e6 := UnderWay(e3, op, topic, r);
    var e7 := e6.Deregistering(op);
    e := e7.FinishedInline(topic, false);
    assert e7.Routes(op) == [] && e7.Logged(op) == [];
    TraceRuns(all[3..], [e6, e7, e]);
    RunConcat(e3, all[..3], e6, all[3..]);
    assert all == all[..3] + all[3..];
  }

  /**
    For every operator, topic, output and record there is a run, clean but for the record under
    way, in which the record's output goes nowhere.
   */
  lemma InlineOutputLost(limits: Limits, op: string, topic: string, output: string, r: TopicRecord)
    returns (events: seq<Event>, e: Engine)
    requires limits.batch >= 1
    ensures Run(Empty(limits), events) == Some(e)
    ensures e.Logged(op) == [Handled(r, Some([]))]
    ensures NamesOutputs(events, op) && CleanlyRegistered(limits, events, op)
    ensures e.Logged(op) != IntendedLog(limits, events, op)
  {
    var first, second := Registering(op, false, topic, output), LeavingEarly(op, topic, r);
    var e3 := RegisteredInline(limits, op, topic, output);
    e := LeavesEarly(e3, op, topic, r);
    RunConcat(Empty(limits), first, e3, second);
    events := first + second;
    assert forall k :: 0 < k < |events| ==> !Registers(events[k], op);
    RegisteredOnceIsClean(limits, events, op);
    assert e.Logged(op)[0].sentTo == Some([]);
    LostIsNotIntended(limits, events, e, op);
  }

  lemma RegisteredOnceIsClean(limits: Limits, events: seq<Event>, op: string)
    requires forall k :: 0 < k < |events| ==> !Registers(events[k], op)
    ensures CleanlyRegistered(limits, events, op)
  {
    forall k: nat
      ensures !Overlaps(limits, events, op, k)
    {
      if k == 0 && events != [] {
        assert events[..k] == [];
      }
    }
  }

  lemma RegisteredInline(limits: Limits, op: string, topic: string, output: string) returns (e: Engine)
    ensures Run(Empty(limits), Registering(op, false, topic, output)) == Some(e)
    ensures e == Empty(limits).(operators := map[op := false], bindings := map[topic := [op]],
                                routes := map[op := [output]])
  {
    var e0 := Empty(limits);
    var s, s' := Starting(op, false, [topic]), Starting(op, false, []);
    var e1 := e0.Registered(op, false, [topic], [output]);
    var e2 := e1.BoundNext(s);
    e := e2.Started(s');
    assert [topic][1..] == [];
    assert [] + [op] == [op];
    assert e1.starting == multiset{s} && e2.starting == multiset{s'} && e.starting == multiset{};
    TraceRuns(Registering(op, false, topic, output), [e0, e1, e2, e]);
  }
}
