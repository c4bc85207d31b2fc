/** Runs that end badly: an unnoticed failed restore, and a terminate that arrives too late. */
module PctrLosses {
  import opened Wrappers
  import opened Pctr
  import opened PctrRuns
  import opened PctrSurvival

  /** A run so far. */
  datatype Tape = Tape(heas: set<string>, hosted: set<(string, string)>, events: seq<Event>, w: World) {

    ghost predicate Valid() {
      Leads(heas, hosted, events, w)
    }

    function Then(e: Event): Tape
      requires Enabled(w, e)
    {
      Tape(heas, hosted, events + [e], Next(w, e))
    }

    lemma ThenValid(e: Event)
      requires Valid() && Enabled(w, e)
      ensures Then(e).Valid()
    {
      assert (events + [e])[..|events|] == events;
    }
  }

  /** The migration once its snapshot request is out. */
  function AwaitingIts(id: string, op: string, source: string, target: string): Migration {
    Migration.Created(id, op, source, target)
      .(phase := Snapshot, issued := [Drain, Snapshot], stage := AwaitingSnapshot)
  }

  /** The migration once its terminate request is out. */
  function AwaitingEnd(id: string, op: string, source: string, target: string, key: string): Migration {
    Migration.Created(id, op, source, target)
      .(phase := Terminate, issued := PROTOCOL, stage := AwaitingTerminate, snapshotObjectKey := Some(key))
  }

  /** A new migration gets as far as its snapshot request. */
  lemma Opens(t: Tape, op: string, source: string, target: string) returns (t': Tape)
    requires t.Valid() && op !in t.w.active && source in t.w.heas
    ensures t'.Valid() && t'.heas == t.heas && t'.hosted == t.hosted
    ensures var id := MigrationId(t.w.counter + 1);
            t'.w == t.w.(counter := t.w.counter + 1, active := t.w.active[op := id],
                         migrations := t.w.migrations[id := AwaitingIts(id, op, source, target)])
  {
    var id := MigrationId(t.w.counter + 1);
    t.ThenValid(Migrate(op, source, target));
    var t1 := t.Then(Migrate(op, source, target));
    t' := SendsSnapshotRequest(t1, id, op, source, target);
    assert t1.w.migrations[id := AwaitingIts(id, op, source, target)]
        == t.w.migrations[id := AwaitingIts(id, op, source, target)];
  }

  lemma SendsSnapshotRequest(t: Tape, id: string, op: string, source: string, target: string) returns (t': Tape)
    requires t.Valid() && id in t.w.migrations && source in t.w.heas
    requires t.w.migrations[id] == Migration.Created(id, op, source, target)
    ensures t'.Valid() && t'.heas == t.heas && t'.hosted == t.hosted
    ensures t'.w == Update(t.w, id, AwaitingIts(id, op, source, target))
  {
    t.ThenValid(Begin(id));
    var t1 := t.Then(Begin(id));
    t1.ThenValid(Answer(id, DrainReply(None)));
    t' := t1.Then(Answer(id, DrainReply(None)));
    assert [] + [Drain] + [Snapshot] == [Drain, Snapshot];
    assert t1.w.migrations[id := AwaitingIts(id, op, source, target)]
        == t.w.migrations[id := AwaitingIts(id, op, source, target)];
  }

  /** The snapshot is stored and confirmed: the restore request goes out. */
  lemma Snapshots(t: Tape, id: string, op: string, source: string, target: string, key: string) returns (t': Tape)
    requires t.Valid() && id in t.w.migrations && t.w.migrations[id] == AwaitingIts(id, op, source, target)
    requires (op, source) in t.w.hosted && id !in t.w.taken && (target == CLOUD || target in t.w.heas)
    ensures t'.Valid() && t'.heas == t.heas && t'.hosted == t.hosted
    ensures t'.w == t.w.(store := t.w.store[key := t.w.hosted[(op, source)]], taken := t.w.taken[id := key],
                         migrations := t.w.migrations[id := AwaitingIts(id, op, source, target)
                           .(phase := Restore, issued := [Drain, Snapshot, Restore], stage := AwaitingRestore,
                             snapshotObjectKey := Some(key))])
  {
    assert t.w.migrations[id].issued[1] == Snapshot;
    t.ThenValid(StoreSnapshot(id, key));
    var t1 := t.Then(StoreSnapshot(id, key));
    t1.ThenValid(Answer(id, SnapshotReply(key, 0, "")));
    t' := t1.Then(Answer(id, SnapshotReply(key, 0, "")));
    assert [Drain, Snapshot] + [Restore] == [Drain, Snapshot, Restore];
  }

  /** The restore takes effect and is confirmed: the terminate request goes out. */
  lemma Restores(t: Tape, id: string, op: string, source: string, target: string, key: string) returns (t': Tape)
    requires t.Valid() && id in t.w.migrations && id !in t.w.restored && source in t.w.heas
    requires t.w.migrations[id] == AwaitingIts(id, op, source, target)
               .(phase := Restore, issued := [Drain, Snapshot, Restore], stage := AwaitingRestore,
                 snapshotObjectKey := Some(key))
    ensures t'.Valid() && t'.heas == t.heas && t'.hosted == t.hosted
    ensures t'.w == t.w.(hosted := t.w.hosted[(op, target) := RestoredBy(id)], restored := t.w.restored + {id},
                         ended := EndedAt(t.w, (op, target), id),
                         migrations := t.w.migrations[id := AwaitingEnd(id, op, source, target, key)])
  {
    assert t.w.migrations[id].issued[2] == Restore;
    t.ThenValid(HostAtTarget(id));
    var t1 := t.Then(HostAtTarget(id));
    t1.ThenValid(Answer(id, RestoreReply(true)));
    t' := t1.Then(Answer(id, RestoreReply(true)));
    assert t'.w.migrations[id].issued == PROTOCOL;
  }

  /** The terminate takes effect and is confirmed, and the migration is closed. */
  lemma Completes(t: Tape, id: string, op: string, source: string, target: string, key: string) returns (t': Tape)
    requires t.Valid() && id in t.w.migrations && id !in t.w.stopped
    requires t.w.migrations[id] == AwaitingEnd(id, op, source, target, key)
    ensures t'.Valid() && t'.heas == t.heas && t'.hosted == t.hosted
    ensures t'.w == t.w.(hosted := t.w.hosted - {(op, source)}, stopped := t.w.stopped + {id},
                         ended := EndedAt(t.w, (op, source), id), active := t.w.active - {op},
                         migrations := t.w.migrations[id := AwaitingEnd(id, op, source, target, key)
                           .(completed := true, stage := Closed)])
  {
    assert t.w.migrations[id].issued[3] == Terminate;
    t.ThenValid(StopAtSource(id));
    var t1 := t.Then(StopAtSource(id));
    t1.ThenValid(Answer(id, TerminateReply(true, "")));
    var t2 := t1.Then(Answer(id, TerminateReply(true, "")));
    t2.ThenValid(Close(id));
    t' := t2.Then(Close(id));
  }

  /** The orchestrator gives up waiting, and the migration is closed. */
  lemma GivesUp(t: Tape, id: string, op: string, source: string, target: string, key: string) returns (t': Tape)
    requires t.Valid() && id in t.w.migrations && t.w.migrations[id] == AwaitingEnd(id, op, source, target, key)
    ensures t'.Valid() && t'.heas == t.heas && t'.hosted == t.hosted
    ensures t'.w == t.w.(active := t.w.active - {op},
                         migrations := t.w.migrations[id := AwaitingEnd(id, op, source, target, key)
                           .TimedOut(0).(stage := Closed)])
  {
    t.ThenValid(TimeOut(id, 0));
    var t1 := t.Then(TimeOut(id, 0));
    t1.ThenValid(Close(id));
    t' := t1.Then(Close(id));
  }

  /** A migration up to its terminate request. */
  lemma UpToTerminate(t: Tape, op: string, source: string, target: string, key: string) returns (t': Tape)
    requires t.Valid() && op !in t.w.active && source in t.w.heas && target in t.w.heas && source != target
    requires (op, source) in t.w.hosted
    ensures t'.Valid() && t'.heas == t.heas && t'.hosted == t.hosted
    ensures var id := MigrationId(t.w.counter + 1);
            t'.w == t.w.(counter := t.w.counter + 1, active := t.w.active[op := id],
                         migrations := t.w.migrations[id := AwaitingEnd(id, op, source, target, key)],
                         store := t.w.store[key := t.w.hosted[(op, source)]], taken := t.w.taken[id := key],
                         hosted := t.w.hosted[(op, target) := RestoredBy(id)], restored := t.w.restored + {id},
                         ended := EndedAt(t.w, (op, target), id))
  {
    var id := MigrationId(t.w.counter + 1);
    NewRequests(t);
    var t1 := Opens(t, op, source, target);
    var t2 := Snapshots(t1, id, op, source, target, key);
    t' := Restores(t2, id, op, source, target, key);
  }

  /** The next migration's id has not been used in any request. */
  lemma NewRequests(t: Tape)
    requires t.Valid()
    ensures var id := MigrationId(t.w.counter + 1);
            id !in t.w.migrations && id !in t.w.taken && id !in t.w.restored && id !in t.w.stopped
  {
    AlwaysTidy(t.heas, t.hosted, t.events, t.w);
    FreshId(t.w);
    RequestsAreKnown(t.heas, t.hosted, t.events, t.w);
  }

  lemma {:induction false} RequestsAreKnown(heas: set<string>, hosted: set<(string, string)>, events: seq<Event>,
                                            w: World)
    requires Leads(heas, hosted, events, w)
    ensures w.restored <= w.migrations.Keys && w.stopped <= w.migrations.Keys
    decreases |events|
  {
    if events != [] {
      var before := LastStep(heas, hosted, events, w);
      RequestsAreKnown(heas, hosted, events[..|events| - 1], before);
    }
  }

  /** The state of incarnation `i` is stored under no key at all. */
  ghost predicate Unstored(w: World, i: Incarnation) {
    forall key :: key in w.store ==> w.store[key] != i
  }

  /**
    A terminate that arrives after its migration was given up loses the state of an operator that
    has come back: for every operator, tiers and keys there is a run in which the operator moves
    from `a` to `b`, the orchestrator gives up waiting for the terminate at `a`, the operator
    moves back to `a` without any error, and only then the first terminate takes effect.  No tier
    hosts the operator any more, no migration is active, and what it did since is stored nowhere.
   */
  lemma LateTerminateLosesState(op: string, a: string, b: string, key: string, key': string) returns (t: Tape)
    requires a != b && key != key'
    ensures t.Valid() && t.heas == {a, b} && t.hosted == {(op, a)}
    ensures t.w.hosted == map[] && t.w.active == map[]
    ensures var back := RestoredBy(MigrationId(2));
            EverHosted(t.heas, t.hosted, t.events, back) && Unstored(t.w, back) && !Survives(t.w, back)
    ensures MigrationId(2) in t.w.migrations && t.w.migrations[MigrationId(2)].completed
  {
    var t3 := BackAgain(op, a, b, key, key');
    var one, two := MigrationId(1), MigrationId(2);
    var t4 := Completes(t3, two, op, b, a, key');
    assert t4.w.hosted == map[(op, a) := RestoredBy(two)];
    assert t4.w.migrations[one].issued[3] == Terminate;
    t4.ThenValid(StopAtSource(one));
    t := t4.Then(StopAtSource(one));
    assert Live(t4.w, RestoredBy(two));
    HostedNow(t4.heas, t4.hosted, t4.events, t4.w, RestoredBy(two));
    assert t.events[..|t4.events|] == t4.events;
    EverHostedLater(t.heas, t.hosted, t.events, |t4.events|, RestoredBy(two));
  }

  /**
    Giving up between restore and terminate leaves the operator on both tiers: for every operator,
    tiers and key there is a run that ends so, with its only migration failed and closed.
   */
  lemma StaysOnTwoTiers(op: string, a: string, b: string, key: string) returns (t: Tape)
    requires a != b
    ensures t.Valid() && t.heas == {a, b} && t.hosted == {(op, a)}
    ensures t.w.hosted == map[(op, a) := Original(op, a), (op, b) := RestoredBy(MigrationId(1))]
    ensures t.w.active == map[] && t.w.migrations.Keys == {MigrationId(1)}
    ensures t.w.migrations[MigrationId(1)].stage.Closed? && t.w.migrations[MigrationId(1)].error.Some?
  {
    var t0 := Tape({a, b}, {(op, a)}, [], Initial({a, b}, {(op, a)}));
    var t1 := UpToTerminate(t0, op, a, b, key);
    t := GivesUp(t1, MigrationId(1), op, a, b, key);
  }

  /** The first migration was given up before its terminate took effect; the second one is about to end. */
  lemma BackAgain(op: string, a: string, b: string, key: string, key': string) returns (t: Tape)
    requires a != b && key != key'
    ensures t.Valid() && t.heas == {a, b} && t.hosted == {(op, a)}
    ensures MigrationId(1) != MigrationId(2)
    ensures MigrationId(1) in t.w.migrations
         && t.w.migrations[MigrationId(1)] == AwaitingEnd(MigrationId(1), op, a, b, key).TimedOut(0).(stage := Closed)
    ensures MigrationId(2) in t.w.migrations
         && t.w.migrations[MigrationId(2)] == AwaitingEnd(MigrationId(2), op, b, a, key')
    ensures t.w.stopped == {} && t.w.active == map[op := MigrationId(2)]
    ensures t.w.hosted == map[(op, a) := RestoredBy(MigrationId(2)), (op, b) := RestoredBy(MigrationId(1))]
    ensures t.w.store == map[key := Original(op, a), key' := RestoredBy(MigrationId(1))]
  {
    MigrationIdsDiffer(1, 2);
    var t0 := Tape({a, b}, {(op, a)}, [], Initial({a, b}, {(op, a)}));
    var t1 := UpToTerminate(t0, op, a, b, key);
    var t2 := GivesUp(t1, MigrationId(1), op, a, b, key);
    t := UpToTerminate(t2, op, b, a, key');
  }

  /**
    The phases do not look at the restore reply's success flag: for every operator, source and
    key there is a run that completes without error although nobody hosts the operator any more.
   */
  lemma CompletesWithoutRestore(op: string, source: string, key: string) returns (t: Tape)
    ensures t.Valid() && t.heas == {source} && t.hosted == {(op, source)}
    ensures MigrationId(1) in t.w.migrations && t.w.migrations[MigrationId(1)].operatorId == op
    ensures t.w.migrations[MigrationId(1)].completed && t.w.migrations[MigrationId(1)].error == None
    ensures t.w.hosted == map[] && t.w.restored == {}
  {
    var id := MigrationId(1);
    var t0 := Tape({source}, {(op, source)}, [], Initial({source}, {(op, source)}));
    var t1 := Opens(t0, op, source, CLOUD);
    var t2 := Snapshots(t1, id, op, source, CLOUD, key);
    t2.ThenValid(Answer(id, RestoreReply(false)));
    var t3 := t2.Then(Answer(id, RestoreReply(false)));
    assert t3.w.migrations[id].issued == PROTOCOL;
    t := Completes(t3, id, op, source, CLOUD, key);
  }
}
