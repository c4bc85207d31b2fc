/**
  All interleavings of concurrent migrations with each other and with the RPC servers.

  A run is a sequence of events; `Run` says what it leads to.  Servers may act on a request at
  any time after it was sent, whether or not the reply ever arrives.
 */
module PctrRuns {
  import opened Wrappers
  import opened Pctr

  /** One hosting of an operator: the one on a tier at the start, or the one a migration has restored. */
  datatype Incarnation = Original(op: string, tier: string) | RestoredBy(id: string)

  /**
    The orchestrator's tables and facts about the servers: which incarnation runs where, whose
    state is stored under which key, which requests have taken effect (`taken` with the key of
    the snapshot), and which migration ended an incarnation that runs no more.
   */
  datatype World = World(heas: set<string>, counter: nat, active: map<string, string>,
                         migrations: map<string, Migration>,
                         hosted: map<(string, string), Incarnation>, store: map<string, Incarnation>,
                         taken: map<string, string>, restored: set<string>, stopped: set<string>,
                         ended: map<Incarnation, string>)

  datatype Event =
    | Migrate(op: string, source: string, target: string)
    | Begin(id: string)
    | Answer(id: string, reply: Reply)
    | TimeOut(id: string, seconds: nat)
    | Close(id: string)
    | StoreSnapshot(id: string, key: string)
    | HostAtTarget(id: string)
    | StopAtSource(id: string)

  function Initial(heas: set<string>, hosted: set<(string, string)>): World {
    World(heas, 0, map[], map[], map p | p in hosted :: Original(p.0, p.1), map[], map[], {}, {}, map[])
  }

  predicate Sent(w: World, id: string, phase: Phase) {
    id in w.migrations && phase in w.migrations[id].issued
  }

  function SourceOf(m: Migration): (string, string) {
    (m.operatorId, m.source)
  }

  function TargetOf(m: Migration): (string, string) {
    (m.operatorId, m.target)
  }

  /** A success reply tells what has taken effect. */
  predicate Honest(w: World, id: string, reply: Reply)
    requires id in w.migrations
  {
    && (reply.SnapshotReply? && reply.errorMsg == "" ==> id in w.taken && w.taken[id] == reply.objectKey)
    && (reply.RestoreReply? ==> (reply.restored <==> id in w.restored))
    && (reply.TerminateReply? && reply.success ==> id in w.stopped)
  }

  /** Each request takes effect at most once, at any time after it was sent; a snapshot needs a running operator. */
  predicate Enabled(w: World, e: Event) {
    match e
    case Migrate(_, _, _) => true
    case Begin(id) => id in w.migrations && w.migrations[id].stage.Scheduled?
    case Answer(id, reply) => id in w.migrations && w.migrations[id].Answers(reply) && Honest(w, id, reply)
    case TimeOut(id, _) => id in w.migrations && !w.migrations[id].stage.Finished? && !w.migrations[id].stage.Closed?
    case Close(id) => id in w.migrations && w.migrations[id].stage.Finished?
    case StoreSnapshot(id, _) => Sent(w, id, Snapshot) && id !in w.taken && SourceOf(w.migrations[id]) in w.hosted
    case HostAtTarget(id) => Sent(w, id, Restore) && !Sent(w, id, Terminate) && id !in w.restored
    case StopAtSource(id) => Sent(w, id, Terminate) && id !in w.stopped
  }

  /** Whatever runs at `p` is ended by migration `id`. */
  function EndedAt(w: World, p: (string, string), id: string): map<Incarnation, string> {
    if p in w.hosted then w.ended[w.hosted[p] := id] else w.ended
  }

  function Update(w: World, id: string, m: Migration): World {
    w.(migrations := w.migrations[id := m])
  }

  function Next(w: World, e: Event): World
    requires Enabled(w, e)
  {
    match e
    case Migrate(op, source, target) =>
      if op in w.active then w
      else
        var id := MigrationId(w.counter + 1);
        w.(counter := w.counter + 1, active := w.active[op := id],
           migrations := w.migrations[id := Migration.Created(id, op, source, target)])
    case Begin(id) => Update(w, id, w.migrations[id].Begun(w.heas))
    case Answer(id, reply) => Update(w, id, w.migrations[id].Resumed(w.heas, reply))
    case TimeOut(id, seconds) => Update(w, id, w.migrations[id].TimedOut(seconds))
    case Close(id) =>
      Update(w, id, w.migrations[id].(stage := Closed)).(active := w.active - {w.migrations[id].operatorId})
    case StoreSnapshot(id, key) =>
      w.(store := w.store[key := w.hosted[SourceOf(w.migrations[id])]], taken := w.taken[id := key])
    case HostAtTarget(id) =>
      var p := TargetOf(w.migrations[id]);
      w.(hosted := w.hosted[p := RestoredBy(id)], restored := w.restored + {id}, ended := EndedAt(w, p, id))
    case StopAtSource(id) =>
      var p := SourceOf(w.migrations[id]);
      w.(hosted := w.hosted - {p}, stopped := w.stopped + {id}, ended := EndedAt(w, p, id))
  }

  /** The world after `events`, or `None` if they cannot happen in this order. */
  function Run(start: World, events: seq<Event>): Option<World>
    decreases |events|
  {
    if events == [] then Some(start)
    else
      match Run(start, events[..|events| - 1])
      case None => None
      case Some(w) => if Enabled(w, events[|events| - 1]) then Some(Next(w, events[|events| - 1])) else None
  }

  /** `w` is what the run `events` of an orchestrator that starts empty leads to. */
  ghost predicate Leads(heas: set<string>, hosted: set<(string, string)>, events: seq<Event>, w: World) {
    Run(Initial(heas, hosted), events) == Some(w)
  }

  lemma LastStep(heas: set<string>, hosted: set<(string, string)>, events: seq<Event>, w: World) returns (before: World)
    requires events != [] && Leads(heas, hosted, events, w)
    ensures Leads(heas, hosted, events[..|events| - 1], before)
    ensures Enabled(before, events[|events| - 1]) && w == Next(before, events[|events| - 1])
  {
    before := Run(Initial(heas, hosted), events[..|events| - 1]).value;
  }

  // ---- One active migration per operator ------------------------------------------------

  ghost predicate GivenOut(counter: nat, id: string) {
    exists n :: 1 <= n <= counter && id == MigrationId(n)
  }

  /** The orchestrator's table and the records agree with each other. */
  ghost predicate Filed(w: World) {
    && (forall op :: op in w.active ==>
          w.active[op] in w.migrations && w.migrations[w.active[op]].operatorId == op
          && !w.migrations[w.active[op]].stage.Closed?)
    && (forall id :: id in w.migrations && !w.migrations[id].stage.Closed? ==>
          w.migrations[id].operatorId in w.active && w.active[w.migrations[id].operatorId] == id)
  }

  ghost predicate Recorded(w: World) {
    forall id :: id in w.migrations ==>
      w.migrations[id].id == id && w.migrations[id].WellFormed(w.heas) && GivenOut(w.counter, id)
  }

  ghost predicate Orderly(w: World) {
    Filed(w) && Recorded(w)
  }

  lemma SentToSource(m: Migration, heas: set<string>, next: Phase, waiting: Stage)
    requires m.WellFormed(heas) && m.error.None? && !m.completed
    requires (next == Snapshot && waiting == AwaitingSnapshot && |m.issued| == 1)
          || (next == Terminate && waiting == AwaitingTerminate && |m.issued| == 3)
    ensures m.SendToSource(heas, next, waiting).WellFormed(heas)
  {
    assert PROTOCOL[..2] == PROTOCOL[..1] + [Snapshot] && PROTOCOL[..4] == PROTOCOL[..3] + [Terminate];
  }

  lemma SentToTarget(m: Migration, heas: set<string>, key: string, size: int)
    requires m.WellFormed(heas) && m.stage.AwaitingSnapshot?
    ensures m.(snapshotObjectKey := Some(key), snapshotSize := size).SendToTarget(heas).WellFormed(heas)
  {
    assert PROTOCOL[..3] == PROTOCOL[..2] + [Restore];
  }

  lemma FailedWellFormed(m: Migration, heas: set<string>, message: string)
    requires m.WellFormed(heas) && m.Awaiting()
    ensures m.Failed(message).WellFormed(heas)
  {
  }

  lemma ResumedWellFormed(m: Migration, heas: set<string>, reply: Reply)
    requires m.WellFormed(heas) && m.Answers(reply)
    ensures m.Resumed(heas, reply).WellFormed(heas)
    ensures m.Resumed(heas, reply).id == m.id && m.Resumed(heas, reply).operatorId == m.operatorId
    ensures !m.Resumed(heas, reply).stage.Closed?
  {
    match reply
    case Raised(message) => FailedWellFormed(m, heas, message);
    case DrainReply(offsets) =>
      SentToSource(m.(drainOffsetMap := if offsets.Some? then offsets.value else map[]), heas, Snapshot,
                   AwaitingSnapshot);
    case SnapshotReply(key, size, errorMsg) =>
      if errorMsg != "" {
        FailedWellFormed(m, heas, "Snapshot failed: " + errorMsg);
      } else {
        SentToTarget(m, heas, key, size);
      }
    case RestoreReply(_) => SentToSource(m, heas, Terminate, AwaitingTerminate);
    case TerminateReply(success, errorMsg) =>
      if !success {
        FailedWellFormed(m, heas, "Termination failed: " + errorMsg);
      }
  }

  ghost predicate NextIdFresh(w: World) {
    MigrationId(w.counter + 1) !in w.migrations
  }

  lemma FreshId(w: World)
    requires Recorded(w)
    ensures NextIdFresh(w)
  {
    var id := MigrationId(w.counter + 1);
    if id in w.migrations {
      assert GivenOut(w.counter, id);
      var n :| 1 <= n <= w.counter && id == MigrationId(n);
      MigrationIdsDiffer(n, w.counter + 1);
    }
  }

  lemma OrderlyUpdate(w: World, id: string, m: Migration)
    requires Orderly(w) && id in w.migrations && !w.migrations[id].stage.Closed?
    requires m.id == id && m.operatorId == w.migrations[id].operatorId && m.WellFormed(w.heas) && !m.stage.Closed?
    ensures Orderly(Update(w, id, m))
  {
  }

  lemma FiledMigrate(w: World, op: string, source: string, target: string)
    requires Filed(w) && NextIdFresh(w) && op !in w.active
    ensures Filed(Next(w, Migrate(op, source, target)))
  {
  }

  lemma RecordedMigrate(w: World, op: string, source: string, target: string)
    requires Recorded(w) && NextIdFresh(w) && op !in w.active
    ensures Recorded(Next(w, Migrate(op, source, target)))
  {
    var w' := Next(w, Migrate(op, source, target));
    var given := MigrationId(w.counter + 1);
    assert GivenOut(w'.counter, given);
    forall id | id in w.migrations
      ensures GivenOut(w'.counter, id)
    {
      assert GivenOut(w.counter, id);
    }
    forall id | id in w'.migrations
      ensures w'.migrations[id].id == id && w'.migrations[id].WellFormed(w'.heas) && GivenOut(w'.counter, id)
    {
      assert id == given || w'.migrations[id] == w.migrations[id];
    }
  }

  lemma OrderlyMigrate(w: World, op: string, source: string, target: string)
    requires Orderly(w) && op !in w.active
    ensures Orderly(Next(w, Migrate(op, source, target)))
  {
    FreshId(w);
    FiledMigrate(w, op, source, target);
    RecordedMigrate(w, op, source, target);
  }

  lemma FiledClose(w: World, id: string)
    requires Filed(w) && Enabled(w, Close(id))
    ensures Filed(Next(w, Close(id)))
  {
  }

  lemma RecordedClose(w: World, id: string)
    requires Recorded(w) && Enabled(w, Close(id))
    ensures Recorded(Next(w, Close(id)))
  {
  }

  lemma SentWellFormed(m: Migration, heas: set<string>, seconds: nat)
    requires m.WellFormed(heas) && !m.stage.Closed?
    ensures m.stage.Scheduled? ==> m.Begun(heas).WellFormed(heas)
    ensures !m.stage.Finished? ==> m.TimedOut(seconds).WellFormed(heas)
  {
  }

  /** What the servers do leaves the orchestrator's books alone. */
  lemma OrderlyServer(w: World, e: Event)
    requires Orderly(w) && Enabled(w, e) && (e.StoreSnapshot? || e.HostAtTarget? || e.StopAtSource?)
    ensures Orderly(Next(w, e)) && Next(w, e).heas == w.heas
  {
  }

  lemma OrderlyStep(w: World, e: Event)
    requires Orderly(w) && Enabled(w, e)
    ensures Orderly(Next(w, e)) && Next(w, e).heas == w.heas
  {
    match e
    case Migrate(op, source, target) =>
      if op !in w.active {
        OrderlyMigrate(w, op, source, target);
      }
    case Begin(id) =>
      SentWellFormed(w.migrations[id], w.heas, 0);
      OrderlyUpdate(w, id, w.migrations[id].Begun(w.heas));
    case Answer(id, reply) =>
      ResumedWellFormed(w.migrations[id], w.heas, reply);
      OrderlyUpdate(w, id, w.migrations[id].Resumed(w.heas, reply));
    case TimeOut(id, seconds) =>
      SentWellFormed(w.migrations[id], w.heas, seconds);
      OrderlyUpdate(w, id, w.migrations[id].TimedOut(seconds));
    case Close(id) =>
      FiledClose(w, id);
      RecordedClose(w, id);
    case _ =>
      OrderlyServer(w, e);
  }

  lemma {:induction false} AlwaysOrderly(heas: set<string>, hosted: set<(string, string)>, events: seq<Event>, w: World)
    requires Leads(heas, hosted, events, w)
    ensures Orderly(w) && w.heas == heas
    decreases |events|
  {
    if events != [] {
      var before := LastStep(heas, hosted, events, w);
      AlwaysOrderly(heas, hosted, events[..|events| - 1], before);
      OrderlyStep(before, events[|events| - 1]);
    }
  }

  /** In every interleaving an operator has at most one migration that has not been closed. */
  lemma OneActiveMigrationPerOperator(heas: set<string>, hosted: set<(string, string)>, events: seq<Event>, w: World,
                                      a: string, b: string)
    requires Leads(heas, hosted, events, w)
    requires a in w.migrations && !w.migrations[a].stage.Closed?
    requires b in w.migrations && !w.migrations[b].stage.Closed?
    requires w.migrations[a].operatorId == w.migrations[b].operatorId
    ensures a == b && w.migrations[a].operatorId in w.active && w.active[w.migrations[a].operatorId] == a
  {
    AlwaysOrderly(heas, hosted, events, w);
  }

  /** The final `pop` removes exactly the migration that is closing. */
  lemma CloseRemovesItself(heas: set<string>, hosted: set<(string, string)>, events: seq<Event>, w: World, id: string)
    requires Leads(heas, hosted, events, w) && Enabled(w, Close(id))
    ensures var op := w.migrations[id].operatorId;
            && op in w.active && w.active[op] == id
            && Next(w, Close(id)).active == (map o | o in w.active && o != op :: w.active[o])
            && forall o :: o in Next(w, Close(id)).active ==> Next(w, Close(id)).active[o] != id
  {
    AlwaysOrderly(heas, hosted, events, w);
  }

  /** A migration request gets an id no earlier migration of the run had, or is turned down. */
  lemma RequestsGetNewIds(heas: set<string>, hosted: set<(string, string)>, events: seq<Event>, w: World,
                          op: string, source: string, target: string)
    requires Leads(heas, hosted, events, w)
    ensures var w' := Next(w, Migrate(op, source, target));
            if op in w.active then w' == w
            else && w'.active[op] !in w.migrations
                 && w'.migrations.Keys == w.migrations.Keys + {w'.active[op]}
                 && forall id :: id in w.migrations ==> w'.migrations[id] == w.migrations[id]
  {
    AlwaysOrderly(heas, hosted, events, w);
    FreshId(w);
    if op !in w.active {
      NewMigration(w, op, source, target);
    }
  }

  lemma NewMigration(w: World, op: string, source: string, target: string)
    requires NextIdFresh(w) && op !in w.active
    ensures var w' := Next(w, Migrate(op, source, target));
            && w'.active[op] == MigrationId(w.counter + 1)
            && w'.migrations.Keys == w.migrations.Keys + {w'.active[op]}
            && forall id :: id in w.migrations ==> w'.migrations[id] == w.migrations[id]
  {
  }

  // ---- Phase order ---------------------------------------------------------------------------

  /** The RPCs of every migration are a prefix of the protocol, and completion excludes an error. */
  lemma PhasesInOrder(heas: set<string>, hosted: set<(string, string)>, events: seq<Event>, w: World, id: string)
    requires Leads(heas, hosted, events, w) && id in w.migrations
    ensures var m := w.migrations[id];
            && m.issued <= PROTOCOL
            && (m.completed ==> m.error.None? && m.issued == PROTOCOL)
            && (m.stage.Closed? ==> (m.completed <==> m.error.None?))
            && (m.source !in heas ==> m.issued == [])
  {
    AlwaysOrderly(heas, hosted, events, w);
  }

  /** The answer `reply` to migration `id` is among the first `n` events. */
  ghost predicate Answered(events: seq<Event>, n: nat, id: string, reply: Reply) {
    exists i :: 0 <= i < n && i < |events| && events[i] == Answer(id, reply)
  }

  /** An error-free snapshot reply with object key `key` is among the first `n` events. */
  ghost predicate SnapshotConfirmed(events: seq<Event>, n: nat, id: string, key: Option<string>) {
    key.Some? && exists size: int :: Answered(events, n, id, SnapshotReply(key.value, size, ""))
  }

  /** Event `j` is the restore reply `outcome`, preceded by the snapshot reply that named `key`. */
  ghost predicate RestoredAt(events: seq<Event>, j: nat, id: string, key: Option<string>, outcome: bool) {
    j < |events| && events[j] == Answer(id, RestoreReply(outcome)) && SnapshotConfirmed(events, j, id, key)
  }

  ghost predicate Confirmed(events: seq<Event>, id: string) {
    exists msg: string :: Answered(events, |events|, id, TerminateReply(true, msg))
  }

  /**
    The replies that must have arrived for migration `m` to have sent what it sent; `restored`
    says whether its restore took effect.
   */
  ghost predicate Justified(events: seq<Event>, m: Migration, restored: bool) {
    && (|m.issued| >= 3 ==> SnapshotConfirmed(events, |events|, m.id, m.snapshotObjectKey))
    && (|m.issued| >= 4 ==> exists j: nat :: RestoredAt(events, j, m.id, m.snapshotObjectKey, restored))
    && (m.completed ==> Confirmed(events, m.id))
  }

  lemma AnsweredLater(events: seq<Event>, e: Event, n: nat, id: string, reply: Reply)
    requires Answered(events, n, id, reply) && n <= |events|
    ensures Answered(events + [e], n, id, reply)
    ensures Answered(events + [e], |events + [e]|, id, reply)
  {
    var i :| 0 <= i < n && i < |events| && events[i] == Answer(id, reply);
    assert (events + [e])[i] == Answer(id, reply);
  }

  lemma SnapshotConfirmedLater(events: seq<Event>, e: Event, n: nat, id: string, key: Option<string>)
    requires SnapshotConfirmed(events, n, id, key) && n <= |events|
    ensures SnapshotConfirmed(events + [e], n, id, key)
    ensures SnapshotConfirmed(events + [e], |events + [e]|, id, key)
  {
    var size: int :| Answered(events, n, id, SnapshotReply(key.value, size, ""));
    AnsweredLater(events, e, n, id, SnapshotReply(key.value, size, ""));
  }

  /** Later events do not take away what justified the RPCs sent so far. */
  lemma JustifiedLater(events: seq<Event>, e: Event, m: Migration, restored: bool)
    requires Justified(events, m, restored)
    ensures Justified(events + [e], m, restored)
  {
    if |m.issued| >= 3 {
      SnapshotConfirmedLater(events, e, |events|, m.id, m.snapshotObjectKey);
    }
    if |m.issued| >= 4 {
      var j: nat :| RestoredAt(events, j, m.id, m.snapshotObjectKey, restored);
      SnapshotConfirmedLater(events, e, j, m.id, m.snapshotObjectKey);
      assert RestoredAt(events + [e], j, m.id, m.snapshotObjectKey, restored);
    }
    if m.completed {
      var msg: string :| Answered(events, |events|, m.id, TerminateReply(true, msg));
      AnsweredLater(events, e, |events|, m.id, TerminateReply(true, msg));
    }
  }

  lemma JustifiedAnswer(events: seq<Event>, m: Migration, heas: set<string>, reply: Reply, restored: bool)
    requires m.WellFormed(heas) && m.Answers(reply) && Justified(events, m, restored)
    requires reply.RestoreReply? ==> reply.restored == restored
    ensures Justified(events + [Answer(m.id, reply)], m.Resumed(heas, reply), restored)
  {
    var e := Answer(m.id, reply);
    var es := events + [e];
    JustifiedLater(events, e, m, restored);
    assert es[|events|] == e;
    match reply
    case SnapshotReply(key, size, errorMsg) =>
      if errorMsg == "" {
        assert Answered(es, |es|, m.id, SnapshotReply(key, size, ""));
      }
    case RestoreReply(b) =>
      SnapshotConfirmedLater(events, e, |events|, m.id, m.snapshotObjectKey);
      assert RestoredAt(es, |events|, m.id, m.snapshotObjectKey, restored);
    case TerminateReply(success, msg) =>
      if success {
        assert Answered(es, |es|, m.id, TerminateReply(true, msg));
      }
    case _ =>
  }

  lemma JustifiedStep(events: seq<Event>, w: World, e: Event, id: string)
    requires NextIdFresh(w) && Enabled(w, e) && id in Next(w, e).migrations
    requires id in w.migrations ==> w.migrations[id].id == id && w.migrations[id].WellFormed(w.heas)
    requires id in w.migrations ==> Justified(events, w.migrations[id], id in w.restored)
    ensures Justified(events + [e], Next(w, e).migrations[id], id in Next(w, e).restored)
  {
    if id in w.migrations {
      JustifiedLater(events, e, w.migrations[id], id in w.restored);
      if e.Answer? && e.id == id {
        JustifiedAnswer(events, w.migrations[id], w.heas, e.reply, id in w.restored);
      }
      FourthIsTerminate(w.migrations[id], w.heas);
    }
  }

  lemma {:induction false} AlwaysJustified(heas: set<string>, hosted: set<(string, string)>, events: seq<Event>,
                                           w: World, id: string)
    requires Leads(heas, hosted, events, w) && id in w.migrations
    ensures Justified(events, w.migrations[id], id in w.restored)
    decreases |events|
  {
    if events != [] {
      var init, e := events[..|events| - 1], events[|events| - 1];
      var before := LastStep(heas, hosted, events, w);
      assert events == init + [e];
      AlwaysOrderly(heas, hosted, init, before);
      FreshId(before);
      if id in before.migrations {
        AlwaysJustified(heas, hosted, init, before, id);
      }
      JustifiedStep(init, before, e, id);
    }
  }

  /**
    Terminate is sent to the source only after an error-free snapshot reply and, later, a restore
    reply; completion also needs the source's confirmation.  The restore reply tells whether
    the target has the operator, and nothing else does: the protocol goes on either way.
   */
  lemma TerminateComesLast(heas: set<string>, hosted: set<(string, string)>, events: seq<Event>, w: World, id: string)
    requires Leads(heas, hosted, events, w) && Sent(w, id, Terminate)
    ensures exists j: nat :: RestoredAt(events, j, id, w.migrations[id].snapshotObjectKey, id in w.restored)
    ensures w.migrations[id].completed ==> Confirmed(events, id)
  {
    AlwaysOrderly(heas, hosted, events, w);
    AlwaysJustified(heas, hosted, events, w, id);
    TerminateIsFourth(w.migrations[id], heas);
  }

  lemma FourthIsTerminate(m: Migration, heas: set<string>)
    requires m.WellFormed(heas)
    ensures |m.issued| >= 4 ==> Terminate in m.issued
  {
    if |m.issued| >= 4 {
      assert m.issued[3] == Terminate;
    }
  }

  lemma TerminateIsFourth(m: Migration, heas: set<string>)
    requires m.WellFormed(heas) && Terminate in m.issued
    ensures |m.issued| == 4
  {
  }

}
