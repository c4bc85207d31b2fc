/**
  The four-phase migration protocol: drain, snapshot, restore, terminate.

  A migration is a coroutine that runs from one RPC to the next, so each method below is what
  happens between two awaits.  An RPC may answer, report an error, raise, or never come back.
 */
module Pctr {
  import opened Wrappers
  import opened Formatting

  const CLOUD := "cloud"

  datatype Phase = Drain | Snapshot | Restore | Terminate

  /** Where the coroutine stands; `Closed` means that its task has also left the active table. */
  datatype Stage =
    | Scheduled | AwaitingDrain | AwaitingSnapshot | AwaitingRestore | AwaitingTerminate | Finished | Closed

  datatype Reply =
    | DrainReply(offsetMap: Option<map<int, int>>)
    | SnapshotReply(objectKey: string, byteSize: int, errorMsg: string)
    | RestoreReply(restored: bool)
    | TerminateReply(success: bool, errorMsg: string)
    | Raised(message: string)

  /** The RPCs of a migration in the order the protocol prescribes. */
  const PROTOCOL := [Drain, Snapshot, Restore, Terminate]

  function MigrationId(n: nat): string {
    "migration-" + ZeroPadded(n, 4)
  }

  /** An id is the word "migration-" and the counter in decimal digits, at least four of them. */
  lemma MigrationIdIs(n: nat)
    ensures var id := MigrationId(n);
            && |id| >= 14 && id[..10] == "migration-"
            && IsNumber(id[10..]) && Formatting.Value(id[10..]) == n
  {
    PaddedIsNumber(n, 4);
    ValueOfPadded(n, 4);
    assert MigrationId(n)[10..] == ZeroPadded(n, 4);
  }

  /** The ids given out for different counter values differ, also beyond four digits. */
  lemma MigrationIdsDiffer(a: nat, b: nat)
    requires a != b
    ensures MigrationId(a) != MigrationId(b)
  {
    ValueOfPadded(a, 4);
    ValueOfPadded(b, 4);
    var prefix := "migration-";
    assert MigrationId(a)[|prefix|..] == ZeroPadded(a, 4);
    assert MigrationId(b)[|prefix|..] == ZeroPadded(b, 4);
  }

  /** A migration's record; `issued` lists the RPCs sent so far. */
  datatype Migration = Migration(id: string, operatorId: string, source: string, target: string,
                                 phase: Phase, drainOffsetMap: map<int, int>,
                                 snapshotObjectKey: Option<string>, snapshotSize: int,
                                 completed: bool, error: Option<string>,
                                 stage: Stage, issued: seq<Phase>) {

    static function Created(id: string, operatorId: string, source: string, target: string): Migration {
      Migration(id, operatorId, source, target, Drain, map[], None, 0, false, None, Scheduled, [])
    }

    function Failed(message: string): Migration {
      this.(error := Some(message), stage := Finished)
    }

    /** Enters a phase and sends its RPC to the source, if there is a client for it. */
    function SendToSource(heas: set<string>, next: Phase, waiting: Stage): Migration {
      if source in heas then this.(phase := next, issued := issued + [next], stage := waiting)
      else this.(phase := next).Failed("No HEA client for source tier: " + source)
    }

    /** Enters the restore phase; "cloud" goes to the Flink connector. */
    function SendToTarget(heas: set<string>): Migration {
      if target == CLOUD || target in heas then
        this.(phase := Restore, issued := issued + [Restore], stage := AwaitingRestore)
      else this.(phase := Restore).Failed("No HEA client for target tier: " + target)
    }

    function Begun(heas: set<string>): Migration {
      SendToSource(heas, Drain, AwaitingDrain)
    }

    /** `reply` can answer the RPC being awaited. */
    predicate Answers(reply: Reply) {
      match stage
      case AwaitingDrain => reply.DrainReply? || reply.Raised?
      case AwaitingSnapshot => reply.SnapshotReply? || reply.Raised?
      case AwaitingRestore => reply.RestoreReply? || reply.Raised?
      case AwaitingTerminate => reply.TerminateReply? || reply.Raised?
      case _ => false
    }

    function Resumed(heas: set<string>, reply: Reply): Migration
      requires Answers(reply)
    {
      match reply
      case Raised(message) => Failed(message)
      case DrainReply(offsets) =>
        this.(drainOffsetMap := if offsets.Some? then offsets.value else map[])
            .SendToSource(heas, Snapshot, AwaitingSnapshot)
      case SnapshotReply(key, size, errorMsg) =>
        if errorMsg != "" then Failed("Snapshot failed: " + errorMsg)
        else this.(snapshotObjectKey := Some(key), snapshotSize := size).SendToTarget(heas)
      case RestoreReply(_) => SendToSource(heas, Terminate, AwaitingTerminate)
      case TerminateReply(success, errorMsg) =>
        if !success then Failed("Termination failed: " + errorMsg)
        else this.(completed := true, stage := Finished)
    }

    function TimedOut(seconds: nat): Migration {
      Failed("Migration timed out after " + Digits(seconds) + "s")
    }

    /** The RPC being awaited is the last one sent. */
    predicate Awaiting() {
      stage.AwaitingDrain? || stage.AwaitingSnapshot? || stage.AwaitingRestore? || stage.AwaitingTerminate?
    }

    /** What every reachable record satisfies. */
    ghost predicate WellFormed(heas: set<string>) {
      && |issued| <= 4 && issued == PROTOCOL[..|issued|]
      && (issued != [] ==> source in heas)
      && (|issued| >= 3 ==> snapshotObjectKey.Some? && (target == CLOUD || target in heas))
      && (stage.Scheduled? ==> issued == [])
      && (stage.AwaitingDrain? ==> |issued| == 1)
      && (stage.AwaitingSnapshot? ==> |issued| == 2)
      && (stage.AwaitingRestore? ==> |issued| == 3)
      && (stage.AwaitingTerminate? ==> |issued| == 4)
      && (Awaiting() ==> phase == issued[|issued| - 1])
      && (stage.Scheduled? || Awaiting() ==> !completed && error.None?)
      && (completed ==> error.None? && |issued| == 4)
      && (stage.Finished? || stage.Closed? ==> (completed <==> error.None?))
    }
  }

  class PctrMigration {
    const migrationId: string
    const operatorId: string
    const sourceTier: string
    const targetTier: string
    const heas: set<string>
    var phase: Phase
    var drainOffsetMap: map<int, int>
    var snapshotObjectKey: Option<string>
    var snapshotSize: int
    var completed: bool
    var error: Option<string>
    var stage: Stage
    var issued: seq<Phase>

    function State(): Migration
      reads this
    {
      Migration(migrationId, operatorId, sourceTier, targetTier, phase, drainOffsetMap, snapshotObjectKey,
                snapshotSize, completed, error, stage, issued)
    }

    constructor (migrationId: string, operatorId: string, sourceTier: string, targetTier: string, heas: set<string>)
      ensures State() == Migration.Created(migrationId, operatorId, sourceTier, targetTier) && this.heas == heas
    {
      this.migrationId, this.operatorId, this.sourceTier, this.targetTier :=
        migrationId, operatorId, sourceTier, targetTier;
      this.heas := heas;
      phase, drainOffsetMap, snapshotObjectKey, snapshotSize := Drain, map[], None, 0;
      completed, error, stage, issued := false, None, Scheduled, [];
    }

    /** Phase 1 up to the drain RPC. */
    method Begin()
      requires stage.Scheduled?
      modifies this
      ensures State() == old(State()).Begun(heas)
    {
      CallSource(Drain, AwaitingDrain);
    }

    method CallSource(next: Phase, waiting: Stage)
      modifies this
      ensures State() == old(State()).SendToSource(heas, next, waiting)
    {
      phase := next;
      if sourceTier !in heas {
        Fail("No HEA client for source tier: " + sourceTier);
      } else {
        issued := issued + [next];
        stage := waiting;
      }
    }

    method Fail(message: string)
      modifies this
      ensures State() == old(State()).Failed(message)
    {
      error := Some(message);
      stage := Finished;
    }

    /** The awaited RPC came back: store what it returned and go on to the next one. */
    method Resume(reply: Reply)
      requires State().Answers(reply)
      modifies this
      ensures State() == old(State()).Resumed(heas, reply)
    {
      if reply.Raised? {
        Fail(reply.message);
        return;
      }
      if stage.AwaitingDrain? {
        drainOffsetMap := if reply.offsetMap.Some? then reply.offsetMap.value else map[];
        CallSource(Snapshot, AwaitingSnapshot);
      } else if stage.AwaitingSnapshot? {
        if reply.errorMsg != "" {
          Fail("Snapshot failed: " + reply.errorMsg);
          return;
        }
        snapshotObjectKey := Some(reply.objectKey);
        snapshotSize := reply.byteSize;
        phase := Restore;
        if targetTier == CLOUD || targetTier in heas {
          issued := issued + [Restore];
          stage := AwaitingRestore;
        } else {
          Fail("No HEA client for target tier: " + targetTier);
        }
      } else if stage.AwaitingRestore? {
        CallSource(Terminate, AwaitingTerminate);
      } else {
        if !reply.success {
          Fail("Termination failed: " + reply.errorMsg);
          return;
        }
        completed := true;
        stage := Finished;
      }
    }

    method TimeOut(seconds: nat)
      modifies this
      ensures State() == old(State()).TimedOut(seconds)
    {
      Fail("Migration timed out after " + Digits(seconds) + "s");
    }
  }

  class PctrOrchestrator {
    const heas: set<string>
    var active: map<string, PctrMigration>
    var counter: nat

    /** Every active migration is filed under its own operator, and ids are given out only once. */
    ghost predicate Valid()
      reads this
    {
      && (forall op :: op in active ==> active[op].operatorId == op)
      && (forall op :: op in active ==> exists n :: 1 <= n <= counter && active[op].migrationId == MigrationId(n))
      && (forall op, other :: op in active && other in active && op != other
                              ==> active[op].migrationId != active[other].migrationId)
    }

    constructor (heas: set<string>)
      ensures this.heas == heas && active == map[] && counter == 0 && Valid()
    {
      this.heas, active, counter := heas, map[], 0;
    }

    method MigrateOperator(op: string, sourceTier: string, targetTier: string)
      returns (r: Result<PctrMigration, string>)
      requires Valid()
      modifies this
      ensures Valid()
      ensures r.Failure? <==> op in old(active)
      ensures r.Failure? ==> active == old(active) && counter == old(counter)
                             && r.error == "Operator " + op + " is already being migrated"
      ensures r.Success? ==>
                && fresh(r.value) && r.value.heas == heas
                && counter == old(counter) + 1
                && r.value.State() == Migration.Created(MigrationId(counter), op, sourceTier, targetTier)
                && active == old(active)[op := r.value]
      ensures r.Success? ==> forall other :: other in old(active) ==>
          old(active)[other].migrationId != r.value.migrationId
    {
      if op in active {
        return Failure("Operator " + op + " is already being migrated");
      }
      counter := counter + 1;
      var migration := new PctrMigration(MigrationId(counter), op, sourceTier, targetTier, heas);
      forall other | other in active
        ensures active[other].migrationId != migration.migrationId
      {
        var n :| 1 <= n <= old(counter) && active[other].migrationId == MigrationId(n);
        MigrationIdsDiffer(n, counter);
      }
      active := active[op := migration];
      return Success(migration);
    }

    /** The task's `finally` clause. */
    method Close(migration: PctrMigration)
      requires Valid() && migration.operatorId in active && active[migration.operatorId] == migration
      modifies this
      ensures Valid() && counter == old(counter)
      ensures active == old(active) - {migration.operatorId}
      ensures forall op :: op in active ==> active[op] != migration
    {
      active := active - {migration.operatorId};
    }
  }
}
