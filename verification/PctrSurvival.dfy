/**
  What becomes of an operator's state.  Every hosting of an operator is an incarnation of its
  own; an incarnation that runs no more should be held in the object store under the snapshot
  key of the migration that ended it.
 */
module PctrSurvival {
  import opened Wrappers
  import opened Pctr
  import opened PctrRuns

  ghost predicate Live(w: World, i: Incarnation) {
    exists p :: p in w.hosted && w.hosted[p] == i
  }

  function KeyOf(w: World, id: string): Option<string> {
    if id in w.migrations then w.migrations[id].snapshotObjectKey else None
  }

  /** The state of incarnation `i` is stored under the snapshot key of migration `id`. */
  predicate Backed(w: World, i: Incarnation, id: string) {
    KeyOf(w, id).Some? && KeyOf(w, id).value in w.store && w.store[KeyOf(w, id).value] == i
  }

  /** The incarnation runs, or is held under the snapshot key of the migration that ended it. */
  ghost predicate Survives(w: World, i: Incarnation) {
    Live(w, i) || (i in w.ended && Backed(w, i, w.ended[i]))
  }

  /**
    The step loses a state: a terminate or a restore puts an end to an incarnation whose state
    its migration's snapshot does not hold, or a snapshot is written over one that is relied on.
   */
  predicate Loses(w: World, e: Event) {
    match e
    case StopAtSource(id) =>
      id in w.migrations && SourceOf(w.migrations[id]) in w.hosted
      && !Backed(w, w.hosted[SourceOf(w.migrations[id])], id)
    case HostAtTarget(id) =>
      id in w.migrations && TargetOf(w.migrations[id]) in w.hosted
      && !Backed(w, w.hosted[TargetOf(w.migrations[id])], id)
    case StoreSnapshot(_, key) =>
      key in w.store && w.store[key] in w.ended && KeyOf(w, w.ended[w.store[key]]) == Some(key)
    case _ => false
  }

  // ---- Bookkeeping ----------------------------------------------------------------------------------

  /** No incarnation runs twice or again after its end. */
  ghost predicate OnePlace(w: World) {
    && (forall p, q :: p in w.hosted && q in w.hosted && w.hosted[p] == w.hosted[q] ==> p == q)
    && (forall p :: p in w.hosted ==> w.hosted[p] !in w.ended)
    && (forall p :: p in w.hosted && w.hosted[p].RestoredBy? ==> w.hosted[p].id in w.restored)
    && (forall i :: i in w.ended && i.RestoredBy? ==> i.id in w.restored)
  }

  /** The keys that migrations were told are those their snapshots were stored under. */
  ghost predicate KeysKnown(w: World) {
    && (forall id :: id in w.taken ==> id in w.migrations && w.taken[id] in w.store)
    && (forall id :: KeyOf(w, id).Some? ==> id in w.taken && w.taken[id] == KeyOf(w, id).value)
    && (forall i :: i in w.ended ==> w.ended[i] in w.migrations && |w.migrations[w.ended[i]].issued| >= 3)
  }

  ghost predicate Tidy(w: World) {
    Orderly(w) && OnePlace(w) && KeysKnown(w)
  }

  lemma ResumedKeepsIdentity(m: Migration, heas: set<string>, reply: Reply)
    requires m.Answers(reply) && m.WellFormed(heas)
    ensures var m' := m.Resumed(heas, reply);
            m'.operatorId == m.operatorId && m'.source == m.source && m'.target == m.target
            && |m.issued| <= |m'.issued|
            && (|m.issued| >= 3 ==> m'.snapshotObjectKey == m.snapshotObjectKey)
            && (m'.snapshotObjectKey == m.snapshotObjectKey
                || (reply.SnapshotReply? && reply.errorMsg == "" && m'.snapshotObjectKey == Some(reply.objectKey)))
  {
  }

  /** What no step takes back about an existing migration. */
  ghost predicate Stays(w: World, w': World, id: string)
    requires id in w.migrations
  {
    && id in w'.migrations
    && SourceOf(w'.migrations[id]) == SourceOf(w.migrations[id])
    && TargetOf(w'.migrations[id]) == TargetOf(w.migrations[id])
    && |w.migrations[id].issued| <= |w'.migrations[id].issued|
    && (|w.migrations[id].issued| >= 3 ==> KeyOf(w', id) == KeyOf(w, id))
    && (KeyOf(w', id) == KeyOf(w, id)
        || (KeyOf(w', id).Some? && id in w.taken && w.taken[id] == KeyOf(w', id).value))
  }

  lemma AnswerStays(w: World, other: string, reply: Reply, id: string)
    requires Orderly(w) && Enabled(w, Answer(other, reply)) && id in w.migrations
    ensures Stays(w, Next(w, Answer(other, reply)), id)
  {
    if other == id {
      ResumedKeepsIdentity(w.migrations[id], w.heas, reply);
    }
  }

  /** A step that keeps a record's tiers, key and RPCs, or adds to its RPCs. */
  lemma UpdateStays(w: World, other: string, m: Migration, id: string)
    requires other in w.migrations && id in w.migrations
    requires SourceOf(m) == SourceOf(w.migrations[other]) && TargetOf(m) == TargetOf(w.migrations[other])
    requires m.snapshotObjectKey == w.migrations[other].snapshotObjectKey
    requires |w.migrations[other].issued| <= |m.issued|
    ensures Stays(w, Update(w, other, m), id)
  {
  }

  lemma MigrationStays(w: World, e: Event, id: string)
    requires Orderly(w) && Enabled(w, e) && id in w.migrations
    ensures Stays(w, Next(w, e), id)
  {
    match e
    case Answer(j, reply) => AnswerStays(w, j, reply, id);
    case Migrate(_, _, _) => FreshId(w);
    case Begin(j) => UpdateStays(w, j, w.migrations[j].Begun(w.heas), id);
    case TimeOut(j, seconds) => UpdateStays(w, j, w.migrations[j].TimedOut(seconds), id);
    case Close(j) => UpdateStays(w, j, w.migrations[j].(stage := Closed), id);
    case _ => ServersKeepMigrations(w, e);
  }

  lemma ServersKeepMigrations(w: World, e: Event)
    requires Enabled(w, e) && (e.StoreSnapshot? || e.HostAtTarget? || e.StopAtSource?)
    ensures Next(w, e).migrations == w.migrations && Next(w, e).active == w.active
  {
  }

  lemma NewMigrationHasNoKey(w: World, e: Event, id: string)
    requires Orderly(w) && Enabled(w, e) && id !in w.migrations && id in Next(w, e).migrations
    ensures e.Migrate? && KeyOf(Next(w, e), id) == None
  {
  }

  lemma HostKeepsOnePlace(w: World, id: string)
    requires OnePlace(w) && Enabled(w, HostAtTarget(id))
    ensures OnePlace(Next(w, HostAtTarget(id)))
  {
    assert forall p :: p in w.hosted ==> w.hosted[p] != RestoredBy(id);
    assert RestoredBy(id) !in w.ended;
  }

  lemma StopKeepsOnePlace(w: World, id: string)
    requires OnePlace(w) && Enabled(w, StopAtSource(id))
    ensures OnePlace(Next(w, StopAtSource(id)))
  {
  }

  lemma OthersKeepPlaces(w: World, e: Event)
    requires Enabled(w, e) && !e.HostAtTarget? && !e.StopAtSource?
    ensures Next(w, e).hosted == w.hosted && Next(w, e).ended == w.ended && Next(w, e).restored == w.restored
  {
  }

  lemma OnePlaceStep(w: World, e: Event)
    requires Tidy(w) && Enabled(w, e)
    ensures OnePlace(Next(w, e))
  {
    match e
    case HostAtTarget(id) => HostKeepsOnePlace(w, id);
    case StopAtSource(id) => StopKeepsOnePlace(w, id);
    case _ => OthersKeepPlaces(w, e);
  }

  lemma StopKeepsKeys(w: World, id: string)
    requires Tidy(w) && Enabled(w, StopAtSource(id))
    ensures KeysKnown(Next(w, StopAtSource(id)))
  {
    TerminateIsFourth(w.migrations[id], w.heas);
    assert forall j :: KeyOf(Next(w, StopAtSource(id)), j) == KeyOf(w, j);
  }

  lemma HostKeepsKeys(w: World, id: string)
    requires Tidy(w) && Enabled(w, HostAtTarget(id))
    ensures KeysKnown(Next(w, HostAtTarget(id)))
  {
    var w' := Next(w, HostAtTarget(id));
    RestoreIsThird(w.migrations[id], w.heas);
    ServersKeepMigrations(w, HostAtTarget(id));
    assert forall j :: KeyOf(w', j) == KeyOf(w, j);
    assert forall i :: i in w'.ended ==> (i in w.ended && w'.ended[i] == w.ended[i]) || w'.ended[i] == id;
  }

  lemma StoreKeepsKeys(w: World, id: string, key: string)
    requires Tidy(w) && Enabled(w, StoreSnapshot(id, key))
    ensures KeysKnown(Next(w, StoreSnapshot(id, key)))
  {
    SnapshotHasNoKey(w, id);
    assert forall j :: KeyOf(Next(w, StoreSnapshot(id, key)), j) == KeyOf(w, j);
  }

  /** A migration whose snapshot has not been taken has not been told a key. */
  lemma SnapshotHasNoKey(w: World, id: string)
    requires KeysKnown(w) && id !in w.taken
    ensures KeyOf(w, id) == None
  {
  }

  lemma RestoreIsThird(m: Migration, heas: set<string>)
    requires m.WellFormed(heas) && Restore in m.issued
    ensures |m.issued| >= 3
  {
  }

  /** The orchestrator's steps leave the servers' facts alone. */
  lemma ServersUntouched(w: World, e: Event)
    requires Enabled(w, e) && !e.StoreSnapshot? && !e.HostAtTarget? && !e.StopAtSource?
    ensures Next(w, e).taken == w.taken && Next(w, e).store == w.store && Next(w, e).ended == w.ended
  {
  }

  lemma OrchestratorKeepsKeys(w: World, e: Event)
    requires Tidy(w) && Enabled(w, e) && !e.StoreSnapshot? && !e.HostAtTarget? && !e.StopAtSource?
    ensures KeysKnown(Next(w, e))
  {
    var w' := Next(w, e);
    ServersUntouched(w, e);
    forall id
      ensures KeyOf(w', id).Some? ==> id in w.taken && w.taken[id] == KeyOf(w', id).value
    {
      if id in w.migrations {
        MigrationStays(w, e, id);
      } else if id in w'.migrations {
        NewMigrationHasNoKey(w, e, id);
      }
    }
    forall id | id in w.migrations
      ensures id in w'.migrations && |w'.migrations[id].issued| >= |w.migrations[id].issued|
    {
      MigrationStays(w, e, id);
    }
  }

  lemma KeysKnownStep(w: World, e: Event)
    requires Tidy(w) && Enabled(w, e)
    ensures KeysKnown(Next(w, e))
  {
    match e
    case StoreSnapshot(id, key) => StoreKeepsKeys(w, id, key);
    case HostAtTarget(id) => HostKeepsKeys(w, id);
    case StopAtSource(id) => StopKeepsKeys(w, id);
    case _ => OrchestratorKeepsKeys(w, e);
  }

  lemma TidyStep(w: World, e: Event)
    requires Tidy(w) && Enabled(w, e)
    ensures Tidy(Next(w, e))
  {
    OrderlyStep(w, e);
    OnePlaceStep(w, e);
    KeysKnownStep(w, e);
  }

  lemma {:induction false} AlwaysTidy(heas: set<string>, hosted: set<(string, string)>, events: seq<Event>, w: World)
    requires Leads(heas, hosted, events, w)
    ensures Tidy(w)
    decreases |events|
  {
    if events != [] {
      var before := LastStep(heas, hosted, events, w);
      AlwaysTidy(heas, hosted, events[..|events| - 1], before);
      TidyStep(before, events[|events| - 1]);
    }
  }

  // ---- One step ---------------------------------------------------------------------------------------

  ghost predicate AllBacked(w: World) {
    forall i :: i in w.ended ==> Backed(w, i, w.ended[i])
  }

  /** A step ends an incarnation only on behalf of a migration, and never changes who ended one. */
  lemma EndedStays(w: World, e: Event, i: Incarnation)
    requires Tidy(w) && Enabled(w, e) && i in w.ended
    ensures i in Next(w, e).ended && Next(w, e).ended[i] == w.ended[i]
    ensures KeyOf(Next(w, e), w.ended[i]) == KeyOf(w, w.ended[i])
  {
    MigrationStays(w, e, w.ended[i]);
  }

  lemma StoreUnchanged(w: World, e: Event)
    requires Enabled(w, e) && !e.StoreSnapshot?
    ensures Next(w, e).store == w.store
  {
  }

  lemma BackedStays(w: World, e: Event, i: Incarnation)
    requires Tidy(w) && Enabled(w, e) && !Loses(w, e)
    requires i in w.ended && Backed(w, i, w.ended[i])
    ensures Backed(Next(w, e), i, w.ended[i])
  {
    EndedStays(w, e, i);
    if !e.StoreSnapshot? {
      StoreUnchanged(w, e);
    }
  }

  /** An incarnation that the step ends is backed unless the step loses it. */
  lemma NewlyEnded(w: World, e: Event, i: Incarnation)
    requires Tidy(w) && Enabled(w, e) && !Loses(w, e)
    requires i in Next(w, e).ended && i !in w.ended
    ensures Backed(Next(w, e), i, Next(w, e).ended[i])
  {
    StoreUnchanged(w, e);
  }

  lemma AllBackedStep(w: World, e: Event)
    requires Tidy(w) && AllBacked(w) && Enabled(w, e) && !Loses(w, e)
    ensures AllBacked(Next(w, e))
  {
    forall i | i in Next(w, e).ended
      ensures Backed(Next(w, e), i, Next(w, e).ended[i])
    {
      if i in w.ended {
        EndedStays(w, e, i);
        BackedStays(w, e, i);
      } else {
        NewlyEnded(w, e, i);
      }
    }
  }

  /** Ended and not held where it should be. */
  predicate Lost(w: World, i: Incarnation) {
    i in w.ended && !Backed(w, i, w.ended[i])
  }

  lemma LostStays(w: World, e: Event, i: Incarnation)
    requires Tidy(w) && Enabled(w, e) && Lost(w, i)
    ensures Lost(Next(w, e), i)
  {
    EndedStays(w, e, i);
    if !e.StoreSnapshot? {
      StoreUnchanged(w, e);
    }
  }

  /** A losing step loses an incarnation that was running or had ended. */
  lemma LosingStep(w: World, e: Event) returns (i: Incarnation)
    requires Tidy(w) && Enabled(w, e) && Loses(w, e)
    ensures Lost(Next(w, e), i)
    ensures Live(w, i) || i in w.ended
  {
    match e
    case StopAtSource(id) => i := w.hosted[SourceOf(w.migrations[id])];
    case HostAtTarget(id) => i := w.hosted[TargetOf(w.migrations[id])];
    case StoreSnapshot(id, key) =>
      i := w.store[key];
      EndedStays(w, e, i);
  }

  lemma LiveStep(w: World, e: Event, i: Incarnation)
    requires Enabled(w, e) && Live(w, i)
    ensures Live(Next(w, e), i) || i in Next(w, e).ended
  {
    var p :| p in w.hosted && w.hosted[p] == i;
    assert i !in Next(w, e).ended ==> p in Next(w, e).hosted && Next(w, e).hosted[p] == i;
  }

  // ---- All runs ----------------------------------------------------------------------------------------

  /** The incarnation runs at some point of the run. */
  ghost predicate EverHosted(heas: set<string>, hosted: set<(string, string)>, events: seq<Event>, i: Incarnation) {
    exists k: nat :: HostedAt(heas, hosted, events, i, k)
  }

  ghost predicate HostedAt(heas: set<string>, hosted: set<(string, string)>, events: seq<Event>, i: Incarnation,
                           k: nat) {
    && k <= |events| && Run(Initial(heas, hosted), events[..k]).Some?
    && Live(Run(Initial(heas, hosted), events[..k]).value, i)
  }

  /** Event `k` of the run loses a state. */
  ghost predicate LosesAt(heas: set<string>, hosted: set<(string, string)>, events: seq<Event>, k: nat) {
    && k < |events| && Run(Initial(heas, hosted), events[..k]).Some?
    && Loses(Run(Initial(heas, hosted), events[..k]).value, events[k])
  }

  ghost predicate Lossless(heas: set<string>, hosted: set<(string, string)>, events: seq<Event>) {
    forall k: nat :: !LosesAt(heas, hosted, events, k)
  }

  lemma HostedAtPrefix(heas: set<string>, hosted: set<(string, string)>, events: seq<Event>, i: Incarnation, k: nat,
                       n: nat)
    requires k <= n <= |events|
    ensures HostedAt(heas, hosted, events[..n], i, k) <==> HostedAt(heas, hosted, events, i, k)
  {
    assert events[..n][..k] == events[..k];
  }

  lemma {:induction false} HostedIsLiveOrEnded(heas: set<string>, hosted: set<(string, string)>, events: seq<Event>,
                                               w: World, i: Incarnation, k: nat)
    requires Leads(heas, hosted, events, w) && HostedAt(heas, hosted, events, i, k)
    ensures Live(w, i) || i in w.ended
    decreases |events|
  {
    if k == |events| {
      assert events[..k] == events;
    } else {
      var n := |events| - 1;
      var before := LastStep(heas, hosted, events, w);
      HostedAtPrefix(heas, hosted, events, i, k, n);
      HostedIsLiveOrEnded(heas, hosted, events[..n], before, i, k);
      AlwaysTidy(heas, hosted, events[..n], before);
      if i in before.ended {
        EndedStays(before, events[n], i);
      } else {
        LiveStep(before, events[n], i);
      }
    }
  }

  lemma HostedNow(heas: set<string>, hosted: set<(string, string)>, events: seq<Event>, w: World, i: Incarnation)
    requires Leads(heas, hosted, events, w) && Live(w, i)
    ensures EverHosted(heas, hosted, events, i)
  {
    assert events[..|events|] == events;
    assert HostedAt(heas, hosted, events, i, |events|);
  }

  lemma EverHostedLater(heas: set<string>, hosted: set<(string, string)>, events: seq<Event>, n: nat, i: Incarnation)
    requires n <= |events| && EverHosted(heas, hosted, events[..n], i)
    ensures EverHosted(heas, hosted, events, i)
  {
    var k: nat :| HostedAt(heas, hosted, events[..n], i, k);
    HostedAtPrefix(heas, hosted, events, i, k, n);
  }

  lemma EndsOnlyLive(w: World, e: Event, i: Incarnation)
    requires Enabled(w, e) && i in Next(w, e).ended && i !in w.ended
    ensures Live(w, i)
  {
  }

  lemma {:induction false} EndedWasHosted(heas: set<string>, hosted: set<(string, string)>, events: seq<Event>,
                                          w: World, i: Incarnation)
    requires Leads(heas, hosted, events, w) && i in w.ended
    ensures EverHosted(heas, hosted, events, i)
    decreases |events|
  {
    var n := |events| - 1;
    var before := LastStep(heas, hosted, events, w);
    if i in before.ended {
      EndedWasHosted(heas, hosted, events[..n], before, i);
    } else {
      EndsOnlyLive(before, events[n], i);
      HostedNow(heas, hosted, events[..n], before, i);
    }
    EverHostedLater(heas, hosted, events, n, i);
  }

  lemma LosslessPrefix(heas: set<string>, hosted: set<(string, string)>, events: seq<Event>, n: nat)
    requires Lossless(heas, hosted, events) && n <= |events|
    ensures Lossless(heas, hosted, events[..n])
  {
    forall k: nat
      ensures !LosesAt(heas, hosted, events[..n], k)
    {
      if k < n {
        assert events[..n][..k] == events[..k];
        assert !LosesAt(heas, hosted, events, k);
      }
    }
  }

  lemma {:induction false} LosslessIsBacked(heas: set<string>, hosted: set<(string, string)>, events: seq<Event>,
                                            w: World)
    requires Leads(heas, hosted, events, w) && Lossless(heas, hosted, events)
    ensures AllBacked(w)
    decreases |events|
  {
    if events != [] {
      var n := |events| - 1;
      var before := LastStep(heas, hosted, events, w);
      LosslessPrefix(heas, hosted, events, n);
      LosslessIsBacked(heas, hosted, events[..n], before);
      AlwaysTidy(heas, hosted, events[..n], before);
      assert !LosesAt(heas, hosted, events, n);
      AllBackedStep(before, events[n]);
    }
  }

  lemma LossNow(heas: set<string>, hosted: set<(string, string)>, events: seq<Event>, w: World,
                e: Event) returns (i: Incarnation)
    requires Leads(heas, hosted, events, w) && Tidy(w) && Enabled(w, e) && Loses(w, e)
    ensures Lost(Next(w, e), i) && EverHosted(heas, hosted, events, i)
  {
    i := LosingStep(w, e);
    if i in w.ended {
      EndedWasHosted(heas, hosted, events, w, i);
    } else {
      HostedNow(heas, hosted, events, w, i);
    }
  }

  lemma LosesAtPrefix(heas: set<string>, hosted: set<(string, string)>, events: seq<Event>, k: nat, n: nat)
    requires k < n <= |events|
    ensures LosesAt(heas, hosted, events[..n], k) <==> LosesAt(heas, hosted, events, k)
  {
    assert events[..n][..k] == events[..k];
  }

  lemma {:induction false} LossRemains(heas: set<string>, hosted: set<(string, string)>, events: seq<Event>, w: World,
                                       k: nat)
    returns (i: Incarnation)
    requires Leads(heas, hosted, events, w) && LosesAt(heas, hosted, events, k)
    ensures Lost(w, i) && EverHosted(heas, hosted, events, i)
    decreases |events|
  {
    var n := |events| - 1;
    var before := LastStep(heas, hosted, events, w);
    AlwaysTidy(heas, hosted, events[..n], before);
    if k == n {
      i := LossNow(heas, hosted, events[..n], before, events[n]);
    } else {
      LosesAtPrefix(heas, hosted, events, k, n);
      i := LossRemains(heas, hosted, events[..n], before, k);
      LostStays(before, events[n], i);
    }
    EverHostedLater(heas, hosted, events, n, i);
  }

  lemma LostIsGone(w: World, i: Incarnation)
    requires OnePlace(w) && Lost(w, i)
    ensures !Survives(w, i)
  {
  }

  /**
    In every interleaving with any failures and timeouts, every incarnation that ever ran is
    running or held under the snapshot key of the migration that ended it, exactly if no
    terminate or restore hit an incarnation that its migration's snapshot does not hold and no
    snapshot was written over one that is relied on.
   */
  lemma StateSurvivesIff(heas: set<string>, hosted: set<(string, string)>, events: seq<Event>, w: World)
    requires Leads(heas, hosted, events, w)
    ensures (forall i :: EverHosted(heas, hosted, events, i) ==> Survives(w, i)) <==> Lossless(heas, hosted, events)
  {
    AlwaysTidy(heas, hosted, events, w);
    if Lossless(heas, hosted, events) {
      LosslessIsBacked(heas, hosted, events, w);
      forall i | EverHosted(heas, hosted, events, i)
        ensures Survives(w, i)
      {
        var k: nat :| HostedAt(heas, hosted, events, i, k);
        HostedIsLiveOrEnded(heas, hosted, events, w, i, k);
      }
    } else {
      var k: nat :| LosesAt(heas, hosted, events, k);
      var i := LossRemains(heas, hosted, events, w, k);
      LostIsGone(w, i);
    }
  }

  // ---- Prompt runs ----------------------------------------------------------------------------------------

  predicate Open(w: World, id: string) {
    id in w.migrations && !w.migrations[id].stage.Closed?
  }

  /**
    Requests take effect while their migration is open, a migration changes tiers, a restore
    goes to a tier without the operator, and snapshot keys are new.
   */
  predicate Prompt(w: World, e: Event) {
    match e
    case Migrate(_, source, target) => source != target
    case StoreSnapshot(id, key) => Open(w, id) && key !in w.store
    case HostAtTarget(id) => Open(w, id) && TargetOf(w.migrations[id]) !in w.hosted
    case StopAtSource(id) => Open(w, id)
    case _ => true
  }

  /** From its snapshot to its terminate, an open migration's source runs what the snapshot holds. */
  ghost predicate Guarded(w: World) {
    forall id :: Open(w, id) && id in w.taken && id !in w.stopped ==> StillThere(w, id)
  }

  predicate StillThere(w: World, id: string) {
    && id in w.migrations && id in w.taken && w.taken[id] in w.store
    && SourceOf(w.migrations[id]) in w.hosted
    && w.hosted[SourceOf(w.migrations[id])] == w.store[w.taken[id]]
  }

  /** A terminate comes after the snapshot, so it finds what the snapshot holds. */
  lemma PromptLosesNothing(w: World, e: Event)
    requires Tidy(w) && Guarded(w) && Enabled(w, e) && Prompt(w, e)
    ensures !Loses(w, e)
  {
    if e.StopAtSource? {
      TerminateIsFourth(w.migrations[e.id], w.heas);
      assert KeyOf(w, e.id).Some?;
      assert StillThere(w, e.id);
    }
  }

  /** Two open migrations are of different operators. */
  lemma OthersElsewhere(w: World, id: string, other: string)
    requires Orderly(w) && Open(w, id) && Open(w, other) && id != other
    ensures SourceOf(w.migrations[id]) != SourceOf(w.migrations[other])
  {
  }

  lemma StillThereOrchestrator(w: World, e: Event, id: string)
    requires Orderly(w) && Enabled(w, e) && !e.StoreSnapshot? && !e.HostAtTarget? && !e.StopAtSource?
    requires StillThere(w, id)
    ensures StillThere(Next(w, e), id)
  {
    MigrationStays(w, e, id);
    ServersUntouched(w, e);
    OthersKeepPlaces(w, e);
  }

  lemma StillThereStop(w: World, other: string, id: string)
    requires Orderly(w) && Enabled(w, StopAtSource(other)) && Open(w, other) && Open(w, id) && other != id
    requires StillThere(w, id)
    ensures StillThere(Next(w, StopAtSource(other)), id)
  {
    OthersElsewhere(w, id, other);
  }

  lemma StillThereHost(w: World, other: string, id: string)
    requires Enabled(w, HostAtTarget(other)) && TargetOf(w.migrations[other]) !in w.hosted && StillThere(w, id)
    ensures StillThere(Next(w, HostAtTarget(other)), id)
  {
  }

  lemma StillThereStore(w: World, other: string, key: string, id: string)
    requires Enabled(w, StoreSnapshot(other, key)) && key !in w.store && StillThere(w, id)
    ensures StillThere(Next(w, StoreSnapshot(other, key)), id)
  {
  }

  lemma StillThereStep(w: World, e: Event, id: string)
    requires Tidy(w) && Enabled(w, e) && Prompt(w, e)
    requires Open(w, id) && StillThere(w, id) && id !in Next(w, e).stopped
    ensures StillThere(Next(w, e), id)
  {
    if e.StopAtSource? {
      StillThereStop(w, e.id, id);
    } else if e.HostAtTarget? {
      StillThereHost(w, e.id, id);
    } else if e.StoreSnapshot? {
      StillThereStore(w, e.id, e.key, id);
    } else {
      StillThereOrchestrator(w, e, id);
    }
  }

  lemma GuardedStep(w: World, e: Event)
    requires Tidy(w) && Guarded(w) && Enabled(w, e) && Prompt(w, e)
    ensures Guarded(Next(w, e))
  {
    var w' := Next(w, e);
    forall id | Open(w', id) && id in w'.taken && id !in w'.stopped
      ensures StillThere(w', id)
    {
      if id in w.taken {
        OpenBefore(w, e, id);
        StillThereStep(w, e, id);
      }
    }
  }

  /** A migration that is open after a step and existed before it was open then. */
  lemma OpenBefore(w: World, e: Event, id: string)
    requires Orderly(w) && Enabled(w, e) && id in w.migrations && Open(Next(w, e), id)
    ensures Open(w, id)
  {
    FreshId(w);
  }

  ghost predicate PromptAt(heas: set<string>, hosted: set<(string, string)>, events: seq<Event>, k: nat) {
    if k < |events| && Run(Initial(heas, hosted), events[..k]).Some?
    then Prompt(Run(Initial(heas, hosted), events[..k]).value, events[k])
    else true
  }

  ghost predicate PromptRun(heas: set<string>, hosted: set<(string, string)>, events: seq<Event>) {
    forall k: nat :: PromptAt(heas, hosted, events, k)
  }

  lemma PromptPrefix(heas: set<string>, hosted: set<(string, string)>, events: seq<Event>, n: nat)
    requires PromptRun(heas, hosted, events) && n <= |events|
    ensures PromptRun(heas, hosted, events[..n])
  {
    forall k: nat
      ensures PromptAt(heas, hosted, events[..n], k)
    {
      if k < n {
        assert events[..n][..k] == events[..k];
        assert PromptAt(heas, hosted, events, k);
      }
    }
  }

  lemma LosslessSnoc(heas: set<string>, hosted: set<(string, string)>, events: seq<Event>, n: nat)
    requires |events| == n + 1 && Lossless(heas, hosted, events[..n]) && !LosesAt(heas, hosted, events, n)
    ensures Lossless(heas, hosted, events)
  {
    forall k: nat
      ensures !LosesAt(heas, hosted, events, k)
    {
      if k < n {
        LosesAtPrefix(heas, hosted, events, k, n);
        assert !LosesAt(heas, hosted, events[..n], k);
      }
    }
  }

  lemma {:induction false} PromptIsGuarded(heas: set<string>, hosted: set<(string, string)>, events: seq<Event>,
                                           w: World)
    requires Leads(heas, hosted, events, w) && PromptRun(heas, hosted, events)
    ensures Guarded(w) && Lossless(heas, hosted, events)
    decreases |events|
  {
    if events != [] {
      var n := |events| - 1;
      var before := LastStep(heas, hosted, events, w);
      PromptPrefix(heas, hosted, events, n);
      PromptIsGuarded(heas, hosted, events[..n], before);
      AlwaysTidy(heas, hosted, events[..n], before);
      assert PromptAt(heas, hosted, events, n);
      PromptLosesNothing(before, events[n]);
      GuardedStep(before, events[n]);
      LosslessSnoc(heas, hosted, events, n);
    }
  }

  /**
    If every request takes effect while its migration is open, migrations change tiers, restores
    go to tiers without the operator and snapshot keys are new, no state is ever lost, whatever
    fails or times out.
   */
  lemma PromptRunsLoseNothing(heas: set<string>, hosted: set<(string, string)>, events: seq<Event>, w: World,
                              i: Incarnation)
    requires Leads(heas, hosted, events, w) && PromptRun(heas, hosted, events)
    requires EverHosted(heas, hosted, events, i)
    ensures Survives(w, i)
  {
    PromptIsGuarded(heas, hosted, events, w);
    StateSurvivesIff(heas, hosted, events, w);
  }
}
