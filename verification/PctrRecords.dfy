/**
  What a migration's record holds, in every run: what the replies brought, and why it ended.
 */
module PctrRecords {
  import opened Wrappers
  import opened Formatting
  import opened Pctr
  import opened PctrRuns
  import opened PctrSurvival

  /** The event is a drain reply to migration `id`. */
  predicate DrainAnswers(e: Event, id: string) {
    e.Answer? && e.id == id && e.reply.DrainReply?
  }

  /** The event is an error-free snapshot reply to migration `id`. */
  predicate SnapshotAnswers(e: Event, id: string) {
    e.Answer? && e.id == id && e.reply.SnapshotReply? && e.reply.errorMsg == ""
  }

  /** The offsets of the drain reply in a run; none without a reply or if the reply has none. */
  function DrainedIn(events: seq<Event>, id: string): map<int, int> {
    if events == [] then map[]
    else
      var e := events[|events| - 1];
      if !DrainAnswers(e, id) then DrainedIn(events[..|events| - 1], id)
      else OffsetsOf(e.reply.offsetMap)
  }

  /** The key and size of the error-free snapshot reply in a run. */
  function SnapshotIn(events: seq<Event>, id: string): Option<(string, int)> {
    if events == [] then None
    else
      var e := events[|events| - 1];
      if SnapshotAnswers(e, id) then Some((e.reply.objectKey, e.reply.byteSize))
      else SnapshotIn(events[..|events| - 1], id)
  }

  /** What made migration `id` fail, in the words of its record. */
  function FailureIn(m: Migration, heas: set<string>, e: Event): Option<string> {
    match e
    case Begin(id) => if m.source in heas then None else Some("No HEA client for source tier: " + m.source)
    case TimeOut(id, seconds) => Some("Migration timed out after " + Digits(seconds) + "s")
    case Answer(id, reply) =>
      (match reply
       case Raised(message) => Some(message)
       case SnapshotReply(key, size, errorMsg) =>
         if errorMsg != "" then Some("Snapshot failed: " + errorMsg)
         else if m.target == "cloud" || m.target in heas then None
         else Some("No HEA client for target tier: " + m.target)
       case TerminateReply(success, errorMsg) => if success then None else Some("Termination failed: " + errorMsg)
       case _ => None)
    case _ => None
  }

  predicate About(e: Event, id: string) {
    (e.Begin? || e.Answer? || e.TimeOut?) && e.id == id
  }

  // ---- One step ------------------------------------------------------------------------------------

  function OffsetsOf(offsets: Option<map<int, int>>): map<int, int> {
    match offsets case None => map[] case Some(o) => o
  }

  /** What event `e` does to a migration's record. */
  predicate Writes(m: Migration, m': Migration, heas: set<string>, e: Event, id: string) {
    && m'.drainOffsetMap == (if DrainAnswers(e, id) then OffsetsOf(e.reply.offsetMap) else m.drainOffsetMap)
    && m'.snapshotObjectKey == (if SnapshotAnswers(e, id) then Some(e.reply.objectKey) else m.snapshotObjectKey)
    && m'.snapshotSize == (if SnapshotAnswers(e, id) then e.reply.byteSize else m.snapshotSize)
    && m'.error == (if About(e, id) && FailureIn(m, heas, e).Some? then FailureIn(m, heas, e) else m.error)
  }

  predicate RecordStep(w: World, e: Event, id: string)
    requires Enabled(w, e) && id in w.migrations && id in Next(w, e).migrations
  {
    Writes(w.migrations[id], Next(w, e).migrations[id], w.heas, e, id)
  }

  lemma AnswerWrites(m: Migration, heas: set<string>, id: string, reply: Reply)
    requires m.WellFormed(heas) && m.Answers(reply)
    ensures Writes(m, m.Resumed(heas, reply), heas, Answer(id, reply), id)
  {
    match reply
    case Raised(message) =>
    case DrainReply(offsets) => assert m.issued != [];
    case SnapshotReply(key, size, errorMsg) =>
    case RestoreReply(_) => assert m.issued != [];
    case TerminateReply(success, errorMsg) =>
  }

  lemma AnsweredRecord(w: World, id: string, reply: Reply)
    requires Orderly(w) && Enabled(w, Answer(id, reply))
    ensures RecordStep(w, Answer(id, reply), id)
  {
    AnswerWrites(w.migrations[id], w.heas, id, reply);
  }

  lemma SomeoneElse(w: World, e: Event, id: string)
    requires Orderly(w) && Enabled(w, e) && id in w.migrations && !About(e, id)
    ensures id in Next(w, e).migrations && RecordStep(w, e, id)
  {
    if e.Migrate? {
      FreshId(w);
    } else if e.StoreSnapshot? || e.HostAtTarget? || e.StopAtSource? {
      ServersKeepMigrations(w, e);
    } else {
      OtherRecord(w, e, id);
    }
  }

  lemma OtherRecord(w: World, e: Event, id: string)
    requires Enabled(w, e) && id in w.migrations && !About(e, id)
    requires e.Begin? || e.Answer? || e.TimeOut? || e.Close?
    ensures id in Next(w, e).migrations && RecordStep(w, e, id)
  {
    match e
    case Begin(j) => UpdateOfOther(w, j, w.migrations[j].Begun(w.heas), id);
    case Answer(j, reply) => UpdateOfOther(w, j, w.migrations[j].Resumed(w.heas, reply), id);
    case TimeOut(j, seconds) => UpdateOfOther(w, j, w.migrations[j].TimedOut(seconds), id);
    case Close(j) =>
  }

  lemma UpdateOfOther(w: World, other: string, m: Migration, id: string)
    requires id in w.migrations && other != id
    ensures id in Update(w, other, m).migrations && Update(w, other, m).migrations[id] == w.migrations[id]
  {
  }

  lemma StepRecords(w: World, e: Event, id: string)
    requires Orderly(w) && Enabled(w, e) && id in w.migrations
    ensures id in Next(w, e).migrations && RecordStep(w, e, id)
  {
    if !About(e, id) {
      SomeoneElse(w, e, id);
    } else if e.Answer? {
      AnsweredRecord(w, id, e.reply);
    }
  }

  lemma NewRecord(w: World, e: Event, id: string)
    requires Enabled(w, e) && id !in w.migrations && id in Next(w, e).migrations
    ensures var m := Next(w, e).migrations[id];
            m.drainOffsetMap == map[] && m.snapshotObjectKey == None && m.snapshotSize == 0 && m.error == None
  {
  }

  /** Before a migration exists nothing answers it. */
  lemma {:induction false} NothingBefore(heas: set<string>, hosted: set<(string, string)>, events: seq<Event>, w: World,
                                         id: string)
    requires Leads(heas, hosted, events, w) && id !in w.migrations
    ensures DrainedIn(events, id) == map[] && SnapshotIn(events, id) == None
    decreases |events|
  {
    if events != [] {
      var before := LastStep(heas, hosted, events, w);
      if id in before.migrations {
        AlwaysOrderly(heas, hosted, events[..|events| - 1], before);
        StepRecords(before, events[|events| - 1], id);
      }
      NothingBefore(heas, hosted, events[..|events| - 1], before, id);
    }
  }

  // ---- Every run -----------------------------------------------------------------------------------

  /**
    In every run a migration holds the offsets of the drain reply it got, the empty map where
    there was none or it had none, and the key and size of the error-free snapshot reply it got.
   */
  lemma {:induction false} HoldsWhatRepliesBrought(heas: set<string>, hosted: set<(string, string)>,
                                                   events: seq<Event>, w: World, id: string)
    requires Leads(heas, hosted, events, w) && id in w.migrations
    ensures w.migrations[id].drainOffsetMap == DrainedIn(events, id)
    ensures match SnapshotIn(events, id)
            case None => w.migrations[id].snapshotObjectKey == None && w.migrations[id].snapshotSize == 0
            case Some((key, size)) =>
              w.migrations[id].snapshotObjectKey == Some(key) && w.migrations[id].snapshotSize == size
    decreases |events|
  {
    var n := |events| - 1;
    var before := LastStep(heas, hosted, events, w);
    if id in before.migrations {
      AlwaysOrderly(heas, hosted, events[..n], before);
      HoldsWhatRepliesBrought(heas, hosted, events[..n], before, id);
      StepRecords(before, events[n], id);
    } else {
      NothingBefore(heas, hosted, events[..n], before, id);
      NewRecord(before, events[n], id);
    }
  }

  /** A migration awaits its drain reply once only, and its snapshot reply once only. */
  lemma AnsweredOnce(w: World, e: Event, id: string)
    requires Orderly(w) && Enabled(w, e) && id in w.migrations
    ensures |w.migrations[id].issued| >= 2 ==> !DrainAnswers(e, id)
    ensures |w.migrations[id].issued| >= 3 ==> !SnapshotAnswers(e, id)
  {
    assert w.migrations[id].WellFormed(w.heas);
  }

  lemma FinalStep(w: World, e: Event, id: string)
    requires Orderly(w) && Enabled(w, e) && id in w.migrations
    ensures id in Next(w, e).migrations
    ensures Kept(w.migrations[id], Next(w, e).migrations[id])
  {
    StepRecords(w, e, id);
    AnsweredOnce(w, e, id);
    MigrationStays(w, e, id);
  }

  lemma LastKeeps(heas: set<string>, hosted: set<(string, string)>, events: seq<Event>, w: World, id: string)
    returns (last: World)
    requires events != [] && Leads(heas, hosted, events, w)
    ensures Leads(heas, hosted, events[..|events| - 1], last)
    ensures KeptFor(last, w, id)
  {
    last := LastStep(heas, hosted, events, w);
    AlwaysOrderly(heas, hosted, events[..|events| - 1], last);
    if id in last.migrations {
      FinalStep(last, events[|events| - 1], id);
    }
  }

  /** The migration, once there, stays and keeps what its requests carry. */
  predicate KeptFor(w: World, w': World, id: string) {
    id in w.migrations ==> id in w'.migrations && Kept(w.migrations[id], w'.migrations[id])
  }

  lemma KeptOn(a: World, b: World, c: World, id: string)
    requires KeptFor(a, b, id) && KeptFor(b, c, id)
    ensures KeptFor(a, c, id)
  {
  }

  /** What the requests sent so far carry is kept. */
  predicate Kept(m: Migration, m': Migration) {
    && |m.issued| <= |m'.issued|
    && (|m.issued| >= 2 ==> m'.drainOffsetMap == m.drainOffsetMap)
    && (|m.issued| >= 3 ==> m'.snapshotObjectKey == m.snapshotObjectKey && m'.snapshotSize == m.snapshotSize)
  }

  /**
    Once the snapshot request is out the offsets it carries never change, and once the restore
    request is out neither do the key it carries and the size.
   */
  lemma {:induction false} RepliesAreFinal(heas: set<string>, hosted: set<(string, string)>, events: seq<Event>,
                                           w: World, k: nat, before: World, id: string)
    requires Leads(heas, hosted, events, w) && k <= |events| && Leads(heas, hosted, events[..k], before)
    ensures KeptFor(before, w, id)
    decreases |events|
  {
    if k < |events| {
      var last := LastKeeps(heas, hosted, events, w, id);
      assert events[..|events| - 1][..k] == events[..k];
      RepliesAreFinal(heas, hosted, events[..|events| - 1], last, k, before, id);
      KeptOn(before, last, w, id);
    } else {
      assert events[..k] == events;
    }
  }

  /** The phase that goes with the RPCs sent; a snapshot without a target to restore it leaves the restore phase. */
  predicate ShowsPhase(m: Migration) {
    && (|m.issued| <= 1 ==> m.snapshotObjectKey.None?)
    && m.phase == match |m.issued|
                  case 0 => Drain
                  case 1 => Drain
                  case 2 => if m.snapshotObjectKey.Some? then Restore else Snapshot
                  case 3 => Restore
                  case _ => Terminate
  }

  /** In every run each migration shows the phase it has entered last, whether or not it has failed since. */
  lemma {:induction false} PhaseIsShown(heas: set<string>, hosted: set<(string, string)>, events: seq<Event>, w: World)
    requires Leads(heas, hosted, events, w)
    ensures forall id :: id in w.migrations ==> ShowsPhase(w.migrations[id])
    decreases |events|
  {
    if events != [] {
      var n := |events| - 1;
      var before := LastStep(heas, hosted, events, w);
      PhaseIsShown(heas, hosted, events[..n], before);
      AlwaysTidy(heas, hosted, events[..n], before);
      forall id | id in w.migrations
        ensures ShowsPhase(w.migrations[id])
      {
        PhaseStep(before, events[n], id);
      }
    }
  }

  lemma PhaseStep(w: World, e: Event, id: string)
    requires Tidy(w) && Enabled(w, e) && id in Next(w, e).migrations
    requires forall i :: i in w.migrations ==> ShowsPhase(w.migrations[i])
    ensures ShowsPhase(Next(w, e).migrations[id])
  {
    if e.Answer? && e.id == id {
      AnswerShows(w.migrations[id], w.heas, e.reply);
    } else if e.Begin? && e.id == id {
      BeginShows(w.migrations[id], w.heas);
    } else if id in w.migrations && !About(e, id) {
      OthersShow(w, e, id);
    }
  }

  lemma OthersShow(w: World, e: Event, id: string)
    requires Orderly(w) && Enabled(w, e) && id in w.migrations && !About(e, id) && ShowsPhase(w.migrations[id])
    ensures id in Next(w, e).migrations && ShowsPhase(Next(w, e).migrations[id])
  {
    if e.Migrate? {
      FreshId(w);
    } else if e.StoreSnapshot? || e.HostAtTarget? || e.StopAtSource? {
      ServersKeepMigrations(w, e);
    }
  }

  lemma BeginShows(m: Migration, heas: set<string>)
    requires m.WellFormed(heas) && m.stage.Scheduled? && ShowsPhase(m)
    ensures ShowsPhase(m.Begun(heas))
  {
  }

  lemma AnswerShows(m: Migration, heas: set<string>, reply: Reply)
    requires m.WellFormed(heas) && m.Answers(reply) && ShowsPhase(m)
    ensures ShowsPhase(m.Resumed(heas, reply))
  {
    match reply
    case Raised(message) =>
    case DrainReply(offsets) => DrainShows(m, heas, offsets);
    case SnapshotReply(key, size, errorMsg) =>
    case RestoreReply(_) => assert m.source in heas;
    case TerminateReply(success, errorMsg) =>
  }

  /** Until its snapshot is answered a migration has no key: it shows the snapshot phase while it waits. */
  lemma DrainShows(m: Migration, heas: set<string>, offsets: Option<map<int, int>>)
    requires m.WellFormed(heas) && m.stage.AwaitingDrain? && m.snapshotObjectKey.None?
    ensures ShowsPhase(m.Resumed(heas, DrainReply(offsets)))
  {
    assert m.source in heas;
  }

  // ---- Why a migration ended -------------------------------------------------------------------------

  /** Event `k` of the run made migration `id` fail with this error. */
  ghost predicate FailedAt(heas: set<string>, hosted: set<(string, string)>, events: seq<Event>, id: string, k: nat,
                           error: string) {
    && k < |events| && About(events[k], id) && Run(Initial(heas, hosted), events[..k]).Some?
    && id in Run(Initial(heas, hosted), events[..k]).value.migrations
    && FailureIn(Run(Initial(heas, hosted), events[..k]).value.migrations[id], heas, events[k]) == Some(error)
  }

  lemma {:induction false} SameAgents(heas: set<string>, hosted: set<(string, string)>, events: seq<Event>, w: World)
    requires Leads(heas, hosted, events, w)
    ensures w.heas == heas
    decreases |events|
  {
    if events != [] {
      var before := LastStep(heas, hosted, events, w);
      SameAgents(heas, hosted, events[..|events| - 1], before);
    }
  }

  /**
    In every run a migration's error is the text of the event that made it fail: a missing
    client, an error reply, a raised exception or a timeout.
   */
  lemma {:induction false} ErrorSaysWhy(heas: set<string>, hosted: set<(string, string)>, events: seq<Event>, w: World,
                                        id: string)
    returns (k: nat)
    requires Leads(heas, hosted, events, w) && id in w.migrations && w.migrations[id].error.Some?
    ensures FailedAt(heas, hosted, events, id, k, w.migrations[id].error.value)
    decreases |events|
  {
    var n := |events| - 1;
    var before := LastStep(heas, hosted, events, w);
    AlwaysOrderly(heas, hosted, events[..n], before);
    SameAgents(heas, hosted, events[..n], before);
    if id !in before.migrations {
      NewRecord(before, events[n], id);
    }
    StepRecords(before, events[n], id);
    if About(events[n], id) && FailureIn(before.migrations[id], heas, events[n]).Some? {
      k := n;
    } else {
      k := ErrorSaysWhy(heas, hosted, events[..n], before, id);
      assert events[..n][..k] == events[..k];
    }
  }
}
