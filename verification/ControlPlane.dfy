/**
  Recalibration rounds and migrations together: rounds start migrations and record the target
  tier at once, while earlier migrations are still under way.
 */
module ControlPlane {
  import opened Wrappers
  import opened Sequences
  import opened PctrRuns
  import opened PctrSurvival
  import O = Optimizer
  import T = PlacementTheorems

  /** The migrations, the recorded placement, and the latest migration started for each operator. */
  datatype Plane = Plane(world: World, recorded: map<string, string>, latest: map<string, string>)

  /** A round starts a candidate, or anything else happens to migrations and servers. */
  datatype Action = Start(c: O.Candidate) | Net(e: Event)

  function EventOf(a: Action): Event {
    match a
    case Start(c) => Migrate(c.op, c.source, c.target)
    case Net(e) => e
  }

  predicate Possible(p: Plane, a: Action) {
    Enabled(p.world, EventOf(a)) && (a.Net? ==> !a.e.Migrate?)
  }

  /** The orchestrator turns down a second migration of an operator; the round goes on without it. */
  predicate Refuses(p: Plane, a: Action) {
    a.Start? && a.c.op in p.world.active
  }

  function After(p: Plane, a: Action): Plane
    requires Possible(p, a)
  {
    var world := Next(p.world, EventOf(a));
    if a.Net? || Refuses(p, a) then p.(world := world)
    else Plane(world, p.recorded[a.c.op := a.c.target], p.latest[a.c.op := world.active[a.c.op]])
  }

  function Acts(start: Plane, actions: seq<Action>): Option<Plane>
    decreases |actions|
  {
    if actions == [] then Some(start)
    else
      match Acts(start, actions[..|actions| - 1])
      case None => None
      case Some(p) => if Possible(p, actions[|actions| - 1]) then Some(After(p, actions[|actions| - 1])) else None
  }

  lemma LastAct(start: Plane, actions: seq<Action>, p: Plane) returns (before: Plane)
    requires actions != [] && Acts(start, actions) == Some(p)
    ensures Acts(start, actions[..|actions| - 1]) == Some(before)
    ensures Possible(before, actions[|actions| - 1]) && p == After(before, actions[|actions| - 1])
  {
    before := Acts(start, actions[..|actions| - 1]).value;
  }

  // ---- What a round records --------------------------------------------------------------------------

  /** The candidates that the actions start, refused ones included. */
  function Started(actions: seq<Action>): seq<O.Candidate> {
    if actions == [] then []
    else
      var a := actions[|actions| - 1];
      Started(actions[..|actions| - 1]) + if a.Start? then [a.c] else []
  }

  /** The operators whose candidates were turned down. */
  function Refused(start: Plane, actions: seq<Action>): set<string>
    decreases |actions|
  {
    if actions == [] then {}
    else
      var init, a := actions[..|actions| - 1], actions[|actions| - 1];
      Refused(start, init)
        + match Acts(start, init)
          case None => {}
          case Some(p) => if Refuses(p, a) then {a.c.op} else {}
  }

  lemma {:induction false} AcceptedAgree(cs: seq<O.Candidate>, a: set<string>, b: set<string>)
    requires forall c :: c in cs ==> (c.op in a <==> c.op in b)
    ensures O.Accepted(cs, a) == O.Accepted(cs, b)
  {
    if cs != [] {
      AcceptedAgree(cs[..|cs| - 1], a, b);
    }
  }

  lemma {:induction false} RefusedWereStarted(start: Plane, actions: seq<Action>, op: string)
    requires op in Refused(start, actions)
    ensures exists c :: c in Started(actions) && c.op == op
    decreases |actions|
  {
    var init, a := actions[..|actions| - 1], actions[|actions| - 1];
    if op in Refused(start, init) {
      RefusedWereStarted(start, init, op);
      var c :| c in Started(init) && c.op == op;
      assert c in Started(actions);
    } else {
      assert a.c in Started(actions);
    }
  }

  lemma AcceptedSnoc(cs: seq<O.Candidate>, c: O.Candidate, refused: set<string>)
    ensures O.Accepted(cs + [c], refused) == O.Accepted(cs, refused) + if c.op in refused then [] else [c]
  {
    assert (cs + [c])[..|cs|] == cs;
  }

  lemma RecordedSnoc(current: map<string, string>, cs: seq<O.Candidate>, c: O.Candidate)
    ensures O.Recorded(current, cs + [c]) == O.Recorded(current, cs)[c.op := c.target]
  {
    assert (cs + [c])[..|cs|] == cs;
  }

  lemma DistinctInit(cs: seq<O.Candidate>, c: O.Candidate)
    requires Distinct(O.Operators(cs + [c]))
    ensures Distinct(O.Operators(cs)) && forall d :: d in cs ==> d.op != c.op
  {
    var all := O.Operators(cs + [c]);
    assert all == O.Operators(cs) + [c.op];
    forall d | d in cs
      ensures d.op != c.op
    {
      var k := PositionOf(cs, d);
      assert all[k] == d.op && all[|cs|] == c.op;
    }
    forall i, j | 0 <= i < j < |cs|
      ensures O.Operators(cs)[i] != O.Operators(cs)[j]
    {
      assert all[i] == O.Operators(cs)[i] && all[j] == O.Operators(cs)[j];
    }
  }

  lemma {:induction false} ActsRecord(start: Plane, actions: seq<Action>, p: Plane)
    requires Acts(start, actions) == Some(p) && Distinct(O.Operators(Started(actions)))
    ensures p.recorded == O.Recorded(start.recorded, O.Accepted(Started(actions), Refused(start, actions)))
    decreases |actions|
  {
    if actions != [] {
      var init, a := actions[..|actions| - 1], actions[|actions| - 1];
      var before := LastAct(start, actions, p);
      var cs, refused := Started(init), Refused(start, actions);
      if a.Net? {
        assert Started(actions) == cs && refused == Refused(start, init);
        ActsRecord(start, init, before);
      } else {
        DistinctInit(cs, a.c);
        ActsRecord(start, init, before);
        forall c | c in cs
          ensures c.op in refused <==> c.op in Refused(start, init)
        {
        }
        AcceptedAgree(cs, refused, Refused(start, init));
        AcceptedSnoc(cs, a.c, refused);
        if Refuses(before, a) {
          assert a.c.op in refused;
        } else {
          if a.c.op in refused {
            RefusedWereStarted(start, init, a.c.op);
          }
          RecordedSnoc(start.recorded, O.Accepted(cs, refused), a.c);
        }
      }
    }
  }

  /**
    A round that starts its candidates one by one, with anything happening to other migrations in
    between, records what the round records when nothing interferes and the same are refused.
   */
  lemma RoundRecords(s: O.Setting, start: Plane, actions: seq<Action>, p: Plane)
    requires T.Posed(s.p) && Acts(start, actions) == Some(p) && Started(actions) == s.Candidates(start.recorded)
    ensures p.recorded == s.After(start.recorded, Refused(start, actions))
  {
    O.CandidatesDistinct(s, start.recorded);
    ActsRecord(start, actions, p);
  }

  // ---- When the recorded tier is the hosting tier ---------------------------------------------------------

  function Begin(heas: set<string>, hosted: set<(string, string)>, recorded: map<string, string>): Plane {
    Plane(Initial(heas, hosted), recorded, map[])
  }

  function Events(actions: seq<Action>): (events: seq<Event>)
    ensures |events| == |actions| && forall k :: 0 <= k < |actions| ==> events[k] == EventOf(actions[k])
  {
    Map(EventOf, actions)
  }

  /** The migrations of a run with rounds are a run of migrations. */
  lemma {:induction false} ActsLead(heas: set<string>, hosted: set<(string, string)>, recorded: map<string, string>,
                                    actions: seq<Action>, p: Plane)
    requires Acts(Begin(heas, hosted, recorded), actions) == Some(p)
    ensures Leads(heas, hosted, Events(actions), p.world)
    decreases |actions|
  {
    if actions != [] {
      var before := LastAct(Begin(heas, hosted, recorded), actions, p);
      ActsLead(heas, hosted, recorded, actions[..|actions| - 1], before);
      assert Events(actions)[..|actions| - 1] == Events(actions[..|actions| - 1]);
    }
  }

  /** The latest migration of an operator carries its recorded tier, and no other one is open. */
  ghost predicate LatestKnown(p: Plane) {
    && (forall op :: op in p.latest ==>
          && p.latest[op] in p.world.migrations && op in p.recorded
          && TargetOf(p.world.migrations[p.latest[op]]) == (op, p.recorded[op]))
    && (forall op :: op in p.world.active ==> op in p.latest && p.latest[op] == p.world.active[op])
  }

  /** An incarnation that a migration restored runs at that migration's target until it is ended. */
  ghost predicate RestoredKnown(w: World) {
    && (forall q :: q in w.hosted && w.hosted[q].RestoredBy? ==>
          w.hosted[q].id in w.migrations && q == TargetOf(w.migrations[w.hosted[q].id]))
    && (forall id :: id in w.restored ==> id in w.migrations && (RestoredBy(id) in w.ended || RunsAtTarget(w, id)))
  }

  predicate RunsAtTarget(w: World, id: string) {
    id in w.migrations && TargetOf(w.migrations[id]) in w.hosted
      && w.hosted[TargetOf(w.migrations[id])] == RestoredBy(id)
  }

  lemma LatestKnownStart(p: Plane, a: Action)
    requires Orderly(p.world) && LatestKnown(p) && Possible(p, a) && a.Start?
    ensures LatestKnown(After(p, a))
  {
    FreshId(p.world);
  }

  lemma LatestKnownNet(p: Plane, a: Action)
    requires Orderly(p.world) && LatestKnown(p) && Possible(p, a) && a.Net?
    ensures LatestKnown(After(p, a))
  {
    forall op | op in p.latest
      ensures p.latest[op] in After(p, a).world.migrations
      ensures TargetOf(After(p, a).world.migrations[p.latest[op]]) == TargetOf(p.world.migrations[p.latest[op]])
    {
      MigrationStays(p.world, a.e, p.latest[op]);
    }
    ActiveShrinks(p.world, a.e);
  }

  lemma ActiveShrinks(w: World, e: Event)
    requires Enabled(w, e) && !e.Migrate?
    ensures forall op :: op in Next(w, e).active ==> op in w.active && Next(w, e).active[op] == w.active[op]
  {
  }

  lemma RestoredKnownServer(w: World, e: Event)
    requires Tidy(w) && RestoredKnown(w) && Enabled(w, e) && (e.HostAtTarget? || e.StopAtSource?)
    ensures RestoredKnown(Next(w, e))
  {
    var w' := Next(w, e);
    ServersKeepMigrations(w, e);
    forall id | id in w'.restored
      ensures RestoredBy(id) in w'.ended || RunsAtTarget(w', id)
    {
      if id in w.restored {
        StillKnown(w, e, id);
      }
    }
  }

  lemma StillKnown(w: World, e: Event, id: string)
    requires Tidy(w) && RestoredKnown(w) && Enabled(w, e) && (e.HostAtTarget? || e.StopAtSource?) && id in w.restored
    ensures RestoredBy(id) in Next(w, e).ended || RunsAtTarget(Next(w, e), id)
  {
    ServersKeepMigrations(w, e);
    if RestoredBy(id) in w.ended {
      EndedStays(w, e, RestoredBy(id));
    }
  }

  lemma RestoredKnownOther(w: World, e: Event)
    requires Tidy(w) && RestoredKnown(w) && Enabled(w, e) && !e.HostAtTarget? && !e.StopAtSource?
    ensures RestoredKnown(Next(w, e))
  {
    OthersKeepPlaces(w, e);
    forall id | id in w.migrations
      ensures id in Next(w, e).migrations && TargetOf(Next(w, e).migrations[id]) == TargetOf(w.migrations[id])
    {
      MigrationStays(w, e, id);
    }
    SamePlacesKnown(w, Next(w, e));
  }

  lemma SamePlacesKnown(w: World, w': World)
    requires RestoredKnown(w) && w'.hosted == w.hosted && w'.ended == w.ended && w'.restored == w.restored
    requires forall id :: id in w.migrations ==>
        id in w'.migrations && TargetOf(w'.migrations[id]) == TargetOf(w.migrations[id])
    ensures RestoredKnown(w')
  {
    forall id | id in w'.restored
      ensures RestoredBy(id) in w'.ended || RunsAtTarget(w', id)
    {
      assert RunsAtTarget(w, id) ==> RunsAtTarget(w', id);
    }
  }

  lemma RestoredKnownStep(w: World, e: Event)
    requires Tidy(w) && RestoredKnown(w) && Enabled(w, e)
    ensures RestoredKnown(Next(w, e))
  {
    if e.HostAtTarget? || e.StopAtSource? {
      RestoredKnownServer(w, e);
    } else {
      RestoredKnownOther(w, e);
    }
  }

  lemma {:induction false} AlwaysKnown(heas: set<string>, hosted: set<(string, string)>, recorded: map<string, string>,
                                       actions: seq<Action>, p: Plane)
    requires Acts(Begin(heas, hosted, recorded), actions) == Some(p)
    ensures Tidy(p.world) && LatestKnown(p) && RestoredKnown(p.world)
    decreases |actions|
  {
    ActsLead(heas, hosted, recorded, actions, p);
    AlwaysTidy(heas, hosted, Events(actions), p.world);
    if actions != [] {
      var init, a := actions[..|actions| - 1], actions[|actions| - 1];
      var before := LastAct(Begin(heas, hosted, recorded), actions, p);
      AlwaysKnown(heas, hosted, recorded, init, before);
      RestoredKnownStep(before.world, EventOf(a));
      if a.Start? {
        LatestKnownStart(before, a);
      } else {
        LatestKnownNet(before, a);
      }
    }
  }

  /**
    In every run of rounds and migrations, the recorded tier of an operator runs what its latest
    migration restored exactly if that restore has taken effect and nothing has ended it since.
    After a migration that failed, timed out or did not restore, the record is ahead of the truth.
   */
  lemma RecordedTierHostsIff(heas: set<string>, hosted: set<(string, string)>, recorded: map<string, string>,
                             actions: seq<Action>, p: Plane, op: string)
    requires Acts(Begin(heas, hosted, recorded), actions) == Some(p) && op in p.latest
    ensures op in p.recorded
    ensures ((op, p.recorded[op]) in p.world.hosted && p.world.hosted[(op, p.recorded[op])] == RestoredBy(p.latest[op]))
       <==> p.latest[op] in p.world.restored && RestoredBy(p.latest[op]) !in p.world.ended
  {
    AlwaysKnown(heas, hosted, recorded, actions, p);
  }

  // ---- Prompt runs --------------------------------------------------------------------------------------------

  predicate PromptAction(p: Plane, a: Action) {
    Prompt(p.world, EventOf(a))
  }

  ghost predicate PromptActions(start: Plane, actions: seq<Action>)
    decreases |actions|
  {
    actions != [] ==>
      && PromptActions(start, actions[..|actions| - 1])
      && match Acts(start, actions[..|actions| - 1])
         case None => true
         case Some(p) => PromptAction(p, actions[|actions| - 1])
  }

  /** Open migrations change tiers, and no latest incarnation has been ended. */
  ghost predicate LatestRuns(p: Plane) {
    && (forall id :: Open(p.world, id) ==> p.world.migrations[id].source != p.world.migrations[id].target)
    && (forall op :: op in p.latest ==> RestoredBy(p.latest[op]) !in p.world.ended)
  }

  /** A prompt terminate does not hit what the latest migration of an operator restored. */
  lemma StopSparesLatest(p: Plane, id: string, op: string)
    requires Tidy(p.world) && LatestKnown(p) && RestoredKnown(p.world) && LatestRuns(p)
    requires Enabled(p.world, StopAtSource(id)) && Open(p.world, id) && op in p.latest
    ensures RestoredBy(p.latest[op]) !in Next(p.world, StopAtSource(id)).ended
  {
    if op == p.world.migrations[id].operatorId {
      assert p.world.active[op] == id;
    }
  }

  lemma OpensKept(w: World, e: Event)
    requires Orderly(w) && Enabled(w, e) && Prompt(w, e)
    requires forall id :: Open(w, id) ==> w.migrations[id].source != w.migrations[id].target
    ensures forall id :: Open(Next(w, e), id) ==> Next(w, e).migrations[id].source != Next(w, e).migrations[id].target
  {
    forall id | Open(Next(w, e), id)
      ensures Next(w, e).migrations[id].source != Next(w, e).migrations[id].target
    {
      if id in w.migrations {
        OpenBefore(w, e, id);
        MigrationStays(w, e, id);
      }
    }
  }

  lemma NewIsNotEnded(p: Plane, a: Action)
    requires Tidy(p.world) && RestoredKnown(p.world) && Possible(p, a) && a.Start? && !Refuses(p, a)
    ensures After(p, a).world.ended == p.world.ended
    ensures RestoredBy(After(p, a).latest[a.c.op]) !in p.world.ended
  {
    FreshId(p.world);
  }

  lemma LatestRunsStep(p: Plane, a: Action)
    requires Tidy(p.world) && LatestKnown(p) && RestoredKnown(p.world) && LatestRuns(p)
    requires Possible(p, a) && PromptAction(p, a)
    ensures LatestRuns(After(p, a))
  {
    var p' := After(p, a);
    OpensKept(p.world, EventOf(a));
    forall op | op in p'.latest
      ensures RestoredBy(p'.latest[op]) !in p'.world.ended
    {
      if a.Start? {
        if !Refuses(p, a) {
          NewIsNotEnded(p, a);
        }
      } else if a.e.StopAtSource? {
        StopSparesLatest(p, a.e.id, op);
      } else if !a.e.HostAtTarget? {
        OthersKeepPlaces(p.world, a.e);
      }
    }
  }

  lemma {:induction false} PromptLatestRuns(heas: set<string>, hosted: set<(string, string)>,
                                            recorded: map<string, string>, actions: seq<Action>, p: Plane)
    requires Acts(Begin(heas, hosted, recorded), actions) == Some(p)
    requires PromptActions(Begin(heas, hosted, recorded), actions)
    ensures LatestRuns(p)
    decreases |actions|
  {
    if actions != [] {
      var init := actions[..|actions| - 1];
      var before := LastAct(Begin(heas, hosted, recorded), actions, p);
      PromptLatestRuns(heas, hosted, recorded, init, before);
      AlwaysKnown(heas, hosted, recorded, init, before);
      LatestRunsStep(before, actions[|actions| - 1]);
    }
  }

  /**
    Where requests take effect while their migration is open and restores go to tiers without the
    operator: the recorded tier runs what the latest migration restored exactly if its restore has
    taken effect, whatever the migration's own outcome was.
   */
  lemma PromptRecordedTierHostsIff(heas: set<string>, hosted: set<(string, string)>, recorded: map<string, string>,
                                   actions: seq<Action>, p: Plane, op: string)
    requires Acts(Begin(heas, hosted, recorded), actions) == Some(p) && op in p.latest
    requires PromptActions(Begin(heas, hosted, recorded), actions)
    ensures op in p.recorded
    ensures ((op, p.recorded[op]) in p.world.hosted && p.world.hosted[(op, p.recorded[op])] == RestoredBy(p.latest[op]))
       <==> p.latest[op] in p.world.restored
  {
    RecordedTierHostsIff(heas, hosted, recorded, actions, p, op);
    PromptLatestRuns(heas, hosted, recorded, actions, p);
  }
}
