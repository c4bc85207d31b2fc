/**
  What a restore hands over, and on how many tiers an operator runs.
 */
module PctrHosting {
  import opened Pctr
  import opened PctrRuns
  import opened PctrSurvival

  /** Restores and terminates that took effect were sent. */
  ghost predicate EffectsWereSent(w: World) {
    && (forall id :: id in w.restored ==> id in w.migrations)
    && (forall id :: id in w.stopped ==> id in w.migrations && |w.migrations[id].issued| == 4)
  }

  lemma EffectsStep(w: World, e: Event)
    requires Tidy(w) && EffectsWereSent(w) && Enabled(w, e)
    ensures EffectsWereSent(Next(w, e))
  {
    var w' := Next(w, e);
    OrderlyStep(w, e);
    forall id | id in w'.restored
      ensures id in w'.migrations
    {
      EffectKnown(w, e, id);
    }
    forall id | id in w'.stopped
      ensures id in w'.migrations && |w'.migrations[id].issued| == 4
    {
      if id in w.stopped {
        MigrationStays(w, e, id);
        assert w'.migrations[id].WellFormed(w'.heas);
      } else {
        TerminateIsFourth(w.migrations[id], w.heas);
      }
    }
  }

  lemma EffectKnown(w: World, e: Event, id: string)
    requires Tidy(w) && EffectsWereSent(w) && Enabled(w, e) && id in Next(w, e).restored
    ensures id in w.migrations && id in Next(w, e).migrations
  {
    MigrationStays(w, e, id);
  }

  lemma {:induction false} AlwaysSent(heas: set<string>, hosted: set<(string, string)>, events: seq<Event>, w: World)
    requires Leads(heas, hosted, events, w)
    ensures EffectsWereSent(w)
    decreases |events|
  {
    if events != [] {
      var before := LastStep(heas, hosted, events, w);
      AlwaysSent(heas, hosted, events[..|events| - 1], before);
      AlwaysTidy(heas, hosted, events[..|events| - 1], before);
      EffectsStep(before, events[|events| - 1]);
    }
  }

  // ---- What a restore hands over -------------------------------------------------------------

  lemma RestoreFindsSource(w: World, id: string)
    requires Tidy(w) && Guarded(w) && EffectsWereSent(w)
    requires Enabled(w, HostAtTarget(id)) && Prompt(w, HostAtTarget(id))
    ensures SourceOf(w.migrations[id]) in w.hosted && Backed(w, w.hosted[SourceOf(w.migrations[id])], id)
  {
    var m := w.migrations[id];
    RestoreIsThird(m, w.heas);
    if id in w.stopped {
      assert m.issued == PROTOCOL;
      assert PROTOCOL[3] == Terminate;
    }
    assert KeyOf(w, id).Some?;
    assert StillThere(w, id);
  }

  /**
    In prompt runs a restore hands the target the state of what its source still runs: the
    incarnation there is the one stored under the key that the restore request names.
   */
  lemma RestoreHandsOver(heas: set<string>, hosted: set<(string, string)>, events: seq<Event>, w: World, id: string)
    requires Leads(heas, hosted, events, w) && PromptRun(heas, hosted, events)
    requires Enabled(w, HostAtTarget(id)) && Prompt(w, HostAtTarget(id))
    ensures SourceOf(w.migrations[id]) in w.hosted
    ensures Backed(w, w.hosted[SourceOf(w.migrations[id])], id)
  {
    PromptIsGuarded(heas, hosted, events, w);
    AlwaysTidy(heas, hosted, events, w);
    AlwaysSent(heas, hosted, events, w);
    RestoreFindsSource(w, id);
  }

  // ---- On how many tiers -------------------------------------------------------------------------

  /** Where the operator runs. */
  function Hosts(w: World, op: string): set<(string, string)> {
    HostsIn(w.hosted, op)
  }

  function HostsIn(hosted: map<(string, string), Incarnation>, op: string): set<(string, string)> {
    set p | p in hosted && p.0 == op
  }

  /** The operator's migrations whose restore has taken effect. */
  function RestoredOf(w: World, op: string): set<string> {
    IdsOf(w.restored, w.migrations, op)
  }

  /** The operator's migrations whose terminate has taken effect. */
  function StoppedOf(w: World, op: string): set<string> {
    IdsOf(w.stopped, w.migrations, op)
  }

  function IdsOf(ids: set<string>, migrations: map<string, Migration>, op: string): set<string> {
    set id | id in ids && id in migrations && migrations[id].operatorId == op
  }

  ghost predicate Balanced(w: World, op: string, n: nat) {
    |Hosts(w, op)| + |StoppedOf(w, op)| == n + |RestoredOf(w, op)|
  }

  lemma OneHostMore(hosted: map<(string, string), Incarnation>, p: (string, string), i: Incarnation, op: string)
    requires p !in hosted
    ensures |HostsIn(hosted[p := i], op)| == |HostsIn(hosted, op)| + if p.0 == op then 1 else 0
  {
    assert HostsIn(hosted[p := i], op) == HostsIn(hosted, op) + if p.0 == op then {p} else {};
  }

  lemma OneHostLess(hosted: map<(string, string), Incarnation>, p: (string, string), op: string)
    requires p in hosted
    ensures |HostsIn(hosted, op)| == |HostsIn(hosted - {p}, op)| + if p.0 == op then 1 else 0
  {
    assert HostsIn(hosted, op) == HostsIn(hosted - {p}, op) + if p.0 == op then {p} else {};
  }

  lemma OneIdMore(ids: set<string>, migrations: map<string, Migration>, id: string, op: string)
    requires id in migrations && id !in ids
    ensures |IdsOf(ids + {id}, migrations, op)|
         == |IdsOf(ids, migrations, op)| + if migrations[id].operatorId == op then 1 else 0
  {
    assert IdsOf(ids + {id}, migrations, op)
        == IdsOf(ids, migrations, op) + if migrations[id].operatorId == op then {id} else {};
  }

  lemma SameIds(ids: set<string>, migrations: map<string, Migration>, later: map<string, Migration>, op: string)
    requires forall id :: id in ids ==> id in migrations && id in later
                                        && migrations[id].operatorId == later[id].operatorId
    ensures IdsOf(ids, later, op) == IdsOf(ids, migrations, op)
  {
  }

  lemma HostBalances(w: World, id: string, op: string, n: nat)
    requires Balanced(w, op, n) && Enabled(w, HostAtTarget(id)) && Prompt(w, HostAtTarget(id))
    ensures Balanced(Next(w, HostAtTarget(id)), op, n)
  {
    OneHostMore(w.hosted, TargetOf(w.migrations[id]), RestoredBy(id), op);
    OneIdMore(w.restored, w.migrations, id, op);
  }

  /** A terminate in time finds its operator. */
  lemma StopFindsSource(w: World, id: string)
    requires Tidy(w) && Guarded(w) && Enabled(w, StopAtSource(id)) && Prompt(w, StopAtSource(id))
    ensures SourceOf(w.migrations[id]) in w.hosted
  {
    TerminateIsFourth(w.migrations[id], w.heas);
    assert KeyOf(w, id).Some?;
    assert StillThere(w, id);
  }

  lemma StopBalances(w: World, id: string, op: string, n: nat)
    requires Balanced(w, op, n) && Enabled(w, StopAtSource(id)) && SourceOf(w.migrations[id]) in w.hosted
    ensures Balanced(Next(w, StopAtSource(id)), op, n)
  {
    OneHostLess(w.hosted, SourceOf(w.migrations[id]), op);
    OneIdMore(w.stopped, w.migrations, id, op);
  }

  lemma OthersBalance(w: World, e: Event, op: string, n: nat)
    requires Tidy(w) && EffectsWereSent(w) && Balanced(w, op, n) && Enabled(w, e)
    requires !e.HostAtTarget? && !e.StopAtSource?
    ensures Balanced(Next(w, e), op, n)
  {
    var w' := Next(w, e);
    PlacesUntouched(w, e);
    OwnersKept(w, e, w.restored);
    OwnersKept(w, e, w.stopped);
    SameIds(w.restored, w.migrations, w'.migrations, op);
    SameIds(w.stopped, w.migrations, w'.migrations, op);
  }

  lemma PlacesUntouched(w: World, e: Event)
    requires Enabled(w, e) && !e.HostAtTarget? && !e.StopAtSource?
    ensures Next(w, e).hosted == w.hosted && Next(w, e).restored == w.restored && Next(w, e).stopped == w.stopped
  {
  }

  lemma OwnersKept(w: World, e: Event, ids: set<string>)
    requires Tidy(w) && Enabled(w, e) && forall id :: id in ids ==> id in w.migrations
    ensures forall id :: id in ids ==> id in Next(w, e).migrations
                                       && w.migrations[id].operatorId == Next(w, e).migrations[id].operatorId
  {
    forall id | id in ids
      ensures id in Next(w, e).migrations && w.migrations[id].operatorId == Next(w, e).migrations[id].operatorId
    {
      MigrationStays(w, e, id);
    }
  }

  lemma {:induction false} AlwaysBalanced(heas: set<string>, hosted: set<(string, string)>, events: seq<Event>,
                                          w: World, op: string)
    requires Leads(heas, hosted, events, w) && PromptRun(heas, hosted, events)
    ensures Balanced(w, op, |Hosts(Initial(heas, hosted), op)|)
    decreases |events|
  {
    var start := Initial(heas, hosted);
    if events == [] {
      assert StoppedOf(w, op) == {} && RestoredOf(w, op) == {};
    } else {
      var n := |events| - 1;
      var before := LastStep(heas, hosted, events, w);
      PromptPrefix(heas, hosted, events, n);
      AlwaysBalanced(heas, hosted, events[..n], before, op);
      PromptIsGuarded(heas, hosted, events[..n], before);
      AlwaysTidy(heas, hosted, events[..n], before);
      AlwaysSent(heas, hosted, events[..n], before);
      assert PromptAt(heas, hosted, events, n);
      BalancedStep(before, events[n], op, |Hosts(start, op)|);
    }
  }

  lemma BalancedStep(w: World, e: Event, op: string, n: nat)
    requires Tidy(w) && Guarded(w) && EffectsWereSent(w) && Balanced(w, op, n) && Enabled(w, e) && Prompt(w, e)
    ensures Balanced(Next(w, e), op, n)
  {
    match e
    case HostAtTarget(id) => HostBalances(w, id, op, n);
    case StopAtSource(id) =>
      StopFindsSource(w, id);
      StopBalances(w, id, op, n);
    case _ => OthersBalance(w, e, op, n);
  }

  /**
    In prompt runs of an operator that starts on one tier: it runs on more than one tier exactly
    if more of its migrations have restored it than have stopped it, and on none exactly if fewer
    have, whatever failed or timed out.
   */
  lemma HostedOnceIff(heas: set<string>, hosted: set<(string, string)>, events: seq<Event>, w: World, op: string)
    requires Leads(heas, hosted, events, w) && PromptRun(heas, hosted, events)
    requires |Hosts(Initial(heas, hosted), op)| == 1
    ensures |Hosts(w, op)| > 1 <==> |RestoredOf(w, op)| > |StoppedOf(w, op)|
    ensures Hosts(w, op) == {} <==> |RestoredOf(w, op)| < |StoppedOf(w, op)|
  {
    AlwaysBalanced(heas, hosted, events, w, op);
  }
}
