/** The congestion-wave detector across traffic zones. */
module PatternDetectorModel {
  import opened Wrappers
  import opened Values
  import opened Sequences
  import opened Streams
  import opened OnlineStats

  const DENSITIES_KEPT: nat := 20

  /** A dictionary of bounded histories: its keys in insertion order, and the history under each. */
  datatype Zones = Zones(order: seq<string>, history: map<string, seq<real>>) {

    ghost predicate Valid() {
      && Distinct(order)
      && (forall z :: z in order <==> z in history)
      && forall z :: z in history ==> |history[z]| <= DENSITIES_KEPT
    }

    /** Creates the zone's deque if need be and appends to it. */
    function With(zone: string, density: real): Zones {
      var kept := if zone in history then history[zone] else [];
      Zones(if zone in history then order else order + [zone], history[zone := Push(kept, density, DENSITIES_KEPT)])
    }

    function Put(zone: string, densities: seq<real>): Zones {
      Zones(if zone in history then order else order + [zone], history[zone := LastN(densities, DENSITIES_KEPT)])
    }

    /** The zone has a latest density, above the threshold. */
    predicate Congested(zone: string, threshold: real) {
      zone in history && history[zone] != [] && history[zone][|history[zone]| - 1] > threshold
    }

    /** The congested ones of the first `n` zones, in order. */
    function CongestedAmong(n: nat, threshold: real): seq<string>
      requires n <= |order|
    {
      if n == 0 then []
      else
        CongestedAmong(n - 1, threshold) + if Congested(order[n - 1], threshold) then [order[n - 1]] else []
    }

    function Entries(): seq<(Value, Value)> {
      seq(|order|, i requires 0 <= i < |order| =>
        (Text(order[i]), ListOf(if order[i] in history then history[order[i]] else [])))
    }
  }

  const NO_ZONES := Zones([], map[])

  /** The operator's fields. */
  datatype State = State(threshold: real, zones: Zones, incidents: nat) {

    /** `get_state`. */
    function Saved(): Fields {
      map["congestion_threshold" := Decimal(threshold), "zone_history" := Mapped(zones.Entries()),
          "incident_count" := Whole(incidents)]
    }
  }

  /** The emitted record; its severity is the number of zones. */
  datatype Wave = Wave(zones: seq<string>, incidents: nat, severity: nat, timestamp: real)

  function Initial(threshold: real): State {
    State(threshold, NO_ZONES, 0)
  }

  function ZoneOf(r: Record): string {
    r.Label("zone_id", "unknown")
  }

  function DensityOf(r: Record): real {
    r.Number("density", 0.0)
  }

  /** `process`. */
  function Step(s: State, r: Record): (State, seq<Wave>) {
    var zones := s.zones.With(ZoneOf(r), DensityOf(r));
    var congested := zones.CongestedAmong(|zones.order|, s.threshold);
    if |congested| >= 3 then
      (State(s.threshold, zones, s.incidents + 1),
       [Wave(congested, s.incidents + 1, |congested|, r.Number("timestamp", 0.0))])
    else (State(s.threshold, zones, s.incidents), [])
  }

  /** The dictionary rebuilt from saved entries. */
  function ZonesIn(entries: seq<(Value, Value)>): Result<Zones, Misfit> {
    if entries == [] then Success(NO_ZONES)
    else
      var earlier := ZonesIn(entries[..|entries| - 1]);
      var entry := entries[|entries| - 1];
      var densities := AsReals(entry.1);
      if earlier.Failure? then earlier
      else if !entry.0.Text? then Failure(NotText)
      else if densities.Failure? then Failure(densities.error)
      else Success(earlier.value.Put(entry.0.text, densities.value))
  }

  function AsZones(v: Value): Result<Zones, Misfit> {
    if v.Mapped? then ZonesIn(v.entries) else Failure(NotAMapping)
  }

  /** `restore_state`. */
  function Restored(s: State, saved: Fields): Result<State, Misfit> {
    var threshold := AsReal(Get(saved, "congestion_threshold", Decimal(0.7)));
    var incidents := AsNat(Get(saved, "incident_count", Whole(0)));
    var zones := AsZones(Get(saved, "zone_history", Mapped([])));
    if threshold.Failure? then Failure(threshold.error)
    else if incidents.Failure? then Failure(incidents.error)
    else if zones.Failure? then Failure(zones.error)
    else Success(State(threshold.value, zones.value, incidents.value))
  }

  class PatternDetector {
    var threshold: real
    var zones: Zones
    var incidents: nat

    ghost function Current(): State
      reads this
    {
      State(threshold, zones, incidents)
    }

    constructor (threshold: real)
      ensures Current() == Initial(threshold)
    {
      this.threshold, zones, incidents := threshold, NO_ZONES, 0;
    }

    method Process(record: Record) returns (out: seq<Wave>)
      modifies this
      ensures (Current(), out) == Step(old(Current()), record)
    {
      var zone, density := record.Label("zone_id", "unknown"), record.Number("density", 0.0);
      if zone !in zones.history {
        zones := Zones(zones.order + [zone], zones.history[zone := []]);
      }
      zones := zones.(history := zones.history[zone := Push(zones.history[zone], density, DENSITIES_KEPT)]);
      assert zones == old(zones).With(zone, density);
      var congested := [];
      for n := 0 to |zones.order|
        invariant congested == zones.CongestedAmong(n, threshold)
      {
        if zones.Congested(zones.order[n], threshold) {
          congested := congested + [zones.order[n]];
        }
      }
      out := [];
      if |congested| >= 3 {
        incidents := incidents + 1;
        out := [Wave(congested, incidents, |congested|, record.Number("timestamp", 0.0))];
      }
    }

    method GetState() returns (state: Fields)
      ensures state == Current().Saved()
    {
      state := map["congestion_threshold" := Decimal(threshold), "zone_history" := Mapped(zones.Entries()),
                   "incident_count" := Whole(incidents)];
    }

    method RestoreState(state: Fields) returns (raised: Option<Misfit>)
      modifies this
      ensures raised.None? <==> Restored(old(Current()), state).Success?
      ensures raised.None? ==> Current() == Restored(old(Current()), state).value
      ensures raised.Some? ==> Restored(old(Current()), state) == Failure(raised.value)
    {
      var x := AsReal(Get(state, "congestion_threshold", Decimal(0.7)));
      if x.Failure? { return Some(x.error); }
      threshold := x.value;
      var n := AsNat(Get(state, "incident_count", Whole(0)));
      if n.Failure? { return Some(n.error); }
      incidents := n.value;
      var z := AsZones(Get(state, "zone_history", Mapped([])));
      if z.Failure? { return Some(z.error); }
      zones := z.value;
      raised := None;
    }
  }

  // ---- what is remembered and reported ----

  /** The zones of an input in order of first appearance. */
  function FirstSeen(input: seq<Record>): seq<string> {
    if input == [] then []
    else
      var earlier, zone := FirstSeen(input[..|input| - 1]), ZoneOf(input[|input| - 1]);
      if zone in earlier then earlier else earlier + [zone]
  }

  /** The densities an input reports for a zone. */
  function Densities(input: seq<Record>, zone: string): seq<real> {
    if input == [] then []
    else
      var earlier, r := Densities(input[..|input| - 1], zone), input[|input| - 1];
      if ZoneOf(r) == zone then earlier + [DensityOf(r)] else earlier
  }

  /** How many waves a run has emitted. */
  function WaveCount(outs: seq<seq<Wave>>): nat {
    if outs == [] then 0 else WaveCount(outs[..|outs| - 1]) + |outs[|outs| - 1]|
  }

  /** The dictionary of an input: its zones in first-seen order with their last twenty densities. */
  ghost predicate Remembers(zones: Zones, input: seq<Record>) {
    && zones.Valid()
    && zones.order == FirstSeen(input)
    && forall z :: z in zones.history ==> zones.history[z] == LastN(Densities(input, z), DENSITIES_KEPT)
  }

  lemma {:induction false} SeenIffDense(input: seq<Record>, zone: string)
    ensures zone in FirstSeen(input) <==> Densities(input, zone) != []
  {
    if input != [] {
      SeenIffDense(input[..|input| - 1], zone);
    }
  }

  lemma RemembersOneMore(zones: Zones, input: seq<Record>)
    requires input != [] && Remembers(zones, input[..|input| - 1])
    ensures var r := input[|input| - 1];
            Remembers(zones.With(ZoneOf(r), DensityOf(r)), input)
  {
    var init, r := input[..|input| - 1], input[|input| - 1];
    var zone := ZoneOf(r);
    SeenIffDense(init, zone);
    PushKeepsLast(Densities(init, zone), DensityOf(r), DENSITIES_KEPT);
    var next := zones.With(zone, DensityOf(r));
    assert next.history[zone] == LastN(Densities(input, zone), DENSITIES_KEPT);
    assert forall z :: z in next.order <==> z == zone || z in zones.order;
  }

  lemma {:induction false} RunRemembers(threshold: real, input: seq<Record>)
    ensures var s := Final(Step, Initial(threshold), input);
            && Remembers(s.zones, input)
            && s.threshold == threshold
            && s.incidents == WaveCount(Outputs(Step, Initial(threshold), input))
  {
    if input != [] {
      var init := input[..|input| - 1];
      RunRemembers(threshold, init);
      RemembersOneMore(Final(Step, Initial(threshold), init).zones, input);
      var outs := Outputs(Step, Initial(threshold), input);
      assert outs[..|outs| - 1] == Outputs(Step, Initial(threshold), init);
    }
  }

  /** The zone's latest density is above the threshold. */
  predicate LatestAbove(input: seq<Record>, zone: string, threshold: real) {
    var ds := Densities(input, zone);
    ds != [] && ds[|ds| - 1] > threshold
  }

  /** Those of `zones` whose latest density is above the threshold, in their order. */
  function AboveThreshold(input: seq<Record>, zones: seq<string>, threshold: real): seq<string> {
    if zones == [] then []
    else
      var z := zones[|zones| - 1];
      AboveThreshold(input, zones[..|zones| - 1], threshold) + if LatestAbove(input, z, threshold) then [z] else []
  }

  lemma CongestedIsAbove(zones: Zones, input: seq<Record>, zone: string, threshold: real)
    requires Remembers(zones, input) && zone in zones.order
    ensures zones.Congested(zone, threshold) <==> LatestAbove(input, zone, threshold)
  {
    assert zone in zones.history;
    LastOfLastN(Densities(input, zone), DENSITIES_KEPT);
  }

  lemma AboveWithNext(input: seq<Record>, order: seq<string>, n: nat, threshold: real)
    requires 0 < n <= |order|
    ensures AboveThreshold(input, order[..n], threshold)
         == AboveThreshold(input, order[..n - 1], threshold)
              + if LatestAbove(input, order[n - 1], threshold) then [order[n - 1]] else []
  {
    assert order[..n][..n - 1] == order[..n - 1];
  }

  lemma {:induction false} CongestedAreAbove(zones: Zones, input: seq<Record>, n: nat, threshold: real)
    requires Remembers(zones, input) && n <= |zones.order|
    ensures zones.CongestedAmong(n, threshold) == AboveThreshold(input, zones.order[..n], threshold)
  {
    if n > 0 {
      CongestedAreAbove(zones, input, n - 1, threshold);
      CongestedIsAbove(zones, input, zones.order[n - 1], threshold);
      AboveWithNext(input, zones.order, n, threshold);
    }
  }

  lemma LastOfLastN(xs: seq<real>, n: nat)
    requires n > 0
    ensures xs == [] <==> LastN(xs, n) == []
    ensures xs != [] ==> LastN(xs, n)[|LastN(xs, n)| - 1] == xs[|xs| - 1]
  {
  }

  /** The congested zones once record `r` is in. */
  function NowCongested(zones: Zones, r: Record, threshold: real): seq<string> {
    var next := zones.With(ZoneOf(r), DensityOf(r));
    next.CongestedAmong(|next.order|, threshold)
  }

  lemma CongestedOnceIn(zones: Zones, input: seq<Record>, r: Record, threshold: real)
    requires Remembers(zones, input)
    ensures NowCongested(zones, r, threshold) == AboveThreshold(input + [r], FirstSeen(input + [r]), threshold)
  {
    assert (input + [r])[..|input|] == input;
    RemembersOneMore(zones, input + [r]);
    var next := zones.With(ZoneOf(r), DensityOf(r));
    CongestedAreAbove(next, input + [r], |next.order|, threshold);
    assert next.order[..|next.order|] == FirstSeen(input + [r]);
  }

  /** The wave a detector that has emitted `emitted` ones sends when the zones `above` are congested. */
  function WaveFor(above: seq<string>, emitted: nat, r: Record): seq<Wave> {
    if |above| < 3 then [] else [Wave(above, emitted + 1, |above|, r.Number("timestamp", 0.0))]
  }

  lemma StepEmits(s: State, r: Record, above: seq<string>)
    requires above == NowCongested(s.zones, r, s.threshold)
    ensures Step(s, r).1 == WaveFor(above, s.incidents, r)
  {
  }

  /**
    A wave is emitted exactly when at least three of the zones seen so far have a latest
    density above the threshold; it names exactly those zones, in the order in which they
    were first seen, and numbers itself by the waves emitted so far.
   */
  lemma EmitsWaves(threshold: real, input: seq<Record>, r: Record)
    ensures Step(Final(Step, Initial(threshold), input), r).1
         == WaveFor(AboveThreshold(input + [r], FirstSeen(input + [r]), threshold),
                    WaveCount(Outputs(Step, Initial(threshold), input)), r)
  {
    var s := Final(Step, Initial(threshold), input);
    RunRemembers(threshold, input);
    CongestedOnceIn(s.zones, input, r, s.threshold);
    StepEmits(s, r, AboveThreshold(input + [r], FirstSeen(input + [r]), threshold));
  }

  // ---- restoring ----

  lemma StepStaysValid(s: State, r: Record)
    requires s.zones.Valid()
    ensures Step(s, r).0.zones.Valid()
  {
    var next := s.zones.With(ZoneOf(r), DensityOf(r));
    assert forall z :: z in next.order <==> z == ZoneOf(r) || z in s.zones.order;
  }

  /** The dictionary restricted to its first `n` keys. */
  function Prefix(zones: Zones, n: nat): Zones
    requires n <= |zones.order|
  {
    Zones(zones.order[..n], map z | z in zones.history && z in zones.order[..n] :: zones.history[z])
  }

  lemma PrefixGrows(zones: Zones, n: nat)
    requires zones.Valid() && 0 < n <= |zones.order|
    ensures zones.order[n - 1] in zones.history
    ensures Prefix(zones, n) == Prefix(zones, n - 1).Put(zones.order[n - 1], zones.history[zones.order[n - 1]])
  {
    var z := zones.order[n - 1];
    assert z in zones.order;
    assert z !in zones.order[..n - 1];
    assert zones.order[..n] == zones.order[..n - 1] + [z];
  }

  lemma {:induction false} EntriesRebuild(zones: Zones, n: nat)
    requires zones.Valid() && n <= |zones.order|
    ensures ZonesIn(zones.Entries()[..n]) == Success(Prefix(zones, n))
  {
    if n > 0 {
      EntriesRebuild(zones, n - 1);
      assert zones.Entries()[..n][..n - 1] == zones.Entries()[..n - 1];
      PrefixGrows(zones, n);
      RealsInListOf(zones.history[zones.order[n - 1]]);
    }
  }

  lemma ZonesRoundTrip(zones: Zones)
    requires zones.Valid()
    ensures AsZones(Mapped(zones.Entries())) == Success(zones)
  {
    EntriesRebuild(zones, |zones.order|);
    assert zones.Entries()[..|zones.order|] == zones.Entries();
    assert zones.order[..|zones.order|] == zones.order;
    assert Prefix(zones, |zones.order|) == zones;
  }

  /** What a new operator holds after restoring an empty dictionary. */
  const BLANK := Initial(0.7)

  lemma BlankIsRestoredNothing(target: State)
    ensures Restored(target, map[]) == Success(BLANK)
  {
  }

  /** What a projection onto `fields` restores: each covered field, and the defaults. */
  function Partly(s: State, fields: set<string>): State {
    State(if "congestion_threshold" in fields then s.threshold else 0.7,
          if "zone_history" in fields then s.zones else NO_ZONES,
          if "incident_count" in fields then s.incidents else 0)
  }

  lemma RestoresCovered(target: State, s: State, fields: set<string>)
    requires s.zones.Valid()
    ensures Restored(target, Projected(s.Saved(), fields)) == Success(Partly(s, fields))
  {
    var kept := Projected(s.Saved(), fields);
    assert Get(kept, "congestion_threshold", Decimal(0.7))
        == Decimal(if "congestion_threshold" in fields then s.threshold else 0.7);
    assert Get(kept, "incident_count", Whole(0)) == Whole(if "incident_count" in fields then s.incidents else 0);
    var zones := if "zone_history" in fields then s.zones else NO_ZONES;
    assert NO_ZONES.Entries() == [];
    assert Get(kept, "zone_history", Mapped([])) == Mapped(zones.Entries());
    ZonesRoundTrip(zones);
  }

  lemma AgreementByField(s: State, fields: set<string>)
    requires s.zones.Valid()
    ensures AgreeOutside(s.Saved(), BLANK.Saved(), fields) <==> Partly(s, fields) == s
  {
    var saved, blank := s.Saved(), BLANK.Saved();
    assert saved.Keys == {"congestion_threshold", "zone_history", "incident_count"} == blank.Keys;
    if AgreeOutside(saved, blank, fields) {
      assert "congestion_threshold" in saved && "zone_history" in saved && "incident_count" in saved;
      if "zone_history" !in fields {
        ZonesRoundTrip(s.zones);
        ZonesRoundTrip(NO_ZONES);
      }
    }
  }

  /** A projection restores the state exactly when every field it leaves out already had its default. */
  lemma RestoresIff(target: State, s: State, fields: set<string>)
    requires s.zones.Valid()
    ensures Restored(target, Projected(s.Saved(), fields)) == Success(s)
       <==> AgreeOutside(s.Saved(), BLANK.Saved(), fields)
  {
    RestoresCovered(target, s, fields);
    AgreementByField(s, fields);
  }
}
