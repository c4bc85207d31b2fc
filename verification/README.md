# HybridStream control plane and edge runtime: a Dafny model

HybridStream runs stream operators on edge agents (HEAs) and on Flink. A control plane (the
AODE) scores every operator on every tier, computes a placement, and moves operators with the
four-phase PCTR protocol: drain, snapshot, restore, terminate. This project models the decision
code and the state machines of that system and proves what they promise, for all inputs and all
interleavings. `dafny verify dfyconfig.toml` checks everything.

| file | what it models |
|---|---|
| `Dag.dfy` | the operator graph and its topological order |
| `Placement.dfy`, `PlacementTheorems.dfy` | the capacity-limited greedy allocator and its optimality |
| `Scoring.dfy`, `ScoringEffects.dfy` | telemetry, the score array, what its cells are worth |
| `Optimizer.dfy` | recalibration rounds with hysteresis and the recorded placement |
| `Pctr.dfy`, `PctrRuns.dfy`, `PctrRecords.dfy` | one migration as a state machine; all interleavings of many of them; what their records hold |
| `PctrSurvival.dfy`, `PctrHosting.dfy`, `PctrLosses.dfy` | what becomes of the state of every hosting of an operator; on how many tiers it runs; runs that lose it |
| `ControlPlane.dfy` | rounds and migrations together: recorded tier and hosting tier |
| `EdgeEngine.dfy`, `Checks.dfy`, `Backpressure.dfy`, `HighWater.dfy`, `SharedTopics.dfy` | the edge engine, what a check decides, how deep queues get, when the high-water bound holds |
| `Draining.dfy`, `QueuedOutputs.dfy`, `InlineOutputs.dfy`, `Reregistration.dfy` | drain before deregistration, over any number of lives of an operator; when outputs are kept |
| `OnlineStats.dfy` | Welford's moments, exponential averages, bounded windows, the 95th percentile |
| `StatAggregator.dfy`, `Normalizer.dfy`, `AnomalyDetector.dfy`, `FeatureWindow.dfy`, `VehicleDetector.dfy`, `PatternDetector.dfy` | the stateful operators |
| `HeaMetrics.dfy` | per-operator latency percentiles |
| `JavaStatAggregator.dfy` | the Java counterpart of the statistical aggregator |
| `Snapshots.dfy`, `FlinkReader.dfy` | the HSMP snapshot format, its Python writer and reader, its Java reader |
| `Operators.dfy`, `Resuming.dfy`, `StateMigration.dfy` | the operators' common interface, resuming a topic, migration as a whole |
| `JavaMigration.dfy` | a migration snapshot as the Flink connector receives it |
| `Values.dfy`, `Streams.dfy`, `Sequences.dfy`, `Sorting.dfy`, `Formatting.dfy`, `Wrappers.dfy` | shared vocabulary |

Objects whose methods update their fields are classes. Each method is tied to a function of the
old state, and the theorems are about runs of that function. A protocol with concurrency is a
step relation over events; an RPC is an event whose outcome is arbitrary. Numbers are real
numbers. A z-score and a standard deviation appear squared, which says the same because they are
never negative.

## What the code does differently from what it says

Where code and documentation part, the model follows the code.

- **Backpressure.** The high-water mark is meant to bound the queue depth: the mark plus one batch
  for each topic that feeds the operator. If every message decodes, that bound holds in all
  interleavings exactly if the mark is not negative and the low-water mark is at most one above it
  (or nothing is polled); the two marks are configured independently, and with a higher low-water
  mark a check above the high one resumes a paused topic (`HighWater.BoundHoldsIfDecodableIff`).
  A message that fails to decode makes the consumer loop skip its check and poll again, so then
  batches must have at most one message as well; larger ones pile up without limit
  (`HighWater.BoundHoldsIff`). What bounds the depth for any marks is the greatest depth at which a
  check leaves a topic free: the high-water mark or one below the low-water mark
  (`Backpressure.QueueDepthBounded`).
- **Shared topics.** A check goes through all operators bound to the topic, and each may pause or
  resume it again. With marks in order, an operator's queue on shared topics is bounded exactly if
  no other operator bound after it has a queue, or the low-water mark is not positive; otherwise a
  later operator that keeps up resumes the topic at every check and the depth has no bound
  (`Checks.PausedIff`, `SharedTopics.SharedBoundIff`).
- **Anomaly detection.** The squared z-score can never exceed 1/alpha, so a detector can flag
  something exactly when alpha times the squared threshold is below 1. The defaults, 0.2 and 3,
  give 1.8: a detector built with them never flags anything
  (`AnomalyDetectorModel.CanFlagIff`, `AnomalyDetectorModel.DefaultsNeverFlag`).
- **Restore.** The protocol does not look at the restore reply's success flag; there are runs
  that complete without error after which nobody hosts the operator
  (`PctrLosses.CompletesWithoutRestore`). The snapshot is still stored.
- **Late requests.** A migration that times out is forgotten, but its RPC may still take effect.
  If the operator has come back to the same tier by then, a late terminate ends it there and what
  it did since is stored nowhere (`PctrLosses.LateTerminateLosesState`).
  `PctrSurvival.StateSurvivesIff` says exactly which steps lose a state, and
  `PctrSurvival.PromptRunsLoseNothing` that none does if requests take effect while their
  migration is open, restores go to tiers without the operator and snapshot keys are new.
  A timeout between restore and terminate leaves the operator on both tiers
  (`PctrLosses.StaysOnTwoTiers`; `PctrHosting.HostedOnceIff` says exactly when).
- **Shipped schemas.** A snapshot keeps the schema's fields only, and no version 1 schema file
  lists a key that the operators save. Restoring through them resets the operator
  (`StateMigration.ShippedSchemaLosesState`). Transparency is proved for schemas that cover the
  state.
- **Window counter.** The window aggregator's emit counter is not saved; emissions go on
  unchanged exactly if it was zero (`FeatureWindowModel.SameEmissionsIff`).
- **Python to Java.** The Python aggregator saves a mean, the Java one reads a sum. After a
  migration the Java summaries are right exactly if the values seen so far add up to zero and the
  schema loses nothing else (`JavaMigration.AggregatorFollowsIff`).
- **Deregistration** waits for the worker queue only. The outputs of an operator that runs in a
  consumer loop are kept exactly if no loop was waiting for it whenever its routes were taken away
  (`InlineOutputs.InlineOutputsKeptIff`, with a losing run in `InlineOutputs.InlineOutputLost`).
- **Registering again.** Deregistration drains over any number of lives if each one begins after
  the last has ended (`Draining.DeregistrationDrains`). Registered again while a deregistration
  waits, an operator loses its new routes when that one ends (`Draining.RoutesOfRegistered`,
  `Reregistration.OverlapLosesOutput`); registered again while still registered, it gets a new
  queue and the next deregistration does not wait for the old one
  (`Reregistration.ReplacedQueueLosesOutput`). However registrations overlap, queued output is
  kept exactly if no queue of the operator ever holds records while the operator has no routes
  (`QueuedOutputs.QueuedOutputsKeptIff`). Bindings are never removed, so an operator registered
  twice gets every record twice (`Reregistration.HandedAsOftenAsRegistered`).
- **Placement** falls back to "cloud" without looking at its capacity
  (`PlacementTheorems.FallbackIffOverCommitted` says when). It is recorded when a migration
  starts, which is what the round theorems are about; the recorded tier hosts the operator exactly
  if the restore has taken effect and nothing has ended it since
  (`ControlPlane.RecordedTierHostsIff`).
- The snapshot's object key distinguishes sequence numbers, but the sequence number is the clock
  in whole seconds: two snapshots of one operator within a second share a key.

## Model

| member | source | states |
|---|---|---|
| DagModel.OperatorDag.TopologicalOrder | hybridstream-common/hybridstream/common/dag_model.py:39-57 | for every list of operators and edges: succeeds exactly if ids are distinct, all edges join known operators and there is no cycle; then the result is a permutation of the ids with every upstream before its downstream, in the order in which they became ready: roots as the table lists them, then by last upstream, siblings by their last edges; an edge into an unknown operator is the lookup error, and the loop terminates |
| DagModel.OperatorDag.CountEdges | hybridstream-common/hybridstream/common/dag_model.py:41-43 | the in-degree of every operator, duplicate edges counted, or the lookup error naming an unknown downstream of some edge |
| DagModel.OperatorDag.VisitDownstreams | hybridstream-common/hybridstream/common/dag_model.py:48-53 | emitting a node leaves each in-degree equal to the edges from nodes not emitted yet and queues exactly those that reached zero, once each, in the order of their last edges |
| DagModel.OperatorDag.TurnsGoOn | hybridstream-common/hybridstream/common/dag_model.py:45-53 | appending what a node made ready keeps the queue first ready, first out |
| DagModel.OperatorDag.FinishedOrder | hybridstream-common/hybridstream/common/dag_model.py:54-57 | with the queue empty, the length test succeeds exactly on well-formed acyclic graphs |
| DagModel.OperatorDag.BlockedGivesCycle | hybridstream-common/hybridstream/common/dag_model.py:55-56 | if every remaining operator waits for a remaining one, there is a cycle |
| Placement.FindOptimalPlacement | aode/aode/scoring/algorithm.py:81-110 | the loops return the serial allocation: operators by descending row minimum (ties in order), each on its cheapest tier with room (ties by index), else "cloud"; or they raise, for operators without any tier and otherwise for exactly the missing tier that is reached first |
| Placement.AssignOne | aode/aode/scoring/algorithm.py:94-108 | one operator takes the first tier in its preference with usage below capacity and adds one to that tier's usage only; it raises exactly if a tier without a capacity entry comes before one with room |
| Placement.Problem.LackingIsReached | aode/aode/scoring/algorithm.py:98-100 | for one operator: a missing tier is reached exactly if no tier before it in the preference has room |
| Placement.Problem.FirstLackingIff | aode/aode/scoring/algorithm.py:94-100 | the allocator raises for a missing tier exactly if some operator reaches one before a tier with room, given the choices made before it |
| Placement.Problem.ProcessingOrderFacts | aode/aode/scoring/algorithm.py:90-91 | the processing order is a permutation with row minima descending, ties in the given order |
| Placement.Problem.TierOrderFacts | aode/aode/scoring/algorithm.py:95-96 | an operator's tier order is by score, then by index, every tier once |
| PlacementTheorems.ChoiceIsBestWithRoom | aode/aode/scoring/algorithm.py:98-108 | the tier taken has room and no tier with room is better; the fallback means no tier had room |
| PlacementTheorems.PlacedOn | aode/aode/scoring/algorithm.py:98-108 | in the returned dictionary each operator is on the tier it took, or on "cloud" if it found every tier full |
| PlacementTheorems.PlacesExactly | aode/aode/scoring/algorithm.py:87-110 | exactly the operators are placed |
| PlacementTheorems.FallbackIffOverCommitted | aode/aode/scoring/algorithm.py:107-108 | some operator falls back exactly if total capacity is below the number of operators |
| PlacementTheorems.GreedyIsFeasible | aode/aode/scoring/algorithm.py:98-105 | with capacity for everyone, all operators are on listed tiers and no tier exceeds its capacity |
| PlacementTheorems.FeasibleNeedsCapacity | aode/aode/scoring/algorithm.py:98-105 | a capacity-respecting placement exists only if total capacity suffices |
| PlacementTheorems.GreedyIsLexicographicallyBest | aode/aode/scoring/algorithm.py:87-105 | for arbitrary scores: no capacity-respecting placement that agrees on everyone served earlier serves the next operator better |
| PlacementTheorems.GreedyIsParetoEfficient | aode/aode/scoring/algorithm.py:87-105 | a capacity-respecting placement at least as good for every operator is the same placement |
| PlacementTheorems.CheaperTiersAreFull | aode/aode/scoring/algorithm.py:90-105 | if total capacity suffices for everyone: a tier strictly cheaper for an operator than its own is full, with operators whose row minimum is at least this operator's |
| PlacementTheorems.CheapestFillIsOptimal | aode/aode/scoring/algorithm.py:94-105 | the exchange argument: filling cheaper columns first is cheapest among all ways to choose as many columns within the limits |
| PlacementTheorems.GreedyIsOptimal | aode/aode/scoring/algorithm.py:81-110 | for scores of the form a[i] + b[j] the placement has the least total score of all capacity-respecting placements |
| Scoring.TelemetryCollector.RegisterHea | aode/aode/telemetry/collector.py:42-54 | a new agent is added as unreachable at the end of the order; a known one keeps its report |
| Scoring.TelemetryCollector.Collected | aode/aode/telemetry/collector.py:119-122 | a collected report replaces that agent's report and no other |
| Scoring.TelemetryCollector.GetOperatorLatency | aode/aode/telemetry/collector.py:68-73 | the greatest latency that reachable agents report for the operator, none exactly if none reports it |
| Scoring.ScoringAlgorithm.ComputeScores | aode/aode/scoring/algorithm.py:18-46 | the array holds the weighted sum of the four terms for every operator and tier; it raises exactly if there is a tier and some operator's SLO cannot be divided by |
| ScoringEffects.CellIs | aode/aode/scoring/algorithm.py:31-78 | each cell is an operator part (class factor times latency, penalty for the overrun of the SLO) plus a tier part (queueing cost of the load, distance), in closed form |
| ScoringEffects.LatencyIs | aode/aode/scoring/algorithm.py:49-53 | the latency is the greatest one a reachable agent reports; where nobody reports one above zero it may be 1 ms |
| ScoringEffects.ClassesDifferBy | aode/aode/scoring/algorithm.py:48-53 | operators alike in latency and SLO differ, on every tier, by the weighted latency times the difference of their class factors 3, 1 and 0.1 |
| ScoringEffects.HigherClassScoresMore | aode/aode/scoring/algorithm.py:48-53 | of two operators with equal positive latency and equal SLO, and a positive latency weight, a critical one has the greater cell than a standard one and that than a batch one, on every tier; the latency parts are as 3 to 1 to 1/10; a missing or unknown class is standard |
| ScoringEffects.HigherClassServedFirst | aode/aode/scoring/algorithm.py:90-94 | the allocator then serves the operator of the higher class first |
| ScoringEffects.LessLoadIsCheaper | aode/aode/scoring/algorithm.py:55-59 | between tiers at the same distance the cheaper one, for every operator, is the one whose greater utilization, capped at 0.99, is less |
| ScoringEffects.DistancesDifferBy | aode/aode/scoring/algorithm.py:61-67 | tiers with the same load differ by the weighted difference of their distances; cloud has none |
| ScoringEffects.UnreachableScoresAs | aode/aode/scoring/algorithm.py:55-67 | a tier that cannot be reached scores as one with load 0.9 that is 1000 ms away |
| ScoringEffects.SloPartIsZeroIff | aode/aode/scoring/algorithm.py:69-78 | the SLO part is zero exactly if the latency is within the SLO, an hour if there is none |
| ScoringEffects.MissingTheSloCosts | aode/aode/scoring/algorithm.py:69-78 | missing the SLO costs the weighted penalty for the relative overrun, on every tier |
| Scoring.Situation.ScoresAreSeparable | aode/aode/scoring/algorithm.py:48-78 | the difference between two tiers' scores is the same for every operator |
| Scoring.Situation.OperatorsPreferAlike | aode/aode/scoring/algorithm.py:48-78 | all operators rank the tiers in the same order, whatever their latency, class and SLO |
| Scoring.Situation.ComputedPlacementIsOptimal | aode/aode/scoring/algorithm.py:18-110 | for every telemetry state, weighting and capacity table, the placement computed from the computed scores is feasible and has minimum total score whenever any placement is feasible |
| Optimizer.PlacementState.UpdateOperatorPlacement | aode/aode/placement/state.py:19-22 | the operator is on the tier, every other entry and the key order are kept |
| Optimizer.PlacementState.RemoveOperator | aode/aode/placement/state.py:24-27 | exactly that entry is gone |
| Optimizer.PlacementState.GetOperatorsOnTier | aode/aode/placement/state.py:32-33 | exactly the operators placed on the tier, each once, in key order |
| Optimizer.PlacementOptimizer.IdentifyMigrationCandidates | aode/aode/placement/optimizer.py:96-128 | the candidates, by descending gain, equal gains in operator order |
| Optimizer.PlacementOptimizer.Compare | aode/aode/placement/optimizer.py:107-125 | an operator is a candidate exactly if both tiers are known and differ and the gain reaches the threshold |
| Optimizer.PlacementOptimizer.RunOptimization | aode/aode/placement/optimizer.py:49-94 | with fewer than two tiers or no operators, or if scoring raises, nothing changes; otherwise exactly the candidates that are not refused start, by descending gain, and each is recorded on its target |
| Optimizer.PlacementOptimizer.StartMigrations | aode/aode/placement/optimizer.py:70-84 | exactly the candidates that are not refused start, in order, and each is recorded as it starts |
| Optimizer.CandidatesExactly | aode/aode/placement/optimizer.py:107-125 | sorting loses and adds no candidate |
| Optimizer.CandidateIff | aode/aode/placement/optimizer.py:107-125 | moving an operator from the tier it is on to the different one the allocator puts it on is a candidate, with the difference of the two scores, exactly if that reaches delta_h |
| Optimizer.CandidatesByGain | aode/aode/placement/optimizer.py:127 | candidates come by descending gain, equal gains in operator order |
| Optimizer.StartedByGain | aode/aode/placement/optimizer.py:70-84 | migrations are started in that order, whatever is refused |
| Optimizer.CandidatesDistinct | aode/aode/placement/optimizer.py:107-128 | with distinct operators no operator is a candidate twice |
| Optimizer.RoundEffect | aode/aode/placement/optimizer.py:71-84 | after a round an operator is on its computed tier if its migration started and where it was otherwise |
| Optimizer.MigratesAtMostOnce | aode/aode/placement/optimizer.py:49-128 | over any number of rounds with any refusals no operator is migrated twice |
| Optimizer.QuietAfterUncontestedRound | aode/aode/placement/optimizer.py:49-128 | after a round without refusals the next round has no candidates |
| Optimizer.RoundLowersCost | aode/aode/placement/optimizer.py:96-128 | a round lowers the total score by at least delta_h per started migration |
| Optimizer.RoundLoadBound | aode/aode/placement/optimizer.py:67-84 | if total capacity suffices for everyone: after a round a tier's load is at most its capacity plus the operators held back on it |
| Optimizer.HeldBackReason | aode/aode/placement/optimizer.py:110-125 | if total capacity suffices and no tier has an empty name: an operator held back was already there, and either its gain is below delta_h or its migration was refused |
| Optimizer.OneRoundIsNearOptimal | aode/aode/placement/optimizer.py:49-128 | for separable scores, tiers with names and a delta_h that is not negative: after one uncontested round from any known placement the total score is within delta_h per operator of every capacity-respecting placement |
| ControlPlane.RoundRecords | aode/aode/placement/optimizer.py:70-84 | a round that starts its candidates while migrations and servers go on records what the undisturbed round records with the same refusals |
| ControlPlane.RecordedTierHostsIff | aode/aode/placement/optimizer.py:70-84 | in every run of rounds and migrations the recorded tier runs what the latest migration restored exactly if that restore has taken effect and nothing has ended it since |
| ControlPlane.PromptRecordedTierHostsIff | aode/aode/placement/optimizer.py:70-84 | where requests take effect while their migration is open and restores go to free tiers, it does exactly if the restore has taken effect, whatever the migration reported |
| Pctr.MigrationIdsDiffer | aode/aode/migration/pctr.py:140-141 | different counter values give different ids, also past four digits |
| Pctr.MigrationIdIs | aode/aode/migration/pctr.py:140-141 | an id is "migration-" and the counter in at least four decimal digits |
| Pctr.PctrMigration.Begin | aode/aode/migration/pctr.py:61-66 | the drain RPC is sent to the source's agent, or the migration fails if there is none |
| Pctr.PctrMigration.Resume | aode/aode/migration/pctr.py:49-111 | each reply stores what it returned and sends the next RPC; an error reply, a raised error or a missing client ends the migration with an error |
| Pctr.PctrMigration.TimeOut | aode/aode/migration/pctr.py:156-161 | a timeout ends the migration with the timeout error wherever it stood |
| Pctr.PctrOrchestrator.MigrateOperator | aode/aode/migration/pctr.py:137-154 | refused, with a message that names the operator, exactly if it has an active migration; otherwise a new migration with an unused id is filed under it |
| Pctr.PctrOrchestrator.Close | aode/aode/migration/pctr.py:162-163 | the final pop removes the migration that ends and no other |
| PctrRuns.OneActiveMigrationPerOperator | aode/aode/migration/pctr.py:137-163 | in every interleaving two unclosed migrations of one operator are the same, filed under that operator |
| PctrRuns.CloseRemovesItself | aode/aode/migration/pctr.py:156-163 | in every interleaving the pop removes exactly the closing migration |
| PctrRuns.RequestsGetNewIds | aode/aode/migration/pctr.py:137-154 | an accepted request gets an id that no earlier migration of the run has, and changes no other migration |
| PctrRuns.PhasesInOrder | aode/aode/migration/pctr.py:49-111 | the RPCs of every migration are a prefix of drain, snapshot, restore, terminate; completed means all four and no error |
| PctrRuns.TerminateComesLast | aode/aode/migration/pctr.py:69-111 | terminate is sent only after an error-free snapshot reply and a later restore reply; completion also needs the source's confirmation |
| PctrRecords.HoldsWhatRepliesBrought | aode/aode/migration/pctr.py:61-84 | in every run a migration holds exactly the offsets of the drain reply it got, none where there was no reply or it had none, and the key and size of the error-free snapshot reply it got |
| PctrRecords.RepliesAreFinal | aode/aode/migration/pctr.py:61-99 | once the snapshot request is out its offsets never change; once the restore request is out neither do the key it carries and the size |
| PctrRecords.PhaseIsShown | aode/aode/migration/pctr.py:61-102 | in every run a migration shows the phase it has entered last |
| PctrRecords.ErrorSaysWhy | aode/aode/migration/pctr.py:49-111 | in every run a migration's error is the text of the event that made it fail: a missing client, an error reply, a raised exception, the timeout |
| PctrSurvival.StateSurvivesIff | aode/aode/migration/pctr.py:49-111 | in every interleaving with any failures and timeouts, every incarnation of an operator that ever ran, at a source or a target, is running or held under the snapshot key of the migration that ended it, exactly if no terminate or restore ended an incarnation its migration's snapshot does not hold and no snapshot was written over one relied on |
| PctrSurvival.PromptRunsLoseNothing | aode/aode/migration/pctr.py:61-111 | if requests take effect while their migration is open, migrations change tiers, restores go to tiers without the operator and snapshot keys are new, every incarnation survives every run (such runs are called prompt below) |
| PctrLosses.LateTerminateLosesState | aode/aode/migration/pctr.py:156-163 | for every operator, two tiers and keys there is a run in which a terminate takes effect after its migration was given up and the operator has come back without error: nobody hosts it and its state is stored nowhere |
| PctrHosting.RestoreHandsOver | aode/aode/migration/pctr.py:69-99 | in prompt runs, when a restore takes effect the source still runs, and what it runs is stored under the key the restore request names |
| PctrHosting.HostedOnceIff | aode/aode/migration/pctr.py:85-111 | in prompt runs of an operator that starts on one tier: it runs on more than one tier exactly if more of its migrations have restored it than have stopped it, on none exactly if fewer have |
| PctrLosses.StaysOnTwoTiers | aode/aode/migration/pctr.py:156-163 | for every operator, two tiers and key there is a run that ends with the operator on both tiers, its only migration failed and closed |
| PctrLosses.CompletesWithoutRestore | aode/aode/migration/pctr.py:85-99 | for every operator, source and key there is a run that completes without error though the restore did not take effect and nobody hosts the operator |
| EdgeEngine.OperatorEngine.RegisterOperator | hea/hea/execution/engine.py:51-59 | the operator and its routes are entered; its topics are still to be bound |
| EdgeEngine.OperatorEngine.BindTopic | hea/hea/execution/engine.py:60-64 | the operator is appended to one topic's binding list, again if it is there already |
| EdgeEngine.OperatorEngine.FinishRegistration | hea/hea/execution/engine.py:65-71 | a CPU-bound operator gets a new queue, which replaces an earlier one in the table |
| EdgeEngine.OperatorEngine.DispatchNext | hea/hea/execution/engine.py:104-131 | the record goes to the next operator in the live binding list: to the worker queue of a CPU-bound one, into processing in the loop for others; unknown ones are skipped |
| EdgeEngine.OperatorEngine.CheckBackpressure | hea/hea/execution/engine.py:158-173 | the topic is paused above the high-water mark and resumed below the low one, over all its operators in turn |
| Checks.PausedIff | hea/hea/execution/engine.py:158-173 | for every binding list, with a low mark at most one above the high one: after a check the topic is paused exactly if some operator's queue is above high and no later one is below low, or it was paused and none is below low |
| Checks.PausedAfterCheck | hea/hea/execution/engine.py:158-173 | for any marks: the last operator on one side of the marks sets the flag and each later one between them turns it around; if there is none, all turn the old flag around |
| EdgeEngine.OperatorEngine.DeregisterOperator | hea/hea/execution/engine.py:73-78 | the operator and its queue leave the tables before the join, bindings stay; without a queue the routes go at once |
| EdgeEngine.OperatorEngine.FinishDeregistration | hea/hea/execution/engine.py:76-82 | once the join has returned the routes go |
| Backpressure.QueueDepthBounded | hea/hea/execution/engine.py:98-173 | in every interleaving, for an operator whose topics may feed others as long as no later one in their lists has a queue (or the low mark is not positive): the depth is at most the threshold (the greatest of the high-water mark, one below the low-water mark, and zero) plus one batch per feeding topic plus what abandoned batches let through |
| Backpressure.DepthBoundedWhenDecodable | hea/hea/execution/engine.py:98-173 | if every message decodes, the depth on such topics never exceeds the threshold plus k batches |
| Backpressure.DepthReaches | hea/hea/execution/engine.py:98-113 | with batches of two or more and messages that fail to decode, every depth is reached |
| HighWater.BoundHoldsIfDecodableIff | hea/hea/execution/engine.py:98-173 | for a fresh operator with topics whose messages all decode, depth stays within the high-water mark plus one batch per topic in all runs exactly if high is not negative and (batches are empty or low is at most high + 1) |
| HighWater.BoundHoldsIff | hea/hea/execution/engine.py:98-173 | whatever messages arrive, it does exactly if high is not negative and (batches are empty, or have at most one message and low is at most high + 1) |
| HighWater.Deepen | hea/hea/execution/engine.py:158-173 | with low above high + 1, every depth up to high + 1 is reached with all topics free to poll |
| SharedTopics.SharedBoundIff | hea/hea/execution/engine.py:98-173 | topics that feed several operators, marks in order, every message decodes: depth stays within the high-water mark plus one batch per topic in all runs exactly if no other operator bound after this one has a queue on any of its topics, or low is not positive |
| SharedTopics.AnyDepth | hea/hea/execution/engine.py:158-173 | otherwise every depth is reached: a later operator that keeps up has the topic resumed at every check |
| Draining.AlwaysQueuesOk | hea/hea/execution/engine.py:115-151 | in every run every queue is first in, first out: what was put is what was handled, what the worker holds and what waits, in this order |
| Draining.RoutesOfRegistered | hea/hea/execution/engine.py:51-82 | in every run a registered operator's output has somewhere to go exactly if no deregistration of it has ended since it was registered; then it goes to the topics it was registered with |
| Draining.DeregistrationDrains | hea/hea/execution/engine.py:73-82 | for an operator registered any number of times, each time while vacant: when a join returns, every record ever queued for it, in this life or an earlier one, has been handled once and in order, no queue of it holds anything, and what this life handled without raising went to its output topics |
| Draining.NothingQueuedAfterwards | hea/hea/execution/engine.py:115-131 | once deregistration has started nothing is queued for the operator unless it is registered again |
| Reregistration.OverlapLosesOutput | hea/hea/execution/engine.py:51-82 | for every operator registered again while its deregistration waits there is a run in which the second deregistration returns from its join although a record it waited for went nowhere |
| QueuedOutputs.QueuedOutputsKeptIff | hea/hea/execution/engine.py:51-156 | in every run, however registrations overlap: all that the operator's workers handled without raising went to the topics registered last exactly if no queue of it ever held records while it had no routes |
| QueuedOutputs.StuckByIff | hea/hea/execution/engine.py:73-131 | a queue gets into that state exactly by a deregistration that takes the routes while it holds records, or by a record put into it while there are none |
| Reregistration.ReplacedQueueLosesOutput | hea/hea/execution/engine.py:51-82 | for every operator registered again while still registered there is a run in which its deregistration is over at once and a record queued before goes nowhere |
| Reregistration.BoundAsOftenAsRegistered | hea/hea/execution/engine.py:60-64 | in every run a topic's binding list names an operator as often as it has been bound to the topic over all registrations |
| Reregistration.HandedAsOftenAsRegistered | hea/hea/execution/engine.py:104-131 | in every run, from its decoding until the loop goes on to the next message a record is handed to an operator as often as that, registrations in between included |
| Reregistration.ReceivedAsOftenAsRegistered | hea/hea/execution/engine.py:115-131 | an operator registered all the while receives the record that often: it stands last in its queue, or the loop is processing it |
| InlineOutputs.KeptWhileUndisturbed | hea/hea/execution/engine.py:126-156 | as long as no deregistration takes a cleanly registered operator's routes away while a loop waits for it, all it processed in the loops went, life by life, to the topics of its latest registration |
| InlineOutputs.InlineOutputsKeptIff | hea/hea/execution/engine.py:73-156 | and only as long, if every registration names an output topic, in runs where a record under way at that moment is finished before the operator is registered again |
| InlineOutputs.InlineOutputLost | hea/hea/execution/engine.py:73-82 | for every operator, topic, output and record there is a cleanly registered run in which the record's output goes nowhere instead |
| OnlineStats.MomentsAreBatchMoments | workloads/w3/stat_agg.py:34-37 | Welford's recurrence computes the batch count, mean and sum of squared deviations |
| OnlineStats.BlendBetween | workloads/w3/anomaly.py:36 | an exponential average stays between bounds on its start and inputs |
| OnlineStats.RunningIsBatch | workloads/w2/detector.py:37-38 | an exponential average is, in one piece, (1 - alpha)^n times the start plus alpha (1 - alpha)^(n-1-i) times each input |
| OnlineStats.P95IsLeast | workloads/w1/aggregator.py:39-41 | the reported percentile is a sample, and the values that at least 95% of the samples do not exceed are exactly those not below it |
| StatAggregatorModel.StatAggregator.Process | workloads/w3/stat_agg.py:31-52 | one record updates count, mean, m2, minimum and maximum and emits at multiples of 500 |
| StatAggregatorModel.StatAggregator.RestoreState | workloads/w3/stat_agg.py:64-70 | fields come from the dictionary or their defaults; a value that does not convert raises |
| StatAggregatorModel.AggregatesTheWholeInput | workloads/w3/stat_agg.py:31-39 | after any input the fields are the batch count, mean, squared deviations, minimum and maximum, and m2 is not negative |
| StatAggregatorModel.EmitsBatchFigures | workloads/w3/stat_agg.py:41-52 | a summary appears exactly at every 500th record, with the batch mean and sample variance of the input so far |
| StatAggregatorModel.RestoresIff | workloads/w3/stat_agg.py:54-70 | a projection of the saved state restores it exactly if every field left out had its default |
| NormalizerModel.NormalizerOperator.Process | workloads/w1/normalizer.py:31-50 | one record updates count, mean and variance and is passed on scored |
| NormalizerModel.NormalizesByPopulationVariance | workloads/w1/normalizer.py:34-38 | from one record on, mean and variance are the batch mean and population variance, whatever mean and variance the operator started with |
| NormalizerModel.EmitsBatchScore | workloads/w1/normalizer.py:40-50 | each record goes out with its distance from the batch mean and the floored population variance of the input up to it |
| NormalizerModel.RestoresIff | workloads/w1/normalizer.py:52-65 | a projection restores the state exactly if every field left out had its default |
| AnomalyDetectorModel.AnomalyDetector.Process | workloads/w3/anomaly.py:32-57 | one record updates the averages, the score deque and the anomaly count |
| AnomalyDetectorModel.MeanStaysInHull | workloads/w3/anomaly.py:36 | in every run the mean stays between any bounds on zero and the inputs |
| AnomalyDetectorModel.AveragesAreBatch | workloads/w3/anomaly.py:33-38 | after any input the mean is the batch average of the readings and m2 that of the squared distances of each from the average before it |
| AnomalyDetectorModel.ScoresAgainstBatch | workloads/w3/anomaly.py:40-57 | each record goes out with its squared distance from that average over the floored moment, flagged exactly if that exceeds the squared threshold, with the number flagged so far |
| AnomalyDetectorModel.RemembersScores | workloads/w3/anomaly.py:42-46 | the count is the number of records flagged and the deque holds the last hundred scores given |
| AnomalyDetectorModel.ScoreIsBounded | workloads/w3/anomaly.py:37-41 | alpha times the squared z-score never exceeds one |
| AnomalyDetectorModel.CanFlagIff | workloads/w3/anomaly.py:32-46 | from every reachable state some value is flagged exactly if alpha times the squared threshold is below one |
| AnomalyDetectorModel.DefaultsNeverFlag | workloads/w3/anomaly.py:16-46 | with the default weight and threshold no run ever counts an anomaly |
| AnomalyDetectorModel.RestoresIff | workloads/w3/anomaly.py:59-77 | a projection restores the state exactly if every field left out had its default |
| FeatureWindowModel.FeatureAggWindow.Process | workloads/w1/aggregator.py:30-53 | one record enters the bounded window and the aggregate appears when the counter reaches its limit |
| FeatureWindowModel.WindowIsLastInputs | workloads/w1/aggregator.py:31-32 | the window is always the last min(n, window_size) inputs, counted from whatever it held before |
| FeatureWindowModel.EmitsWindowFigures | workloads/w1/aggregator.py:30-53 | emissions come exactly at every 100th record and carry sum, mean, extremes, percentile and sample variance of the window, each by its meaning |
| FeatureWindowModel.SameEmissionsIff | workloads/w1/aggregator.py:55-67 | after a restore all later emissions coincide with the original's exactly if its emit counter was zero |
| FeatureWindowModel.WindowSurvives | workloads/w1/aggregator.py:55-67 | whatever the counter, the window goes on as the original's |
| FeatureWindowModel.RestoresIff | workloads/w1/aggregator.py:55-67 | a projection restores the state exactly if every field left out had its default and the counter was zero |
| VehicleDetectorModel.VehicleDetector.Process | workloads/w2/detector.py:32-61 | one record updates the averages and, when a vehicle is detected, the count and the deque |
| VehicleDetectorModel.HeadwayIsSpanOverGaps | workloads/w2/detector.py:47-51 | the mean of the gaps is the span of the kept detections over one less than their number; zero is reported as none |
| VehicleDetectorModel.RemembersDetections | workloads/w2/detector.py:40-45 | the state holds the number of detections announced, the last hundred times and the latest |
| VehicleDetectorModel.ReportsDetections | workloads/w2/detector.py:47-61 | every report counts the detections announced so far and gives their mean headway over the last hundred |
| VehicleDetectorModel.SmoothingStaysInHull | workloads/w2/detector.py:37-38 | smoothed occupancy and speed stay between any bounds on their starts and inputs |
| VehicleDetectorModel.AveragesAreBatch | workloads/w2/detector.py:37-38 | after any input smoothed occupancy and speed are the batch averages of the readings |
| VehicleDetectorModel.DetectsIff | workloads/w2/detector.py:37-61 | each report carries the batch averages with its record, and announces a vehicle exactly if they are above 0.15 and 2; its time is the record's or the clock's |
| VehicleDetectorModel.RestoresIff | workloads/w2/detector.py:63-80 | a projection restores the state exactly if every field left out had its default |
| PatternDetectorModel.PatternDetector.Process | workloads/w2/pattern.py:27-48 | one record enters its zone's history and the congested zones are gathered in order |
| PatternDetectorModel.RunRemembers | workloads/w2/pattern.py:28-33 | zones are kept in first-seen order with their last twenty densities, and incidents count the waves emitted |
| PatternDetectorModel.EmitsWaves | workloads/w2/pattern.py:35-48 | a wave is emitted exactly if three zones or more have a latest density above the threshold, naming exactly those in first-seen order |
| PatternDetectorModel.ZonesRoundTrip | workloads/w2/pattern.py:50-63 | the zone histories survive saving and restoring, order included |
| PatternDetectorModel.RestoresIff | workloads/w2/pattern.py:50-63 | a projection restores the state exactly if every field left out had its default |
| HeaMetricsModel.HeaMetrics.RecordLatency | hea/hea/metrics.py:29-32 | a latency is recorded for its operator only, and each deque keeps the last thousand |
| HeaMetricsModel.HeaMetrics.GetOperatorP95 | hea/hea/metrics.py:37-44 | exactly the operators with a latency get a value: the least one that at least 95% of the last thousand latencies do not exceed, itself one of them |
| JavaStatAggregatorModel.Process | flink-connector/src/main/java/ai/hybridstream/connector/operator/OperatorFactory.java:216-239 | one record replaces count, sum and m2 in the state map and keeps its other entries, for every state map whose count is not -1 |
| JavaStatAggregatorModel.StepSimulates | flink-connector/src/main/java/ai/hybridstream/connector/operator/OperatorFactory.java:216-239 | one record keeps count and m2 equal and sum equal to mean times count |
| JavaStatAggregatorModel.SimulatesFromStart | flink-connector/src/main/java/ai/hybridstream/connector/operator/OperatorFactory.java:216-239 | from the start, on every stream, each Java summary has the Python operator's count, mean, total and variance |
| JavaStatAggregatorModel.SumIsLost | workloads/w3/stat_agg.py:54-62 | whatever the schema, the Java sum starts at zero after a restore; count and m2 are those saved if the schema lists them and zero otherwise |
| JavaStatAggregatorModel.FollowsAfterRestoreIff | flink-connector/src/main/java/ai/hybridstream/connector/operator/OperatorFactory.java:216-239 | for every schema: after a migration the Java summaries go on as the Python ones exactly if count and m2 are kept or were zero, and mean times count was zero |
| JavaStatAggregatorModel.FollowsAfterMigrationIff | workloads/w3/stat_agg.py:31-62 | in terms of the input, for every schema: exactly if the readings add up to zero and the schema keeps count and m2 or there is nothing in them |
| Snapshots.Serialize | hybridstream-common/hybridstream/common/snapshot.py:12-25 | the loop builds the document that holds each schema field, null where missing, and the header entries no field shadows; packed behind mark and big-endian version, or the error that is raised |
| Snapshots.HeaderParts | hybridstream-common/hybridstream/common/snapshot.py:24-38 | a reader recovers mark, version and payload from what was written |
| Snapshots.WrittenLayout | hybridstream-common/hybridstream/common/snapshot.py:12-25 | what is written is HSMP, the version with its high byte first, and the packed document, which holds every schema field, null where missing, and the header entries no field shadows |
| Snapshots.ReadIff | hybridstream-common/hybridstream/common/snapshot.py:28-52 | what is read is exactly such bytes whose document names a class with a schema at that version, and then that schema's fields |
| Snapshots.ReadsBackAs | hybridstream-common/hybridstream/common/snapshot.py:28-52 | reading back gives the fields of the schema that the document's class leads to, or the error of a missing class or schema |
| Snapshots.RoundTripIff | hybridstream-common/hybridstream/common/snapshot.py:12-52 | the result is the state's projection onto the schema exactly if the class found in the document, which a field may shadow, leads back to a schema with the same fields |
| Snapshots.RoundTripsWhenVersionFits | hybridstream-common/hybridstream/common/snapshot.py:12-52 | an ordinary schema round trips for exactly the versions that fit 16 bits |
| FlinkReader.Deserialize | flink-connector/src/main/java/ai/hybridstream/connector/snapshot/SnapshotDeserializer.java:46-83 | the loops over header and payload implement: size, mark and version checks in this order, then unpacking of exactly the bytes after the header |
| FlinkReader.ReadsWhen | flink-connector/src/main/java/ai/hybridstream/connector/snapshot/SnapshotDeserializer.java:46-83 | which input leads to which exception, on signed bytes, in the order of the checks, and otherwise to the unpacked document |
| FlinkReader.UnchangedIffTyped | flink-connector/src/main/java/ai/hybridstream/connector/snapshot/SnapshotDeserializer.java:108-131 | translation leaves a value alone exactly if it is null, has the schema's type (64 bits for integers), or the type is passed through |
| FlinkReader.ConvertedTo | flink-connector/src/main/java/ai/hybridstream/connector/snapshot/SnapshotDeserializer.java:108-131 | what other values become: integers wrap to 64 bits, other numbers round toward zero and are clamped, text is parsed or raises |
| FlinkReader.TranslateToFlinkState | flink-connector/src/main/java/ai/hybridstream/connector/snapshot/SnapshotDeserializer.java:93-106 | the loop translates exactly the entries the schema knows; it fails exactly if one of them does not parse or the schema is missing |
| FlinkReader.JavaSeesTheDocument | flink-connector/src/main/java/ai/hybridstream/connector/snapshot/SnapshotDeserializer.java:46-83 | for documents whose inner mappings have text keys, as migration snapshots do: on signed bytes the Java reader recovers the version Python wrote and the same document exactly if the version is positive and supported, and otherwise reports that version |
| FlinkReader.TranslationKeepsFieldsIff | flink-connector/src/main/java/ai/hybridstream/connector/snapshot/SnapshotDeserializer.java:93-131 | with the same fields in both registries the translated map is the state's projection exactly if every value has its schema type |
| Operators.RunKeepsOrigin | hea/hea/execution/base_operator.py:15-25 | every state an operator reaches keeps its constructor's identity and its deques' bounds |
| Operators.RestoresIff | hea/hea/execution/base_operator.py:19-25 | for all six operators: what a projection restores is the saved state exactly if what it leaves out had its default and nothing unsaved was pending |
| Operators.ReadsSavedKeysOnly | hea/hea/execution/base_operator.py:19-25 | restoring reads no key that saving does not write |
| Operators.ClockDoesNotMatter | workloads/w2/detector.py:33-35 | on timestamped records no operator depends on the clock |
| Resuming.ResumesAtFirstUntaken | flink-connector/src/main/java/ai/hybridstream/connector/kafka/KafkaBridgeSource.java:39-52 | started one past each drained offset, and at the earliest record of partitions without one, the source is at the first record not yet taken in every partition |
| Resuming.PollsContinue | flink-connector/src/main/java/ai/hybridstream/connector/kafka/KafkaBridgeSource.java:39-52 | a schedule of polls splits at any point into what was taken and what is still to come |
| Resuming.SameStartSameRecords | flink-connector/src/main/java/ai/hybridstream/connector/kafka/KafkaBridgeSource.java:39-52 | from equal positions the same partitions bring the same records, whatever the clock |
| Resuming.OffsetsRoundTrip | hea/hea/state/snapshot.py:17-18 | the drain offsets survive being stored as a state entry, partition numbers as decimal text as the request brings them |
| StateMigration.CreateMigrationSnapshot | hea/hea/state/snapshot.py:10-29 | what is uploaded is the operator's state with the drain offsets added, serialized, under the key of operator and sequence number |
| StateMigration.ObjectKeysDiffer | hea/hea/state/snapshot.py:22 | the object key determines operator id and sequence number |
| StateMigration.ObjectKeyIs | hea/hea/state/snapshot.py:22 | the key is operator id, slash, sequence number in decimal digits, and the file name |
| StateMigration.StateSurvivesIff | hea/hea/state/snapshot.py:17-20 | snapshot and restore into a new instance give back the state exactly if each field the schema leaves out had its default and no emit counter was pending |
| StateMigration.ResumedRecords | flink-connector/src/main/java/ai/hybridstream/connector/kafka/KafkaBridgeSource.java:39-52 | resumed from the recorded offsets, the rest of the stream brings exactly the records not yet taken, in order |
| StateMigration.MovedRunContinues | flink-connector/src/main/java/ai/hybridstream/connector/kafka/KafkaBridgeSource.java:39-52 | an instance in the drained state that resumes at the recorded offsets completes the undisturbed run |
| StateMigration.MigrationIsTransparent | hea/hea/state/snapshot.py:10-29 | drain, snapshot, restore and resume compose: for every operator, stream, interleaving of partitions, drain point and clock, outputs and final state are those of the run that was never migrated |
| StateMigration.ShippedSchemaLosesState | schema-registry/schemas/v1/StatAggregator.json:1-11 | through the version 1 schemas every operator is restored to its defaults, so once it has processed a record its state is lost, the vehicle detector and an empty window excepted |
| JavaMigration.Receive | flink-connector/src/main/java/ai/hybridstream/connector/snapshot/SnapshotDeserializer.java:46-106 | reading and translating the uploaded bytes one after the other gives the state map or the first exception on the way |
| JavaMigration.JavaReceivesIff | flink-connector/src/main/java/ai/hybridstream/connector/snapshot/SnapshotDeserializer.java:46-131 | the connector receives the projection of the drained state, offsets included, exactly if the version is positive and supported and every value has its schema type |
| JavaMigration.JavaResumes | flink-connector/src/main/java/ai/hybridstream/connector/kafka/KafkaBridgeSource.java:39-52 | then a source started from the offsets in what was received begins at the first record not yet taken in every partition |
| JavaMigration.MovedRunArrivesIff | flink-connector/src/main/java/ai/hybridstream/connector/snapshot/SnapshotDeserializer.java:46-131 | both for an operator that has run: after any polls of a log from a state whose labels hold text keys only, the connector receives its projection under exactly these conditions, and the source then begins at the first record of the log not yet processed |
| JavaMigration.AggregatorFollowsIff | flink-connector/src/main/java/ai/hybridstream/connector/operator/OperatorFactory.java:216-239 | the whole way of a statistical aggregator after any input: its summaries go on in Java exactly if the schema keeps count and m2 or there is nothing in them, and the readings add up to zero |

## Left out

- Floating point: rounding, overflow, infinities of inputs, NaN and the `round` calls in outputs; the model computes with real numbers, with the exact fraction 19/20 for 0.95.
- The MessagePack bytes: packing is a parameter that may refuse a document and otherwise unpacks to what was packed. The Java reader turns keys of inner mappings into text; the theorems about it are for values whose inner mappings have text keys, as every operator saves and the drain request brings them.
- gRPC, Kafka, object store, etcd, psutil and Flink runtime calls; a call is an arbitrary outcome or a parameter. Consumer rebalances, records trimmed by retention and offsets a new consumer group might have committed are not modelled.
- The gRPC client classes (aode/aode/grpc/clients.py): the one for edge agents has no drain or restore call, so a migration through it fails in its first phase; the protocol is modelled for clients that have them.
- Leader election, metrics storage, weight presets, configuration, YAML loading, experiments and plots.
- The wall clock, except as the timeout event, as a parameter of the vehicle detector and as the sequence number of an object key.
- BinaryClassifier, RiskCheck, ComplianceLogger, ZoneAggregator, MultiStreamJoin and the Java operators other than StatAggregator, whose state and formulas differ from the Python ones.
- Record fields that are not numbers where a number is expected: a record has numeric and text fields by type. Text that spells a number is not converted when a Python state is restored; neither are negative counts, sizes or emit intervals, which no snapshot of an operator holds.
- Schema caching, the loading of schema files and the differences between the two registries' file formats: both registries are given tables.
- 64-bit overflow of the Java counter.
- Draining.DeregistrationDrains: is stated for operators registered only while vacant; `Reregistration.OverlapLosesOutput` shows that it fails otherwise.
- InlineOutputs.InlineOutputsKeptIff: its "only if" half is about runs in which a record under way is finished before the operator is registered again, because the new registration brings the routes back.
- QueuedOutputs.QueuedOutputsKeptIff: its "only if" half is about runs in which a record caught without routes is finished without raising before the operator is registered again.
- Records processed at the source between its snapshot and its terminate: an incarnation counts as saved once a snapshot of it is stored, so the migration theorems assume that a drained source is quiet. The drain request itself changes nothing in the model.
- HighWater.BoundHoldsIff: is about an operator whose topics feed nothing else, with registrations at rest, and starts idle with no topic paused.
- SharedTopics.SharedBoundIff: is about marks in order, an operator bound once to each of its topics, and a start with idle loops and no worker in the middle of a record; with marks out of order the flag on a shared topic depends on the parity in `Checks.PausedAfterCheck`.
- JavaStatAggregatorModel.Process: leaves out a stored count of -1, for which the mean is a division by zero and no number.
- StatAggregatorModel.StatAggregator.RestoreState: refuses a negative count at once, where the code accepts it; no snapshot of an operator holds one.
- The step relations allow more interleavings than one event loop has: a join on an empty queue may wait, decoding and dispatching a record are separate steps. What holds in all of them holds in the code's.
- OnlineStats.BlendBetween: is stated for weights between 0 and 1; other weights do not average.
- AnomalyDetectorModel.CanFlagIff: is stated for thresholds that are not negative; with a negative one every value is flagged.
