# Signal Garden: a verified model

Signal Garden runs a simulation as an event-sourced run. A deterministic producer appends each tick's events to an
append-only log. A processor of limited capacity drops redeliveries and folds the log into a garden. Snapshots and
commits shorten that fold, and a restarted process rebuilds the garden and continues the run. A run engine sits on top:
one loop per run takes ticks and commands, publishes frames to subscribers and lets clients catch up.

The project has four layers.

- **Functions on values.** `Identifiers`, `Events`, `ControlRules`, `Gardens`, `Processing`, `Production` and `Feeds` say
  what a tick produces, records, delivers and folds. `Snapshots` adds the durable half of a run and every way a save or
  an append can fail; `World` lets any operation be cut short between any two durable writes and restarts the process
  from whatever its disk holds; `Truncation` opens damaged logs; `Engine` is the loop's state machine.
- **Theorems about whole runs.** `History` is the grammar of a run's log. `Runs` covers uninterrupted runs. `Soundness`
  is one invariant of every reachable state of `World`, `Alignment` the part of it that survives every loss, and
  `Agreement` what follows from it about the shortcut and the replay. `SafeModes`, `Restart`, `Snapshotless` and
  `Truncation` say when a restart is right, and `Losses` when it is not, each at an input. `BatchRefinement`,
  `Revivals`, `Lifecycles` and `Streams` cover the engine, `Absorption` the rules and `Budget` the counters.
- **Laws of the single steps, in numbers.** What a step does is also told without its function: `RuleLaws` what an event
  does to an organism, `Accounts` what each counter counts, `Draws` which words decide a tick's events and which are
  delivered twice, `Cadence` which ticks and attempts save, `Frames` what each turn of the loop puts on whose stream,
  `Refusals` what is refused, `Formats` how identifiers are written.
- **Objects.** The classes in `Gardens`, `Processing`, `Production`, `EventLogs`, `Simulations` and `LiveRuns` change
  their fields in place as the Go types do, and `Batches` drives a simulation. Each method is proved against the
  function of the same step.

Conventions of the model:

- The random generator is a parameter, an arbitrary function of seed, tick and the bounds asked so far. Nothing depends
  on which generator it is.
- Disk outcomes are parameters: whether an append goes through and how much of it was written, and for every save
  attempt whether the snapshot write or the commit fails.
- The log library is modelled by its offsets: an append-only sequence from offset 0, a reader, a commit, and the newest
  snapshot, which a later one at the same or a higher offset replaces.
- A tick's capacity and "every n-th" are defined by counting, and proved to be the product and the zero remainder the
  program computes (`AcceptedControls`, `EveryNthExactly`).
- Go panics and blocking sends on channels are a `fault` flag, proved never to be set.
- A process remembers what its restarts so far had in common (`World.Past`): that every snapshot they started from was
  unsplit, that it also knew every recorded revision, that nothing was pending when it was taken. Each can be read off
  the disk before the restart, and theorems that need one name it.

## What the model found

These are results about the code as it stands. Each failure is shown at an input and has the exact condition, proved for
all inputs, under which the code is right.

- `internal/sim/snapshot.go:191-194` argues that no redelivered pair straddles a snapshot. A snapshot is written at the
  cursor, so with a capacity below production it can, and rebuilding applies an event twice (`SplitPairIsAppliedTwice`).
- Even an unsplit snapshot can miscount. A control change recorded after the snapshot is lost by a restart, and the next
  update takes its revision, hence its key: the restarted process counts it as handled, a replay drops it
  (`RepeatedRevisionIsMiscounted`). The revision is taken again exactly when a change was recorded since the snapshot
  (`LostChangeReusesItsRevision`).
- In every reachable state, through any failures, crashes and restarts, the shortcut agrees with the replay exactly when
  the newest snapshot counted every repeated key below it and no key below it comes again above it
  (`EveryReachableStateRecovers`). As long as every restart was unsplit and knew the recorded revisions, that is exactly
  when the first record past the snapshot is not a redelivery (`RebuildAgreesExactly`).
- A restart moves the clock and the published count too far unless nothing was pending at the snapshot
  (`ClockRestoredExactly`), and loses controls accepted since it. It gives the run back exactly when the snapshot is up to
  date, whatever earlier restarts lost (`RestartRestoresExactly`), and then any number of them leave no trace
  (`RestartsLeaveNoTrace`).
- `Resume` does not restore the snapshot cadence, so a restarted run takes no further periodic snapshot
  (`RestartedRunStopsSnapshotting`), although the engine passes a cadence in its request.
- A started run never goes past `MaxTicks`. A recovered one does (`RecoveredRunOvershoots`), and never does exactly when
  its disk left ticks to run (`RevivedRunRespectsMaxTicksExactly`).
- A run started over an empty log beside a leftover snapshot past the log's end is shadowed by it and cannot be
  recovered; any other started run can (`StartedIsStrandedExactly`).
- `docs/decisions/0009` promises that the catch-up ends at the folded offset of the frame that follows. The records run
  to the log's end, so the two differ by the backlog (`CatchUpHandsOver`, and `CatchUpAheadOfItsFrame` at an input).
- Two updates accepted for one tick make a live log that no batch run reproduces, whatever its generator and
  configuration (`TwoUpdatesInOneTick`); with at most one per tick some batch run does (`BatchReproducesExactly`).
- On a log this system wrote, `Rewind` never has to move a commit: it either refuses or changes nothing
  (`TruncationRecovers`).

## Model

| member | source | states |
|---|---|---|
| Identifiers.ZeroPadValue | internal/domain/garden.go:87-89 | zero padding loses nothing: the padded digits denote the number |
| Identifiers.EventIDInjective | internal/producer/producer.go:94-97 | within a run an event identifier determines its sequence number |
| Identifiers.RevisionKeyInjective | internal/event/event.go:114-121 | within a run a control key determines its revision |
| Identifiers.KeyFamiliesDisjoint | internal/event/event.go:114-121 | organism keys and control keys of a run never collide |
| Identifiers.PositionOfOrganismID | internal/domain/garden.go:45-59 | each organism is found at its own position and nowhere else |
| Identifiers.AtoiOfOrganismID | internal/sim/snapshot.go:212-230 | parsing an organism identifier gives back its position |
| Formats.AtoiLaw | internal/sim/snapshot.go:212-230 | the number read from an identifier's tail is exactly what it denotes: an optional sign, then digits, within 64 bits |
| Formats.IdentifiersAreWritten | internal/producer/producer.go:94-122 | an event is named by its run, a dash and eight digits, a control event by its run, -ctl- and eight digits, an organism by org- and three; more digits only when these do not suffice, and then none of them leads with zero |
| Events.AcceptedEvents | internal/event/event.go:72-98 | an envelope is valid exactly when complete, of a known type, and an organism event names its organism |
| Formats.KeysAreWritten | internal/event/event.go:114-121 | control and run-state events are deduplicated on run, type and revision in decimal, every other event on its identifier |
| ControlRules.AcceptedControls | internal/domain/controls.go:43-91 | controls are valid exactly within their bounds; capacity is then workers times batch size, at most 64000 and zero exactly when either factor is |
| Feeds.EveryNthExactly | internal/sim/sim.go:236-243 | every n-th event is one whose count leaves no remainder; zero disables |
| Gardens.NewGarden | internal/domain/garden.go:45-59 | refuses fewer than one organism; otherwise every organism is fresh and the index finds exactly them |
| Gardens.RestoreGarden | internal/domain/garden.go:68-84 | restores exactly when non-empty and every identifier is in its place, and then the same organisms |
| Gardens.Garden.Apply | internal/domain/rules.go:38-58 | in-place rule application equals the rules on values and keeps slice and index in step |
| Gardens.Garden.ApplyRain | internal/domain/rules.go:61-67 | rain on one slot, no other slot touched |
| Gardens.Garden.ApplyGrowth | internal/domain/rules.go:72-82 | growth on one slot, no other slot touched |
| Gardens.Garden.ApplyPest | internal/domain/rules.go:86-92 | pest on one slot, no other slot touched |
| RuleLaws.RainLaw | internal/domain/rules.go:61-67 | rain of a positive amount is applied exactly to a living organism below 100 moisture, and fills it by that amount up to 100 |
| RuleLaws.GrowthLaw | internal/domain/rules.go:72-82 | growth is applied exactly to a living organism below stage 5 with moisture 20 and health 30, and then takes 20 moisture and adds one stage |
| RuleLaws.PestLaw | internal/domain/rules.go:86-92 | a pest of a positive amount is applied exactly to a living organism, and takes that much health down to zero |
| RuleLaws.OtherEventsLaw | internal/domain/rules.go:38-58 | every other event changes nothing, and is reported unknown exactly when it names an organism the garden does not have |
| RuleLaws.HealthLaw | internal/domain/rules.go:86-92 | after any events each organism of a fresh garden has 100 health less the positive pest amounts addressed to it, or none |
| Absorption.AppliedExactlyWhenChanged | internal/domain/rules.go:38-102 | an event is reported applied exactly when the garden changed, and then the potential fell |
| Absorption.AbsorptionBound | internal/domain/rules.go:38-102 | over any events a fresh garden of n organisms changes at most 305n times |
| Absorption.AppliedCounterBound | internal/processor/processor.go:61-93 | the applied counter never exceeds 305n, whatever is delivered |
| Absorption.GrowthIsPaidInRain | internal/domain/rules.go:61-82 | moisture plus 20 per stage never exceeds the rain addressed to the organism |
| Processing.Processor.Process | internal/processor/processor.go:61-93 | disposition, garden, keys and counters of one event: rejected, duplicate, or applied once |
| Processing.Processor.ProcessBatch | internal/processor/processor.go:98-106 | processes every event and reports success exactly when all envelopes are valid |
| Processing.Processor.Restore | internal/processor/processor.go:127-133 | adopts counters and leaves garden and keys alone |
| Processing.FoldConcat | internal/sim/sim.go:416-426 | folding in two portions is folding at once |
| Processing.FoldConserves | internal/processor/processor.go:61-93 | received is the sum of the five fates, and the by-type total is what was neither rejected nor duplicate |
| Processing.MergeConserves | internal/sim/snapshot.go:240-257 | merging keeps both conservation laws |
| Processing.DuplicatesMissed | internal/sim/snapshot.go:191-199 | a processor that forgot its keys misses one duplicate per key spanning the split |
| Processing.SplitFoldAgreesExactly | internal/sim/snapshot.go:191-202 | folding the halves apart and merging equals folding the whole exactly when no key is on both sides |
| Processing.TracksOn | internal/processor/processor.go:61-93 | a projection that never counted a redelivery too many never does, and has missed none exactly when it knows every earlier key that comes again; then it is the replay |
| Accounts.FoldAccounts | internal/processor/processor.go:61-93 | over any events each counter grows by exactly what its name says: applied by the events that changed the garden, no-effect and unknown by the handled ones that did not, split by whether the organism exists, each type by the events of it neither rejected nor duplicate |
| Accounts.FoldAppliesHandled | internal/processor/processor.go:61-93 | the garden of any fold is the rules applied to the events neither rejected nor duplicate, in order, and applied counts those that did something |
| Accounts.ReplayedHealth | internal/sim/sim.go:410-426 | a replay leaves every organism with 100 health less the damage that was neither rejected nor duplicate, or none |
| Production.RollsMatchWeights | internal/producer/producer.go:131-140 | each type is selected by exactly as many rolls as it weighs |
| Production.Producer.Tick | internal/producer/producer.go:85-109 | succeeds exactly on valid controls and emits the tick's events, numbered onward |
| Feeds.ControlRecordsLegal | internal/producer/producer.go:114-127 | the records of the staged updates continue a legal log, one sequence number each, at the tick |
| Production.DrawnAreProduced | internal/producer/producer.go:85-109 | a tick's events are valid, name existing organisms, carry amounts in range and consecutive numbers |
| Production.DrawIgnoresRedelivery | internal/producer/producer.go:85-109 | what is drawn does not depend on redelivery |
| Draws.TickFollowsItsWords | internal/producer/producer.go:85-154 | every event of a tick follows its own words for this seed and tick: type from the word below the total weight, organism from the next below the number of organisms, amount 5 plus the next below 21 for rain or 16 for a pest; the bounds asked before it are those of the events before it |
| Draws.EveryEventCanBeDrawn | internal/producer/producer.go:85-154 | for every organism, every type of positive weight and every amount in range some generator produces that event |
| Draws.EnvelopesLaw | internal/producer/producer.go:94-127 | records carry schema version 1, their run as owner and partition, the tick, attempt 1 and consecutive sequence numbers, control records first |
| Draws.BatchFollowsTheLastUpdate | internal/sim/sim.go:226-235 | a tick appends one record per staged update, with its revision, then events drawn under the last of them, or under the controls in force if there is none |
| Draws.RedeliveredExactly | internal/sim/sim.go:236-243 | exactly the events whose count leaves remainder zero are followed by a second delivery, one attempt later and otherwise the same; order and the rest are kept |
| History.DuplicateExactlyWhenRedelivered | internal/processor/processor.go:70-76 | a record's key was seen before exactly when the record is an injected redelivery |
| History.KeySpansExactlyWhenSplit | internal/sim/snapshot.go:191-194 | a key is on both sides of an offset exactly when the offset separates a record from its redelivery |
| History.RedeliveriesAreInvisible | internal/sim/sim.go:410-426 | folding a log equals folding it without redeliveries, up to the received and duplicate counters |
| History.NothingRejected | internal/processor/processor.go:61-93 | nothing of a run's log is rejected or names an unknown organism |
| History.EveryTickLeftARecord | internal/sim/sim.go:225-269 | on a run's log every completed tick left a record |
| Feeds.DeliveredExactlyOnce | internal/sim/sim.go:246-258 | over any plan the projection is the fold of the records between the cursors, each once and in order |
| Feeds.BatchAt | internal/sim/sim.go:225-244 | a tick's block is non-empty, all at its tick, and starts with a new record |
| Feeds.BatchLegal | internal/sim/sim.go:225-244 | appending a tick keeps the log legal and numbered onward from the producer's count |
| Runs.OnTrackAfter | internal/sim/sim.go:201-258 | after any plan: legal log, revisions in order, dense time, last sequence equal to the producer's count |
| Runs.BatchNumbered | internal/sim/sim.go:226-231 | a tick records exactly the updates staged for it, in order, at its own tick |
| Runs.BatchRises | internal/sim/sim.go:201-231 | whatever revisions were lost, a tick records only higher ones than the log holds |
| Runs.FaithfulAfter | internal/sim/sim.go:225-299 | after any plan the projection is the replay of what was delivered |
| Runs.PublishedIsReceivedPlusPending | internal/sim/sim.go:246-258 | published is received plus pending; duplicates are exactly the redeliveries delivered; nothing rejected or unknown |
| Runs.BacklogLaw | internal/sim/sim.go:246-258 | the backlog after a tick is demand less capacity, never negative, zero when unbounded |
| Runs.BacklogDrains | internal/domain/controls.go:43-48 | with load below capacity the backlog is empty after enough ticks and stays empty |
| Runs.RedeliveryIsInvisible | internal/sim/sim.go:237-258 | with unbounded capacity a redelivering run shows the clean run's garden and counters; duplicates are the extra log length |
| Snapshots.SaveKeeps | internal/sim/snapshot.go:117-148 | saving never touches the simulation and leaves the marks at one of its atomic points |
| Snapshots.SaveSucceedsExactly | internal/sim/snapshot.go:117-148 | a save succeeds exactly when some attempt it makes does; then snapshot and commit stand at the cursor |
| Snapshots.InjectedFailureRecovers | internal/sim/snapshot.go:123-136 | on a healthy disk an injected failure costs one retry and nothing else |
| Cadence.SaveLaw | internal/sim/snapshot.go:117-148 | a save makes three attempts at most, the first in vain exactly when the count of saves leaves remainder zero by the configured number; retries, failures, commit and success follow from which attempts work |
| Cadence.StepLaw | internal/sim/sim.go:225-269 | a step saves exactly when the tick it reaches is a multiple of the cadence, succeeds exactly when append and due save do, and otherwise moves no mark |
| Cadence.FailedStepLaw | internal/sim/sim.go:245-248 | a failed append leaves producer, controls and staged updates moved on, a prefix of the batch on the log, and clock, cursor, published count, garden and counters as they were |
| Cadence.CadenceLaw | internal/sim/sim.go:260-268 | after any updates and k clean ticks at cadence n the newest snapshot is of tick k - k % n once k >= n; before that, and with cadence 0, there is none |
| Cadence.StartedCadenceLaw | internal/engine/engine.go:465-479 | a started run has a snapshot from the first: of tick k - k % n after k clean ticks, of tick zero without a cadence |
| Soundness.SavePointsSafe | internal/eventlog/log.go:329-335 | at every atomic point of the retry loop commit, snapshot and log are in order and the snapshot shows the records below it |
| Soundness.CrashPointRecoverable | internal/sim/sim.go:225-269 | wherever an operation is cut short, the disk left behind is recoverable |
| Soundness.ResumeSucceeds | internal/sim/snapshot.go:276-344 | any disk a run can leave resumes, as the same run, with the producer at the last record's number and the cursor at the tail |
| Soundness.ResumedSound | internal/sim/snapshot.go:276-344 | a restart from any snapshot, split or not, restores every invariant that its kind of snapshot can |
| Soundness.ShowsOn | internal/sim/sim.go:281-299 | folding on keeps what is shown: the replay's garden while restarts were unsplit, its counters while they kept the revisions |
| Soundness.ExecSound | internal/sim/sim.go:225-269 | operations, failed writes, crashes and restarts in any order keep the whole invariant |
| Agreement.EveryReachableStateRecovers | internal/sim/snapshot.go:157-204 | in every reachable state: legal log, committed <= snapshot <= log end, resumes as the same run, and the shortcut equals the replay exactly when its snapshot missed nothing |
| Agreement.EveryReachableStateShowsItsLog | internal/eventlog/log.go:319-335 | in every reachable state process and snapshot show the fold up to their offset, garden, counters and clock each as long as restarts allow |
| Agreement.RebuildAgreesExactly | internal/sim/snapshot.go:157-204 | in every reachable state whose restarts were unsplit and kept the revisions, the shortcut equals the replay, garden and counters, exactly when the first record past it is not a redelivery |
| Agreement.RebuildAgreesOn | internal/sim/snapshot.go:191-202 | the same two equivalences on any disk a run can leave |
| Budget.EveryReachableStateIsBudgeted | internal/processor/processor.go:61-93 | in every reachable state, split restarts included, the counters of process and newest snapshot add up, and applied plus remaining potential never exceeds 305n |
| SafeModes.SafeRunsAlwaysRecover | internal/sim/snapshot.go:191-194 | without redelivery or with unbounded capacity every crash is recoverable once a snapshot exists, to the garden of the whole log; the counters too while restarts kept the revisions |
| SafeModes.ExecTidy | internal/sim/snapshot.go:191-194 | in those two modes no reachable state, running or stopped, has a snapshot that splits a redelivered pair, and no restart ever met one |
| Restart.ClockRestoredExactly | internal/sim/snapshot.go:200-201 | in every reachable state tick and published count come back exactly when snapshot and process are ahead of their records alike; if earlier restarts were drained, exactly when nothing was pending at the snapshot |
| Restart.RestartRestoresExactly | internal/sim/snapshot.go:276-344 | in every reachable state, whatever earlier restarts lost, producer, clock, controls, counts, log and cursor come back exactly when the newest snapshot is up to date; then garden and counters too |
| Restart.RestartedEqualsUninterrupted | internal/sim/snapshot.go:276-344 | from any reachable state with an up-to-date snapshot, after a restart any further ticks append the same records and reach the same garden and counters as if never stopped |
| Restart.SavedAndRestarted | internal/sim/snapshot.go:276-344 | saved with nothing pending and restarted, any reachable simulation is back as it was, clock, counts, controls, garden, counters, state and settings; only staged updates, keys and cadence are gone |
| Restart.RestartEquivalence | internal/sim/snapshot.go:276-344 | with unbounded capacity, no staged update and none accepted since the snapshot, a crash after any operations, failures and restarts, and a restart, continue as the run that never stopped |
| Restart.RestartsLeaveNoTrace | internal/sim/snapshot.go:276-344 | from any reachable state, any number of restarts anywhere between operations, each from an up-to-date snapshot, reach the log, clock, controls, garden and counters of the same operations in one process |
| Alignment.StayAlike | internal/processor/processor.go:70-76 | two projections of one run that agree and know what is under way agree after anything delivered, whatever else they forgot |
| Restart.UnboundedRunsAreDrained | internal/sim/sim.go:246-258 | with unbounded capacity, in every reachable state everything published is folded, and the newest snapshot and those behind every restart were drained |
| Losses.SplitPairIsAppliedTwice | internal/sim/snapshot.go:191-201 | a run, for every generator and seed, whose rebuilt garden applied an event twice and whose clock overshot |
| Losses.LostChangeReusesItsRevision | internal/sim/snapshot.go:318-341 | the next update after a restart reuses a key of the log exactly when a change was recorded since the snapshot; a replay then drops its record and the process does not |
| Losses.RepeatedRevisionIsMiscounted | internal/sim/snapshot.go:318-341 | a run whose unsplit newest snapshot, at the log's end, disagrees with the replay because a revision was given out twice |
| Losses.RestartedRunStopsSnapshotting | internal/sim/snapshot.go:318-329 | no number of ticks moves a restarted run's newest snapshot or commit |
| Losses.TwoUpdatesInOneTick | internal/engine/engine.go:642-672 | two updates accepted for the first tick: no batch run of any configuration leaves that log |
| Losses.CatchUpAheadOfItsFrame | internal/engine/engine.go:764-803 | a client handed two records and a frame that folded one |
| Snapshotless.SnapshotlessRebuildIsPrefix | internal/sim/snapshot.go:167-176 | without a snapshot the garden is the first entries of the true one, the rest untouched, the counters exact |
| Snapshotless.SnapshotlessDoesNotResume | internal/sim/snapshot.go:294-299 | a history without a snapshot never resumes |
| Truncation.RewindStaysWithin | internal/eventlog/log.go:386-443 | a truncated log opens with every position within it; a snapshot past the end is always refused |
| Truncation.TruncationRecovers | internal/engine/engine.go:914-935 | the log of any disk a run can leave, cut anywhere, opens exactly when its snapshot survived, unchanged, resumes the same run, and rebuilds to the replay of what survived, garden and counters, exactly when the snapshot missed nothing of it |
| Refusals.OpenHistoryLaw | internal/engine/engine.go:914-935 | a damaged log is refused exactly by policy, or when bytes were discarded and its snapshot lies past what survived; otherwise records and snapshot are untouched, the commit pulled back, the reader at the commit or the start |
| Refusals.RebuildLaw | internal/sim/snapshot.go:157-204 | rebuilding refuses exactly a snapshot past the end, a schema other than 2, an empty or misordered garden, and an invalid record to fold, in this order |
| Refusals.ResumeLaw | internal/sim/snapshot.go:276-344 | resuming refuses exactly what rebuilding refuses, a history without a run, and an invalid last record |
| EventLogs.EventLog.Open | internal/eventlog/log.go:422-443 | the reader starts at the commit, or at the start when the commit outlived its records |
| EventLogs.EventLog.Append | internal/eventlog/log.go:145-163 | all or nothing on encoding; a failed write may leave a prefix |
| EventLogs.EventLog.UnprocessedUpTo | internal/eventlog/log.go:182-199 | returns the next unread records up to the bound and moves the cursor exactly past them |
| EventLogs.EventLog.Since | internal/eventlog/log.go:245-274 | serves exactly the offsets within the log, with every record from there |
| EventLogs.EventLog.MarkFolded | internal/eventlog/log.go:312-317 | the cursor moves to the tail and nothing is committed |
| EventLogs.EventLog.Save | internal/eventlog/log.go:329-335 | snapshot first, then commit, at the cursor, with each failure's state |
| EventLogs.EventLog.Rewind | internal/eventlog/log.go:386-411 | reconciles commit and cursor with a truncation, or refuses |
| Simulations.BatchEncodable | internal/event/codec.go:45-76 | everything a tick produces is accepted by the log |
| Simulations.NewSimulation | internal/sim/sim.go:138-175 | refuses invalid configurations; otherwise a simulation at tick zero over whatever the log holds |
| Simulations.Simulation.SetControls | internal/sim/sim.go:201-208 | stages and numbers valid controls; refuses others and changes nothing |
| Simulations.Simulation.Produce | internal/sim/sim.go:226-244 | the tick's batch; producer and controls move on |
| Simulations.Simulation.Deliver | internal/sim/sim.go:251-257 | folds the next records up to capacity, in order |
| Simulations.Simulation.Step | internal/sim/sim.go:225-269 | one tick, whole new state, with a failed append or save |
| Simulations.Simulation.Save | internal/sim/snapshot.go:117-148 | the retry loop, whole new state and counters |
| Simulations.CountOrganisms | internal/sim/snapshot.go:212-230 | the loop computes the inferred organism count |
| Simulations.RebuildGarden | internal/sim/snapshot.go:157-204 | rebuilds garden and snapshot, or the error, as the function on disks does |
| Simulations.ResumeSimulation | internal/sim/snapshot.go:276-344 | a whole simulation from a log, or the error; the cursor moves to the tail; ready to step exactly when its feed is valid |
| Batches.Execute | internal/run/run.go:109-152 | runs exactly the valid configurations and reports the scorecard of the batch run |
| Batches.ScorecardLaw | internal/run/run.go:109-152 | published is the length of the log, revisions the number of configured changes, final controls those of the latest change or the initial ones, garden and counters the replay of what was delivered, one recorded change at each configured tick |
| BatchRefinement.MirrorsAlways | internal/engine/engine.go:642-672 | after any commands the simulation is the batch of its receipts with the coming tick's updates staged |
| BatchRefinement.LiveRefinesBatch | internal/engine/engine.go:1014-1086 | after any interleaving, cadence and save failures, log, garden, counters, clock and controls equal the batch run keyed by effective tick |
| BatchRefinement.ChangesPerTick | internal/sim/sim.go:226-231 | the log holds at each tick as many control changes as were accepted for it |
| BatchRefinement.BatchReproducesExactly | internal/run/run.go:109-152 | a batch run of some generator and valid configuration leaves the live log exactly when it has run a tick and no two updates share one |
| Revivals.RevivedLiveRefinesBatch | internal/engine/engine.go:542-595 | a live run revived any number of times from up-to-date snapshots still has the log, clock, controls, garden and counters of the batch of its receipts |
| Lifecycles.LiveRunsStaySound | internal/engine/engine.go:1014-1115 | no commands and no disk failures break the invariant of a live run, started or revived |
| Lifecycles.RevivedSound | internal/engine/engine.go:542-595 | any disk a run can leave is revived as the same run, sound again, or skipped exactly when it was finished |
| Lifecycles.ReceiptsAreRecorded | internal/engine/engine.go:642-672 | control changes on the log are revisions 1..k in order at their receipts' ticks, the last one run governs, the rest are staged |
| Lifecycles.StateAlwaysOnDisk | internal/engine/engine.go:685-721 | absent write failures the newest snapshot carries the live state, limit and pace between any two commands, of any run that began so |
| Lifecycles.StartedOnDiskExactly | internal/engine/engine.go:465-479 | a started run begins so exactly when no leftover snapshot lies past its empty log |
| Lifecycles.StartedIsStrandedExactly | internal/engine/engine.go:413-503 | a run started beside a snapshot past its empty log cannot be recovered; beside any other it can |
| Refusals.StartRunLaw | internal/engine/engine.go:413-503 | a run is refused exactly over a log that holds records or when no attempt to record it works; otherwise it runs, fresh, at tick zero, with nobody subscribed |
| Refusals.RecoverOneLaw | internal/engine/engine.go:542-595 | recovery fails exactly as resuming does, skips exactly finished runs, and brings back paused runs paused and every other running |
| Lifecycles.RevivedOnDiskExactly | internal/engine/engine.go:586-594 | a revived run begins so exactly when its snapshot had recorded a state |
| Lifecycles.RecoveryKeepsTheLifecycle | internal/engine/engine.go:542-595 | however often it was revived, recovery skips a run exactly when it is finished and revives it otherwise as the same run in the same state, limit and pace, recorded again |
| Lifecycles.FinishedIsAbsorbing | internal/engine/engine.go:1089-1115 | after finishing no command changes the simulation |
| Lifecycles.StartedRunRespectsMaxTicks | internal/engine/engine.go:1083-1085 | a started run never exceeds its limit and is finished once there, whatever the disk does or held |
| Lifecycles.StartedRunFinishesAtMaxTicks | internal/engine/engine.go:1047-1086 | the clock counts exactly the ticks taken while running, and the last one the limit allows finishes the run |
| Lifecycles.ClockRunsToTheLimit | internal/engine/engine.go:1047-1086 | left to its clock a running run takes every tick left and is finished exactly then |
| Lifecycles.RevivedRunRespectsMaxTicksExactly | internal/engine/engine.go:574-594 | no commands take a revived run past its limit exactly when its snapshot and the records after it leave ticks to run |
| Lifecycles.RecoveredRunOvershoots | internal/engine/engine.go:574-594 | any run limited to one tick, cut short in it before the final snapshot, is revived and runs tick two |
| Lifecycles.CatchUpHandsOver | internal/engine/engine.go:764-803 | exactly the records from the offset on, a first frame that is the fold below its offset, meeting exactly when nothing is pending; an offset outside the log registers nothing |
| Streams.StreamsAlwaysSound | internal/engine/engine.go:1128-1161 | in every run, started or revived: no channel misuse, no identifier reused, frames strictly ordered, and delivered plus dropped equals published since attaching |
| Streams.CloseUnregisteredIsHarmless | internal/engine/engine.go:328-334 | closing an unregistered subscription detaches nobody |
| Streams.CloseOnlyDetachesItself | internal/engine/engine.go:1146-1153 | closing twice is closing once and leaves every other stream alone |
| Frames.TickShows | internal/engine/engine.go:1047-1086 | a successful tick below the limit counts one frame if anyone is subscribed and puts it, with the new tick, revision, state, garden and cursor, on every open stream or loses it there; one that reaches the limit also shows the final frame; these and failed ones close every stream as finished |
| Frames.CommandsShow | internal/engine/engine.go:685-721 | pausing, resuming and finishing show every open stream one frame of the new state; finishing closes them as finished, quitting as shut down; updates and queries show nothing |
| Frames.CommandsSave | internal/engine/engine.go:685-721 | pausing, resuming and finishing save the run in its new state and remember a save that failed, whatever the disk does |
| Frames.SubscribeLaw | internal/engine/engine.go:764-803 | a new stream holds one frame of the run as it stands, in a buffer of the size asked for or 16, under the next identifier, open unless the run is finished |
| Frames.TakeLaw | internal/engine/engine.go:320 | a client takes the next frame it was sent if there is one, and nothing else changes |
| Frames.CountersBalance | internal/engine/engine.go:1128-1144 | in every run the sent counter is the number of frames on its streams and the dropped counter the number they lost |
| Refusals.IgnoredLaw | internal/engine/engine.go:642-713 | ticks of a run not running, commands to a finished or stopped one, updates out of bounds and offsets outside the log change nothing; any other offset attaches as subscribing does; an accepted update is staged last under the next revision |
| LiveRuns.LiveRun.Publish | internal/engine/engine.go:1128-1144 | every subscription is offered the next frame once, in any order; full buffers lose it |
| LiveRuns.LiveRun.RemoveSub | internal/engine/engine.go:1146-1153 | detaches and closes one registered subscription |
| LiveRuns.LiveRun.CloseSubs | internal/engine/engine.go:1155-1161 | detaches and closes every subscription with its reason |
| LiveRuns.LiveRun.Attach | internal/engine/engine.go:764-803 | a new stream with the current frame, registered unless the run is finished |
| LiveRuns.LiveRun.Resume | internal/engine/engine.go:760-803 | hands over what was missed and attaches, or refuses the offset and changes nothing |
| LiveRuns.LiveRun.Close | internal/engine/engine.go:328-334 | detaches a subscription once; an unregistered one detaches nobody |
| LiveRuns.LiveRun.Shutdown | internal/engine/engine.go:1029-1032 | closes every stream with the shutdown reason and stops the loop without finishing the run |
| LiveRuns.LiveRun.UpdateControls | internal/engine/engine.go:642-672 | a receipt with revision and effective tick, or a refusal that changes nothing |
| LiveRuns.LiveRun.SetPaused | internal/engine/engine.go:685-721 | records the state durably and publishes; refuses a finished run |
| LiveRuns.LiveRun.Finish | internal/engine/engine.go:1089-1115 | final snapshot, last frame, every stream closed, idempotent |
| LiveRuns.LiveRun.Advance | internal/engine/engine.go:1047-1086 | a tick of the loop: step, publish, finish at the limit or on failure |

## Left out

- The generated code, the gRPC and HTTP services, the rest of `internal/wire`, the commands and their flags: field
  mapping and plumbing.
- `internal/projection`, `internal/metrics`, `internal/tracing`, `internal/render`: socket pumping and observability
  with no effect on simulation state.
- The JSON text of records and snapshots: both are structured values here, so encoding, decoding and read errors of a
  healthy log are not modelled, nor is the wall-clock `recorded_at`.
- The determinism chain, SHA-256 digests and `Absorbed`: they are functions of the records and gardens modelled here.
- The inside of the random generator, and any statistical claim about it.
- Segments, fsync modes and checksums of the log library: only offsets, commits and the newest snapshot are modelled.
- Goroutines, select and mutexes: the loop is a sequence of commands, each run to completion; clocks and timestamps are
  left out.
- The registry's map of runs and its generated run identifiers: each run is modelled on its own.
- Averages in `Garden.Stats`, error message text, and which of several invalid batch changes is reported first.
- 64-bit wrap-around of counters, weights and ticks: integers are unbounded, except in parsing organism identifiers and
  in the increment that follows it. Weights whose sum overflows are therefore outside the model.
