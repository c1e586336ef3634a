/** Batch runs: a simulation taken through a fixed number of ticks under a fixed map of control changes. */
module Batches {
  import opened ControlRules
  import opened Gardens
  import opened Processing
  import opened Production
  import opened History
  import opened Feeds
  import opened Runs
  import opened Snapshots
  import opened EventLogs
  import opened Simulations
  import opened BatchRefinement
  import opened Wrappers

  /** What a finished batch run reports. */
  datatype Scorecard = Scorecard(
    organisms: Plot, counters: Counters, published: nat, revisions: nat, finalControls: Controls)

  function ScorecardOf(c: Core): Scorecard {
    Scorecard(c.proj.garden, c.proj.counters, c.feed.published, c.feed.revision, c.feed.controls)
  }

  lemma BatchNext(run: Run, controls: Controls, changes: map<int, Controls>, k: nat)
    requires ValidRun(run) && ValidControls(controls) && ValidChanges(changes)
    ensures var before := BatchCore(run, controls, changes, k);
            ValidFeed(before.feed) &&
            BatchCore(run, controls, changes, k + 1)
            == StepCore(run, if k in changes then before.(feed := Stage(before.feed, changes[k])) else before)
  {
    BatchPlanValid(changes, k);
    BatchPlanValid(changes, k + 1);
    assert BatchPlan(changes, k + 1)[..k] == BatchPlan(changes, k);
    var cs := BatchPlan(changes, k + 1)[k];
    var f := BatchCore(run, controls, changes, k).feed;
    if k in changes {
      assert cs[..0] == [];
      assert StageAll(f, cs) == Stage(f, changes[k]);
    } else {
      assert StageAll(f, cs) == f;
    }
    hide StepCore, Stage;
  }

  // ---- what the scorecard says ----

  /** The control changes of the first `k` ticks. */
  ghost function ChangesBefore(changes: map<int, Controls>, k: nat): set<int> {
    set t | t in changes && 0 <= t < k
  }

  /** The controls of the latest of them, or the initial ones. */
  predicate Latest(changes: map<int, Controls>, initial: Controls, k: nat, c: Controls) {
    if exists t :: t in changes && 0 <= t < k then
      exists t :: t in changes && 0 <= t < k && c == changes[t] && forall u | u in changes && 0 <= u < k :: u <= t
    else c == initial
  }

  lemma {:induction false} BatchSoFar(run: Run, controls: Controls, changes: map<int, Controls>, k: nat)
    requires ValidRun(run) && ValidControls(controls) && ValidChanges(changes)
    ensures var f := BatchCore(run, controls, changes, k).feed;
            f.staged == [] && f.revision == |ChangesBefore(changes, k)| && Latest(changes, controls, k, f.controls)
  {
    hide BatchCore, Latest, ValidControls, ChangesBefore;
    if k == 0 {
      NothingYet(run, controls, changes);
    } else {
      BatchSoFar(run, controls, changes, k - 1);
      OneMoreTickOfBatch(run, controls, changes, k - 1);
      OneMoreChange(changes, k - 1);
      LatestNext(changes, controls, k - 1, BatchCore(run, controls, changes, k - 1).feed.controls);
    }
  }

  lemma NothingYet(run: Run, controls: Controls, changes: map<int, Controls>)
    requires ValidRun(run) && ValidControls(controls) && ValidChanges(changes)
    ensures BatchCore(run, controls, changes, 0) == FreshCore(run, controls)
    ensures ChangesBefore(changes, 0) == {} && Latest(changes, controls, 0, controls)
  {
    StartOfBatch(run, controls, changes);
  }

  lemma OneMoreChange(changes: map<int, Controls>, k: nat)
    ensures |ChangesBefore(changes, k + 1)| == |ChangesBefore(changes, k)| + if k in changes then 1 else 0
  {
    if k in changes {
      assert ChangesBefore(changes, k + 1) == ChangesBefore(changes, k) + {k};
    } else {
      assert ChangesBefore(changes, k + 1) == ChangesBefore(changes, k);
    }
  }

  lemma OneMoreTickOfBatch(run: Run, controls: Controls, changes: map<int, Controls>, k: nat)
    requires ValidRun(run) && ValidControls(controls) && ValidChanges(changes)
    requires BatchCore(run, controls, changes, k).feed.staged == []
    ensures var f, r := BatchCore(run, controls, changes, k).feed, BatchCore(run, controls, changes, k + 1).feed;
            && r.staged == [] && r.revision == f.revision + (if k in changes then 1 else 0)
            && r.controls == if k in changes then changes[k] else f.controls
  {
    hide BatchCore, ValidControls, StepCore;
    BatchNext(run, controls, changes, k);
    var before := BatchCore(run, controls, changes, k);
    StepGoverns(run, before);
    if k in changes { StepGoverns(run, before.(feed := Stage(before.feed, changes[k]))); }
  }

  lemma StepGoverns(run: Run, c: Core)
    requires ValidRun(run) && ValidFeed(c.feed)
    ensures var r, f := StepCore(run, c).feed, c.feed;
            && r.staged == [] && r.revision == f.revision
            && r.controls == if f.staged == [] then f.controls else f.staged[|f.staged| - 1].controls
  {
    hide Batch, Capacity;
  }

  lemma LatestNext(changes: map<int, Controls>, initial: Controls, k: nat, c: Controls)
    requires Latest(changes, initial, k, c)
    ensures Latest(changes, initial, k + 1, if k in changes then changes[k] else c)
  {
  }

  /** Everything published is on the log and was delivered or is pending; the revision counts the changes configured;
      the final controls are those of the latest change, or the initial ones; garden and counters are the fold of what
      was delivered; and the log records one change at each tick that has one. */
  lemma ScorecardLaw(rng: Generator, b: BatchConfig)
    requires ValidConfig(b)
    ensures var c, card := BatchOf(rng, b), ScorecardOf(BatchOf(rng, b));
            && card.published == |c.feed.records| && card.revisions == |b.changes|
            && Latest(b.changes, b.controls, b.ticks, card.finalControls)
            && c.feed.cursor <= |c.feed.records|
            && card.organisms == Replay(b.organisms, c.feed.records[..c.feed.cursor]).garden
            && card.counters == Replay(b.organisms, c.feed.records[..c.feed.cursor]).counters
            && forall t :: CountAt(Changes(c.feed.records), t) == if t in b.changes then 1 else 0
  {
    hide CoreAfter, Latest, ValidControls, Legal, Numbered, Dense, Changes, Replay, CountAt;
    var run, k := RunOf(rng, b), b.ticks;
    var plan := BatchPlan(b.changes, k);
    BatchPlanValid(b.changes, k);
    FaithfulAfter(run, b.controls, plan);
    BatchSoFar(run, b.controls, b.changes, k);
    assert ChangesBefore(b.changes, k) == b.changes.Keys;
    assert |b.changes| == |b.changes.Keys|;
    forall t: int ensures CountAt(Changes(BatchOf(rng, b).feed.records), t) == if t in b.changes then 1 else 0 {
      ChangesPerTick(run, b.controls, plan, t);
      assert LogAfter(run, b.controls, plan) == BatchOf(rng, b).feed.records;
    }
  }

  // ---- the driver ----

  /** The control change of a tick, if it has one, and then the tick. */
  method RunTick(s: Simulation, changes: map<int, Controls>, tick: nat)
    requires s.Valid() && ValidChanges(changes) && s.snapshotEvery == 0
    modifies s, s.prod, s.log, s.proc, s.garden.organisms
    ensures s.Valid()
    ensures var c := old(s.View()).core;
            s.View().core == StepCore(s.run, if tick in changes then c.(feed := Stage(c.feed, changes[tick])) else c)
  {
    hide ValidControls, StepCore, Stage, ValidFeed;
    if tick in changes {
      var accepted := s.SetControls(changes[tick]);
    }
    var ok := s.Step(CLEAN);
  }

  /** Drives a simulation through every tick in order. */
  method RunTicks(s: Simulation, controls: Controls, changes: map<int, Controls>, ticks: nat)
    requires s.Valid() && ValidControls(controls) && ValidChanges(changes) && s.snapshotEvery == 0
    requires s.View().core == FreshCore(s.run, controls)
    modifies s, s.prod, s.log, s.proc, s.garden.organisms
    ensures s.Valid() && s.View().core == BatchCore(s.run, controls, changes, ticks)
  {
    hide ValidControls, StepCore, BatchCore, ValidFeed;
    StartOfBatch(s.run, controls, changes);
    for tick := 0 to ticks
      invariant s.Valid()
      invariant s.View().core == BatchCore(s.run, controls, changes, tick)
    {
      BatchNext(s.run, controls, changes, tick);
      RunTick(s, changes, tick);
    }
  }

  /** Runs a simulation to completion, or refuses its configuration. */
  method Execute(rng: Generator, cfg: BatchConfig) returns (r: Option<Scorecard>)
    ensures r.Some? <==> ValidConfig(cfg)
    ensures r.Some? ==> r.value == ScorecardOf(BatchOf(rng, cfg))
    ensures r.Some? ==>
              && r.value.published == |BatchOf(rng, cfg).feed.records| && r.value.revisions == |cfg.changes|
              && Latest(cfg.changes, cfg.controls, cfg.ticks, r.value.finalControls)
  {
    if !ValidConfig(cfg) { return None; }
    hide ValidControls, BatchCore;
    var run := RunOf(rng, cfg);
    var log := new EventLog.Open(Disk([], NO_MARKS));
    var s := NewSimulation(Setup(run, cfg.controls, 0, 0, 0), log);
    RunTicks(s, cfg.controls, cfg.changes, cfg.ticks);
    ScorecardLaw(rng, cfg);
    hide Latest;
    r := Some(Scorecard(s.garden.organisms[..], s.proc.stats, s.published, s.revision, s.controls));
  }

  lemma StartOfBatch(run: Run, controls: Controls, changes: map<int, Controls>)
    requires ValidRun(run) && ValidControls(controls) && ValidChanges(changes)
    ensures BatchCore(run, controls, changes, 0) == FreshCore(run, controls)
  {
  }
}
