/** Live runs against the batch driver: which batch a live run is, and when it is none. */
module BatchRefinement {
  import opened Events
  import opened ControlRules
  import opened Processing
  import opened Production
  import opened History
  import opened Feeds
  import opened Runs
  import opened Snapshots
  import opened Engine
  import opened Wrappers

  // ---- the batch driver ----

  /** The plan a batch run follows: at most one change of controls per tick. */
  function BatchPlan(changes: map<int, Controls>, ticks: nat): Plan {
    if ticks == 0 then []
    else BatchPlan(changes, ticks - 1) + [if ticks - 1 in changes then [changes[ticks - 1]] else []]
  }

  predicate ValidChanges(changes: map<int, Controls>) {
    forall t | t in changes :: ValidControls(changes[t])
  }

  lemma {:induction false} BatchPlanValid(changes: map<int, Controls>, ticks: nat)
    requires ValidChanges(changes)
    ensures ValidPlan(BatchPlan(changes, ticks)) && |BatchPlan(changes, ticks)| == ticks
    ensures forall t | 0 <= t < ticks :: BatchPlan(changes, ticks)[t] == if t in changes then [changes[t]] else []
  {
    if ticks > 0 { BatchPlanValid(changes, ticks - 1); }
  }

  /** Where a batch run of this many ticks ends up. */
  function BatchCore(run: Run, controls: Controls, changes: map<int, Controls>, ticks: nat): Core
    requires ValidRun(run) && ValidControls(controls) && ValidChanges(changes)
  {
    BatchPlanValid(changes, ticks);
    CoreAfter(run, FreshCore(run, controls), BatchPlan(changes, ticks))
  }

  /** Everything a batch run is configured with. */
  datatype BatchConfig = BatchConfig(
    runID: string, seed: int, ticks: int, organisms: int, controls: Controls,
    changes: map<int, Controls>, duplicateEvery: int)

  predicate ValidConfig(b: BatchConfig) {
    && b.runID != "" && b.ticks >= 1 && b.organisms >= 1 && b.duplicateEvery >= 0
    && ValidControls(b.controls)
    && forall t | t in b.changes :: 0 <= t < b.ticks && ValidControls(b.changes[t])
  }

  function RunOf(rng: Generator, b: BatchConfig): Run
    requires ValidConfig(b)
  {
    Run(rng, b.runID, b.seed, b.organisms, b.duplicateEvery)
  }

  /** Where the batch run of a configuration ends up. */
  function BatchOf(rng: Generator, b: BatchConfig): Core
    requires ValidConfig(b)
  {
    BatchCore(RunOf(rng, b), b.controls, b.changes, b.ticks)
  }

  // ---- receipts ----

  /** The receipt of an accepted update. */
  datatype Receipt = Receipt(revision: nat, controls: Controls, effectiveTick: int)

  datatype Trace = Trace(live: Live, receipts: seq<Receipt>)

  predicate Accepts(l: Live, cmd: Command) {
    cmd.Update? && !l.stopped && l.state != Finished && ValidControls(cmd.controls)
  }

  function Follow(t: Trace, cmd: Command): Trace
    requires ValidLive(t.live)
  {
    var l := Obey(t.live, cmd);
    Trace(l, if Accepts(t.live, cmd)
             then t.receipts + [Receipt(l.sim.core.feed.revision, cmd.controls, l.sim.core.feed.tick)]
             else t.receipts)
  }

  /** The updates that took effect at a tick, in the order they were accepted. */
  function ControlsAt(receipts: seq<Receipt>, tick: int): seq<Controls> {
    if receipts == [] then []
    else
      var r := receipts[|receipts| - 1];
      ControlsAt(receipts[..|receipts| - 1], tick) + if r.effectiveTick == tick then [r.controls] else []
  }

  function PlanOf(receipts: seq<Receipt>, ticks: nat): (plan: Plan)
    ensures |plan| == ticks
  {
    seq(ticks, t requires 0 <= t < ticks => ControlsAt(receipts, t))
  }

  predicate ReceiptsValid(receipts: seq<Receipt>, tick: int) {
    forall i | 0 <= i < |receipts| :: ValidControls(receipts[i].controls) && receipts[i].effectiveTick <= tick
  }

  lemma {:induction false} ControlsAtValid(receipts: seq<Receipt>, now: int, tick: int)
    requires ReceiptsValid(receipts, now)
    ensures ValidUpdates(ControlsAt(receipts, tick))
    ensures tick > now ==> ControlsAt(receipts, tick) == []
  {
    if receipts != [] { ControlsAtValid(receipts[..|receipts| - 1], now, tick); }
  }

  lemma PlanOfValid(receipts: seq<Receipt>, now: int, ticks: nat)
    requires ReceiptsValid(receipts, now)
    ensures ValidPlan(PlanOf(receipts, ticks))
  {
    forall t | 0 <= t < ticks ensures ValidUpdates(PlanOf(receipts, ticks)[t]) { ControlsAtValid(receipts, now, t); }
  }

  function StageCore(c: Core, cs: seq<Controls>): Core {
    c.(feed := StageAll(c.feed, cs))
  }

  /** The run so far is the batch of the receipts, with the updates of the coming tick staged on top. */
  ghost predicate Mirrors(run: Run, controls: Controls, c: Core, receipts: seq<Receipt>) {
    && ValidRun(run) && ValidControls(controls)
    && c.feed.tick >= 0 && ReceiptsValid(receipts, c.feed.tick)
    && ValidPlan(PlanOf(receipts, c.feed.tick))
    && c == StageCore(CoreAfter(run, FreshCore(run, controls), PlanOf(receipts, c.feed.tick)),
                      ControlsAt(receipts, c.feed.tick))
  }

  lemma {:induction false} TickAfterPlan(run: Run, c: Core, plan: Plan)
    requires ValidRun(run) && ValidFeed(c.feed) && ValidPlan(plan)
    ensures CoreAfter(run, c, plan).feed.tick == c.feed.tick + |plan|
  {
    if plan != [] {
      TickAfterPlan(run, c, plan[..|plan| - 1]);
      hide Batch, Capacity;
    }
  }

  lemma ReceiptsSnoc(receipts: seq<Receipt>, r: Receipt, tick: int)
    ensures ControlsAt(receipts + [r], tick)
         == ControlsAt(receipts, tick) + if r.effectiveTick == tick then [r.controls] else []
  {
    assert (receipts + [r])[..|receipts + [r]| - 1] == receipts;
  }

  lemma UpdateMirrors(run: Run, controls: Controls, c: Core, receipts: seq<Receipt>, u: Controls)
    requires Mirrors(run, controls, c, receipts) && ValidControls(u)
    ensures Mirrors(run, controls, c.(feed := Stage(c.feed, u)),
                    receipts + [Receipt(c.feed.revision + 1, u, c.feed.tick)])
  {
    hide ControlsAt, CoreAfter, ValidControls, PlanOf, StageAll;
    var r, tick := Receipt(c.feed.revision + 1, u, c.feed.tick), c.feed.tick;
    ReceiptsSnoc(receipts, r, tick);
    PlanUnchanged(receipts, r, tick);
    StageOneMore(CoreAfter(run, FreshCore(run, controls), PlanOf(receipts, tick)).feed, ControlsAt(receipts, tick), u);
  }

  lemma PlanUnchanged(receipts: seq<Receipt>, r: Receipt, ticks: nat)
    requires r.effectiveTick == ticks
    ensures PlanOf(receipts + [r], ticks) == PlanOf(receipts, ticks)
  {
    forall t | 0 <= t < ticks ensures ControlsAt(receipts + [r], t) == ControlsAt(receipts, t) {
      ReceiptsSnoc(receipts, r, t);
    }
  }

  lemma StageOneMore(f: Feed, cs: seq<Controls>, u: Controls)
    ensures StageAll(f, cs + [u]) == Stage(StageAll(f, cs), u)
  {
    assert (cs + [u])[..|cs + [u]| - 1] == cs;
  }

  lemma StepMirrors(run: Run, controls: Controls, c: Core, receipts: seq<Receipt>)
    requires Mirrors(run, controls, c, receipts) && ValidFeed(c.feed)
    ensures Mirrors(run, controls, StepCore(run, c), receipts)
  {
    hide StepCore, ValidControls;
    var tick := c.feed.tick;
    var plan, longer := PlanOf(receipts, tick), PlanOf(receipts, tick + 1);
    assert longer[..tick] == plan && longer[tick] == ControlsAt(receipts, tick);
    PlanOfValid(receipts, tick, tick + 1);
    ControlsAtValid(receipts, tick, tick + 1);
    var after := CoreAfter(run, FreshCore(run, controls), longer);
    var before := CoreAfter(run, FreshCore(run, controls), plan);
    assert after == StepCore(run, StageCore(before, ControlsAt(receipts, tick)));
    StepTicks(run, c);
    hide CoreAfter, ControlsAt;
    assert StageCore(after, []) == after;
  }

  lemma StepTicks(run: Run, c: Core)
    requires ValidRun(run) && ValidFeed(c.feed)
    ensures StepCore(run, c).feed.tick == c.feed.tick + 1
  {
    hide Batch, Capacity;
  }

  /** No append fails. Saves may. */
  predicate AppendsWork(cmd: Command) {
    cmd.TickClock? ==> cmd.step.append.Appends?
  }

  predicate AllAppendsWork(cmds: seq<Command>) {
    forall i | 0 <= i < |cmds| :: AppendsWork(cmds[i])
  }

  /** What one command does to the simulation: a tick steps it, an accepted update is staged, nothing else matters. */
  lemma ObeyCore(l: Live, cmd: Command)
    requires ValidLive(l) && AppendsWork(cmd)
    ensures Obey(l, cmd).sim.run == l.sim.run
    ensures Obey(l, cmd).sim.core ==
            if cmd.TickClock? && !l.stopped && l.state == Running then StepCore(l.sim.run, l.sim.core)
            else if Accepts(l, cmd) then l.sim.core.(feed := Stage(l.sim.core.feed, cmd.controls))
            else l.sim.core
  {
    hide Advance, Finish, SetPaused, SaveLive, StepCore, ValidFeed, ValidRun, ValidControls;
    match cmd
    case TickClock(step, final) => AdvanceCore(l, step, final);
    case Update(_) =>
    case Pause(io) =>
      SaveLiveKeeps(l, Paused, io);
      if l.state != Finished { SetPausedIs(l, true, io); } else { FinishedStays(l, true, io); }
    case Unpause(io) =>
      SaveLiveKeeps(l, Running, io);
      if l.state != Finished { SetPausedIs(l, false, io); } else { FinishedStays(l, false, io); }
    case FinishRun(io) => FinishValid(l, io);
    case _ => OthersKeepTheRun(l, cmd);
  }

  lemma AdvanceCore(l: Live, step: StepIO, final: SaveIO)
    requires ValidLive(l) && step.append.Appends?
    ensures Advance(l, step, final).sim.run == l.sim.run
    ensures Advance(l, step, final).sim.core
         == if l.state == Running then StepCore(l.sim.run, l.sim.core) else l.sim.core
  {
    hide Advance, Step, StepCore, SaveLive, ValidFeed, ValidRun;
    AdvanceIs(l, step, final);
    StepValid(l.sim, step);
    SaveLiveKeeps(l.(sim := Step(l.sim, step).0), Finished, final);
  }

  function Started(cfg: Setup): Live {
    LiveOver(Save(NewSim(cfg, NO_MARKS).(state := Running), []).0)
  }

  lemma StartedValid(cfg: Setup)
    requires ValidSetup(cfg)
    ensures var l := Started(cfg);
            && StartRun(cfg, Disk([], NO_MARKS), []) == Success(l)
            && ValidLive(l) && l.sim.run == cfg.run && l.sim.core == FreshCore(cfg.run, cfg.controls)
            && l.state == Running
  {
    var s := NewSim(cfg, NO_MARKS).(state := Running);
    SaveKeeps(s, []);
    InjectedFailureRecovers(s);
    hide Save;
  }

  /** A live run from its start through a sequence of commands, with the receipts it gave out. */
  function LiveTrace(cfg: Setup, cmds: seq<Command>): (t: Trace)
    requires ValidSetup(cfg)
    ensures ValidLive(t.live)
  {
    StartedValid(cfg);
    if cmds == [] then Trace(Started(cfg), [])
    else
      var before := LiveTrace(cfg, cmds[..|cmds| - 1]);
      ObeyValid(before.live, cmds[|cmds| - 1]);
      Follow(before, cmds[|cmds| - 1])
  }

  /** The live run's simulation mirrors the batch of its receipts after any commands whatever. */
  lemma {:induction false} MirrorsAlways(cfg: Setup, cmds: seq<Command>)
    requires ValidSetup(cfg) && AllAppendsWork(cmds)
    ensures var t := LiveTrace(cfg, cmds);
            t.live.sim.run == cfg.run && Mirrors(cfg.run, cfg.controls, t.live.sim.core, t.receipts)
  {
    if cmds == [] {
      StartedValid(cfg);
      hide Started;
      assert PlanOf([], 0) == [];
    } else {
      var k := |cmds| - 1;
      MirrorsAlways(cfg, cmds[..k]);
      var before := LiveTrace(cfg, cmds[..k]);
      ObeyCore(before.live, cmds[k]);
      FollowMirrors(cfg.run, cfg.controls, before, cmds[k]);
      hide Mirrors, Obey;
    }
  }

  lemma FollowMirrors(run: Run, controls: Controls, t: Trace, cmd: Command)
    requires ValidLive(t.live) && AppendsWork(cmd) && t.live.sim.run == run
    requires Mirrors(run, controls, t.live.sim.core, t.receipts)
    ensures Mirrors(run, controls, Follow(t, cmd).live.sim.core, Follow(t, cmd).receipts)
  {
    hide Mirrors, StepCore, Obey, ValidFeed;
    ObeyCore(t.live, cmd);
    if cmd.TickClock? && !t.live.stopped && t.live.state == Running {
      StepMirrors(run, controls, t.live.sim.core, t.receipts);
    } else if Accepts(t.live, cmd) {
      UpdateMirrors(run, controls, t.live.sim.core, t.receipts, cmd.controls);
    }
  }

  // ---- live equals batch ----

  predicate OnePerTick(receipts: seq<Receipt>, ticks: nat) {
    forall t | 0 <= t < ticks :: |ControlsAt(receipts, t)| <= 1
  }

  /** The control changes a batch run is configured with to follow these receipts. */
  function ChangesOf(receipts: seq<Receipt>, ticks: nat): map<int, Controls> {
    map t | 0 <= t < ticks && ControlsAt(receipts, t) != [] :: ControlsAt(receipts, t)[0]
  }

  lemma PlanIsBatchPlan(receipts: seq<Receipt>, now: int, ticks: nat)
    requires ReceiptsValid(receipts, now) && OnePerTick(receipts, ticks)
    ensures ValidChanges(ChangesOf(receipts, ticks))
    ensures BatchPlan(ChangesOf(receipts, ticks), ticks) == PlanOf(receipts, ticks)
  {
    var changes := ChangesOf(receipts, ticks);
    forall t | t in changes ensures ValidControls(changes[t]) { ControlsAtValid(receipts, now, t); }
    BatchPlanValid(changes, ticks);
    var a, b := BatchPlan(changes, ticks), PlanOf(receipts, ticks);
    forall t | 0 <= t < ticks ensures a[t] == b[t] {
      assert |ControlsAt(receipts, t)| <= 1;
    }
  }

  /** Live refines batch: after any interleaving of ticks, pauses, queries, subscriptions and updates, with saves
      failing or not and any cadence, log, garden, counters, clock and controls in force are those of the batch run
      configured with the accepted updates keyed by their effective tick, provided no two share one. */
  lemma LiveRefinesBatch(cfg: Setup, cmds: seq<Command>)
    requires ValidSetup(cfg) && AllAppendsWork(cmds)
    ensures var t := LiveTrace(cfg, cmds);
            var live, ticks := t.live.sim.core, t.live.sim.core.feed.tick;
            && ticks >= 0
            && (OnePerTick(t.receipts, ticks) ==>
                  && ValidChanges(ChangesOf(t.receipts, ticks))
                  && var batch := BatchCore(cfg.run, cfg.controls, ChangesOf(t.receipts, ticks), ticks);
                     && live.feed.records == batch.feed.records && live.feed.cursor == batch.feed.cursor
                     && live.proj == batch.proj && live.feed.controls == batch.feed.controls
                     && live == StageCore(batch, ControlsAt(t.receipts, ticks)))
  {
    MirrorsAlways(cfg, cmds);
    var t := LiveTrace(cfg, cmds);
    hide LiveTrace;
    var ticks := t.live.sim.core.feed.tick;
    if OnePerTick(t.receipts, ticks) { PlanIsBatchPlan(t.receipts, ticks, ticks); }
  }

  // ---- and only then ----

  function CountAt(changes: seq<Change>, tick: int): nat {
    if changes == [] then 0
    else CountAt(changes[..|changes| - 1], tick) + if changes[|changes| - 1].tick == tick then 1 else 0
  }

  lemma {:induction false} CountOfBlock(changes: seq<Change>, block: seq<Change>, at: int, tick: int)
    requires forall i | 0 <= i < |block| :: block[i].tick == at
    ensures CountAt(changes + block, tick) == CountAt(changes, tick) + if at == tick then |block| else 0
  {
    if block == [] {
      assert changes + block == changes;
    } else {
      var k := |block| - 1;
      CountOfBlock(changes, block[..k], at, tick);
      assert (changes + block)[..|changes + block| - 1] == changes + block[..k];
    }
  }

  lemma {:induction false} StagedCount(f: Feed, cs: seq<Controls>)
    ensures |StageAll(f, cs).staged| == |f.staged| + |cs|
  {
    if cs != [] { StagedCount(f, cs[..|cs| - 1]); }
  }

  /** The log of an uninterrupted run. */
  function LogAfter(run: Run, controls: Controls, plan: Plan): seq<Event>
    requires ValidRun(run) && ValidControls(controls) && ValidPlan(plan)
  {
    CoreAfter(run, FreshCore(run, controls), plan).feed.records
  }

  /** It records, at each tick, as many control changes as were accepted for it. */
  lemma {:induction false} ChangesPerTick(run: Run, controls: Controls, plan: Plan, tick: int)
    requires ValidRun(run) && ValidControls(controls) && ValidPlan(plan)
    ensures CountAt(Changes(LogAfter(run, controls, plan)), tick) == if 0 <= tick < |plan| then |plan[tick]| else 0
  {
    hide ValidControls, ValidPlan, LogAfter, CountAt, Changes;
    if plan == [] {
      NoChangesAtFirst(run, controls, plan, tick);
    } else {
      PlanParts(plan);
      ChangesPerTick(run, controls, plan[..|plan| - 1], tick);
      OneMoreTickOfChanges(run, controls, plan, tick);
    }
  }

  lemma OneMoreTickOfChanges(run: Run, controls: Controls, plan: Plan, tick: int)
    requires ValidRun(run) && ValidControls(controls) && ValidPlan(plan) && plan != [] && ValidPlan(plan[..|plan| - 1])
    ensures var k := |plan| - 1;
            CountAt(Changes(LogAfter(run, controls, plan)), tick)
            == CountAt(Changes(LogAfter(run, controls, plan[..k])), tick) + if tick == k then |plan[k]| else 0
  {
    var c, k := FreshCore(run, controls), |plan| - 1;
    FreshValid(run, controls);
    PlanParts(plan);
    hide ValidControls, ValidPlan, CoreAfter, OnTrack, StepFeed, StageAll, ValidFeed, CountAt, Changes;
    LastStepOf(run, c, plan);
    TickAfterPlan(run, c, plan[..k]);
    BetweenTicks(run, controls, plan[..k]);
    StagedStepChanges(run, CoreAfter(run, c, plan[..k]).feed, plan[k], tick);
  }

  lemma FreshValid(run: Run, controls: Controls)
    requires ValidControls(controls)
    ensures ValidFeed(FreshCore(run, controls).feed)
  {
  }

  /** Between ticks a run is on track and has nothing staged. */
  lemma BetweenTicks(run: Run, controls: Controls, plan: Plan)
    requires ValidRun(run) && ValidControls(controls) && ValidPlan(plan)
    ensures var f := CoreAfter(run, FreshCore(run, controls), plan).feed; OnTrack(run, f) && f.staged == []
  {
    var c := FreshCore(run, controls);
    FreshValid(run, controls);
    FaithfulAfter(run, controls, plan);
    LastStepOf(run, c, plan);
    hide CoreAfter, OnTrack, ValidControls, Batch, Capacity, StageAll;
  }

  lemma LastStepOf(run: Run, c: Core, plan: Plan)
    requires ValidRun(run) && ValidFeed(c.feed) && ValidPlan(plan)
    ensures plan == [] ==> CoreAfter(run, c, plan) == c
    ensures plan != [] ==>
              var k := |plan| - 1;
              CoreAfter(run, c, plan).feed == StepFeed(run, StageAll(CoreAfter(run, c, plan[..k]).feed, plan[k]))
  {
    hide StepFeed, Fold, StageAll;
  }

  lemma PlanParts(plan: Plan)
    requires ValidPlan(plan) && plan != []
    ensures ValidPlan(plan[..|plan| - 1]) && ValidUpdates(plan[|plan| - 1])
  {
  }

  lemma NoChangesAtFirst(run: Run, controls: Controls, plan: Plan, tick: int)
    requires ValidRun(run) && ValidControls(controls) && ValidPlan(plan) && plan == []
    ensures CountAt(Changes(LogAfter(run, controls, plan)), tick) == 0
  {
    LastStepOf(run, FreshCore(run, controls), plan);
    hide CoreAfter, ValidControls;
  }

  lemma StagedStepChanges(run: Run, f: Feed, cs: seq<Controls>, tick: int)
    requires ValidRun(run) && OnTrack(run, f) && f.staged == [] && ValidUpdates(cs)
    ensures var r := StepFeed(run, StageAll(f, cs));
            && r.staged == []
            && CountAt(Changes(r.records), tick)
               == CountAt(Changes(f.records), tick) + if f.tick == tick then |cs| else 0
  {
    StageAllOnTrack(run, f, cs);
    StagedCount(f, cs);
    hide OnTrack, StepFeed, StageAll, CountAt, Changes;
    StepChanges(run, StageAll(f, cs), tick);
  }

  lemma StepChanges(run: Run, f: Feed, tick: int)
    requires ValidRun(run) && OnTrack(run, f)
    ensures StepFeed(run, f).staged == []
    ensures CountAt(Changes(StepFeed(run, f).records), tick)
         == CountAt(Changes(f.records), tick) + if f.tick == tick then |f.staged| else 0
  {
    StepOnTrack(run, f);
    CountOfBlock(Changes(f.records), StagedChanges(f.staged, f.tick), f.tick, tick);
    hide OnTrack, Changes, CountAt, Batch;
  }

  /** The batch configuration that follows these receipts. */
  function ConfigOf(cfg: Setup, receipts: seq<Receipt>, ticks: nat): BatchConfig {
    BatchConfig(cfg.run.runID, cfg.run.seed, ticks, cfg.run.organisms, cfg.controls, ChangesOf(receipts, ticks),
                cfg.run.duplicateEvery)
  }

  /** Some batch run, of any generator and any valid configuration, leaves this log. */
  ghost predicate Reproducible(rs: seq<Event>) {
    exists rng: Generator, b: BatchConfig :: ValidConfig(b) && BatchOf(rng, b).feed.records == rs
  }

  /** A live log that has run a tick is reproduced by some batch run, whatever its configuration, exactly when no two
      updates were accepted for one tick it has run. */
  lemma BatchReproducesExactly(cfg: Setup, cmds: seq<Command>)
    requires ValidSetup(cfg) && AllAppendsWork(cmds)
    ensures var t := LiveTrace(cfg, cmds);
            var ticks := t.live.sim.core.feed.tick;
            ticks >= 0 && (Reproducible(t.live.sim.core.feed.records) <==> ticks >= 1 && OnePerTick(t.receipts, ticks))
  {
    hide LiveTrace, BatchCore, CoreAfter, Mirrors, OnePerTick, BatchOf, ValidControls, ChangesOf, ValidChanges,
         ValidConfig;
    LiveRefinesBatch(cfg, cmds);
    MirrorsAlways(cfg, cmds);
    var t := LiveTrace(cfg, cmds);
    var live, ticks := t.live.sim.core, t.live.sim.core.feed.tick;
    if ticks >= 1 && OnePerTick(t.receipts, ticks) {
      var b := ConfigOf(cfg, t.receipts, ticks);
      FollowedBy(cfg, t.receipts, ticks);
      assert BatchOf(cfg.run.rng, b).feed.records == live.feed.records;
    }
    if Reproducible(live.feed.records) {
      var rng: Generator, b: BatchConfig :| ValidConfig(b) && BatchOf(rng, b).feed.records == live.feed.records;
      SameLogSamePerTick(cfg, live, t.receipts, rng, b);
    }
  }

  lemma FollowedBy(cfg: Setup, receipts: seq<Receipt>, ticks: nat)
    requires ValidSetup(cfg) && ticks >= 1 && ValidChanges(ChangesOf(receipts, ticks))
    ensures ValidConfig(ConfigOf(cfg, receipts, ticks))
    ensures BatchOf(cfg.run.rng, ConfigOf(cfg, receipts, ticks))
         == BatchCore(cfg.run, cfg.controls, ChangesOf(receipts, ticks), ticks)
  {
    hide BatchCore, ValidControls;
  }

  lemma SameLogSamePerTick(cfg: Setup, live: Core, receipts: seq<Receipt>, rng: Generator, b: BatchConfig)
    requires ValidSetup(cfg) && Mirrors(cfg.run, cfg.controls, live, receipts)
    requires ValidConfig(b) && BatchOf(rng, b).feed.records == live.feed.records
    ensures live.feed.tick >= 1 && OnePerTick(receipts, live.feed.tick)
  {
    hide CoreAfter, BatchPlan, CountAt, Changes, ControlsAt, OnTrack;
    var ticks := live.feed.tick;
    var a, plan := BatchPlan(b.changes, b.ticks), PlanOf(receipts, ticks);
    BatchPlanValid(b.changes, b.ticks);
    StagedKeepsLog(CoreAfter(cfg.run, FreshCore(cfg.run, cfg.controls), plan), ControlsAt(receipts, ticks));
    forall t | 0 <= t < ticks ensures |ControlsAt(receipts, t)| <= 1 {
      assert plan[t] == ControlsAt(receipts, t);
      ChangesPerTick(RunOf(rng, b), b.controls, a, t);
      ChangesPerTick(cfg.run, cfg.controls, plan, t);
    }
    LogExactlyWhenTicked(RunOf(rng, b), b.controls, a);
    LogExactlyWhenTicked(cfg.run, cfg.controls, plan);
  }

  lemma StagedKeepsLog(c: Core, cs: seq<Controls>)
    ensures StageCore(c, cs).feed.records == c.feed.records
  {
  }

  /** A run has left records exactly when it has run a tick. */
  lemma LogExactlyWhenTicked(run: Run, controls: Controls, plan: Plan)
    requires ValidRun(run) && ValidControls(controls) && ValidPlan(plan)
    ensures CoreAfter(run, FreshCore(run, controls), plan).feed.records == [] <==> plan == []
  {
    var c := FreshCore(run, controls);
    FaithfulAfter(run, controls, plan);
    TickAfterPlan(run, c, plan);
    hide CoreAfter, Legal, Numbered, Dense, Changes, Replay;
  }
}
