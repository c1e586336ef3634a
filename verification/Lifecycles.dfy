/** The life of a run: what its log records of its controls, what its newest snapshot says of its state, when it ends,
    and what a reconnecting client is handed. */
module Lifecycles {
  import opened ControlRules
  import opened Gardens
  import opened Processing
  import opened Production
  import opened History
  import opened Feeds
  import opened Runs
  import opened Snapshots
  import opened Alignment
  import opened World
  import opened Soundness
  import opened Restart
  import opened Engine
  import opened BatchRefinement
  import opened Wrappers

  // ---- every live run is sound ----

  /** What holds of a live run's simulation between any two commands. Only a finished run can have failed an append. */
  ghost predicate LiveSound(l: Live, past: Past) {
    SoundSim(l.sim, l.state == Finished, past)
  }

  lemma SoundOnceOver(s: Sim, past: Past)
    requires SoundSim(s, false, past)
    ensures SoundSim(s, true, past)
  {
    hide Legal, Rising, Shows, MarksSound;
  }

  lemma SaveLiveKeepsSound(l: Live, state: Lifecycle, failed: bool, past: Past, io: SaveIO)
    requires SoundSim(l.sim, failed, past)
    ensures SoundSim(SaveLive(WithState(l, state), io).sim, failed, past)
    ensures SaveLive(WithState(l, state), io).sim.run == l.sim.run
  {
    hide SoundSim, SavedFrom;
    var s := InState(l.sim, state);
    StateSound(l.sim, failed, past, state);
    SaveIs(s, io);
    SavedSound(Save(s, io).0, s, failed, past);
    hide Save;
  }

  lemma FinishKeepsSound(l: Live, failed: bool, past: Past, io: SaveIO)
    requires WellLinked(l) && SoundSim(l.sim, failed, past)
    ensures LiveSound(Finish(l, io), past) && Finish(l, io).sim.run == l.sim.run
  {
    hide SaveLive, SoundSim, Finish;
    FinishIs(l, io);
    SaveLiveKeepsSound(l, Finished, failed, past, io);
    if !failed {
      SoundOnceOver(l.sim, past);
      SoundOnceOver(SaveLive(WithState(l, Finished), io).sim, past);
    }
  }

  lemma StepKeepsSound(s: Sim, past: Past, io: StepIO)
    requires ValidSim(s) && SoundSim(s, false, past)
    ensures var r := Step(s, io);
            r.0.run == s.run && SoundSim(r.0, io.append.AppendFails?, past) && (r.1 ==> io.append.Appends?)
  {
    hide SoundSim, SavedFrom;
    StepIs(s, io);
    match io.append {
      case AppendFails(written) => FailedAppendSound(s, past, written);
      case Appends =>
        TickedSound(s, past);
        SavedSound(Step(s, io).0, Ticked(s), false, past);
        hide Step, Ticked;
    }
  }

  lemma AdvanceKeepsSound(l: Live, step: StepIO, final: SaveIO, past: Past)
    requires ValidLive(l) && LiveSound(l, past)
    ensures LiveSound(Advance(l, step, final), past) && Advance(l, step, final).sim.run == l.sim.run
  {
    hide Advance, Step, SoundSim, SaveLive;
    AdvanceIs(l, step, final);
    if l.state == Running {
      StepKeepsSound(l.sim, past, step);
      var s, failed := Step(l.sim, step), step.append.AppendFails?;
      SaveLiveKeepsSound(l.(sim := s.0), Finished, failed, past, final);
      if !failed { SoundOnceOver(SaveLive(WithState(l.(sim := s.0), Finished), final).sim, past); }
    }
  }

  lemma UpdateKeepsSound(l: Live, c: Controls, past: Past)
    requires LiveSound(l, past)
    ensures LiveSound(UpdateControls(l, c), past)
  {
    if ValidControls(c) { StagedSound(l.sim, l.state == Finished, past, c); }
    hide SoundSim, ValidControls;
  }

  /** No command, whatever the disk does, breaks what holds of a run's simulation. */
  lemma ObeyKeepsSound(l: Live, cmd: Command, past: Past)
    requires ValidLive(l) && LiveSound(l, past)
    ensures LiveSound(Obey(l, cmd), past) && Obey(l, cmd).sim.run == l.sim.run
  {
    hide SoundSim, SaveLive, Advance, Finish, SetPaused, ValidControls, ValidFeed;
    match cmd
    case TickClock(step, final) => AdvanceKeepsSound(l, step, final, past);
    case Update(c) => UpdateKeepsSound(l, c, past);
    case Pause(io) => PauseKeepsSound(l, true, io, past);
    case Unpause(io) => PauseKeepsSound(l, false, io, past);
    case FinishRun(io) => FinishKeepsSound(l, l.state == Finished, past, io);
    case _ => OthersKeepTheRun(l, cmd);
  }

  lemma PauseKeepsSound(l: Live, paused: bool, io: SaveIO, past: Past)
    requires WellLinked(l) && LiveSound(l, past)
    ensures LiveSound(SetPaused(l, paused, io), past) && SetPaused(l, paused, io).sim.run == l.sim.run
  {
    hide SoundSim, SaveLive, SetPaused;
    if l.state == Finished {
      FinishedStays(l, paused, io);
    } else {
      SetPausedIs(l, paused, io);
      SaveLiveKeepsSound(l, if paused then Paused else Running, false, past, io);
    }
  }

  /** After any commands, with any disk failures, a live run that began sound is sound. */
  lemma {:induction false} LiveRunsStaySound(l: Live, cmds: seq<Command>, past: Past)
    requires ValidLive(l) && LiveSound(l, past)
    ensures LiveSound(ObeyAll(l, cmds), past) && ObeyAll(l, cmds).sim.run == l.sim.run
  {
    if cmds != [] {
      LiveRunsStaySound(l, cmds[..|cmds| - 1], past);
      hide LiveSound, Obey;
      ObeyKeepsSound(ObeyAll(l, cmds[..|cmds| - 1]), cmds[|cmds| - 1], past);
    }
  }

  /** A run started on a clean disk begins sound. */
  lemma StartedSound(cfg: Setup)
    requires ValidSetup(cfg)
    ensures ValidLive(Started(cfg)) && LiveSound(Started(cfg), UNBROKEN) && Started(cfg).sim.run == cfg.run
  {
    hide SoundSim, SavedFrom, Save;
    StartedValid(cfg);
    FreshSound(cfg);
    var s := InState(NewSim(cfg, NO_MARKS), Running);
    StateSound(NewSim(cfg, NO_MARKS), false, UNBROKEN, Running);
    SaveIs(s, []);
    SavedSound(Save(s, []).0, s, false, UNBROKEN);
  }

  /** So does a run revived from any disk a run can leave. */
  lemma RevivedSound(run: Run, d: Disk, past: Past)
    requires Recoverable(run, d, past) && d.marks.newest.Some?
    ensures var r := RecoverOne(run.rng, d);
            && !r.Unrecoverable?
            && (r.Skipped? <==> d.marks.newest.value.state.state == Finished)
            && (r.Revived? ==> ValidLive(r.live) && LiveSound(r.live, RestartedFrom(past, d)) && r.live.sim.run == run)
  {
    ResumeSucceeds(run, d, past);
    ResumedSound(run, d, past);
    var s := Resume(run.rng, d).value;
    SoundIsValid(s, RestartedFrom(past, d));
    hide Resume, Rebuild, ResumedSim, Refolded, Recoverable, SoundSim;
    StateSound(s, false, RestartedFrom(past, d), if s.state == Paused then Paused else Running);
  }

  /** A trace is its commands obeyed from the start. */
  lemma {:induction false} TraceObeys(cfg: Setup, cmds: seq<Command>)
    requires ValidSetup(cfg)
    ensures ValidLive(Started(cfg)) && LiveTrace(cfg, cmds).live == ObeyAll(Started(cfg), cmds)
  {
    StartedValid(cfg);
    if cmds != [] {
      TraceObeys(cfg, cmds[..|cmds| - 1]);
      hide Obey;
    }
  }

  // ---- what the log records of the controls ----

  function ReceiptChanges(receipts: seq<Receipt>): seq<Change> {
    seq(|receipts|, i requires 0 <= i < |receipts| => Change(receipts[i].revision, receipts[i].effectiveTick))
  }

  function InForce(controls: Controls, receipts: seq<Receipt>): Controls {
    if receipts == [] then controls else receipts[|receipts| - 1].controls
  }

  /** Receipts are numbered from one; those whose tick has run are exactly the control changes on the log, in
      order, each at its effective tick, and the last of them is in force; the others are staged. */
  predicate Recorded(controls: Controls, f: Feed, receipts: seq<Receipt>) {
    && f.revision == |receipts| && |f.staged| <= |receipts|
    && (forall i | 0 <= i < |receipts| :: receipts[i].revision == i + 1)
    && var done := |receipts| - |f.staged|;
       && Changes(f.records) == ReceiptChanges(receipts[..done])
       && f.controls == InForce(controls, receipts[..done])
       && forall i | done <= i < |receipts| ::
            && receipts[i].effectiveTick == f.tick
            && f.staged[i - done] == Staged(receipts[i].revision, receipts[i].controls)
  }

  lemma StageRecorded(controls: Controls, f: Feed, receipts: seq<Receipt>, c: Controls)
    requires Recorded(controls, f, receipts)
    ensures Recorded(controls, Stage(f, c), receipts + [Receipt(f.revision + 1, c, f.tick)])
  {
    var longer, done := receipts + [Receipt(f.revision + 1, c, f.tick)], |receipts| - |f.staged|;
    assert longer[..done] == receipts[..done];
  }

  lemma StepRecorded(run: Run, controls: Controls, f: Feed, receipts: seq<Receipt>)
    requires ValidRun(run) && OnTrack(run, f) && Recorded(controls, f, receipts)
    ensures Recorded(controls, StepFeed(run, f), receipts)
  {
    hide Batch, Changes, ValidControls, Legal, Numbered, Dense;
    StepOnTrack(run, f);
    hide OnTrack;
    var done := |receipts| - |f.staged|;
    assert receipts[..|receipts|] == receipts;
    assert ReceiptChanges(receipts) == ReceiptChanges(receipts[..done]) + StagedChanges(f.staged, f.tick);
    hide StagedChanges, ReceiptChanges;
  }

  /** The control changes on a live run's log are exactly revisions 1..k in order, each at the effective tick of its
      receipt, and the last one whose tick has run governs. */
  lemma {:induction false} ReceiptsAreRecorded(cfg: Setup, cmds: seq<Command>)
    requires ValidSetup(cfg) && AllAppendsWork(cmds)
    ensures var t := LiveTrace(cfg, cmds); Recorded(cfg.controls, t.live.sim.core.feed, t.receipts)
  {
    if cmds == [] {
      StartedValid(cfg);
      hide Started;
    } else {
      var k := |cmds| - 1;
      ReceiptsAreRecorded(cfg, cmds[..k]);
      TraceOnTrack(cfg, cmds[..k]);
      FollowRecorded(cfg.run, cfg.controls, LiveTrace(cfg, cmds[..k]), cmds[k]);
      hide Recorded, OnTrack, Obey;
    }
  }

  /** A live run's feed is on track: revisions in order, one block per tick, the clock one past the last record. */
  lemma TraceOnTrack(cfg: Setup, cmds: seq<Command>)
    requires ValidSetup(cfg) && AllAppendsWork(cmds)
    ensures var l := LiveTrace(cfg, cmds).live; l.sim.run == cfg.run && OnTrack(cfg.run, l.sim.core.feed)
  {
    MirrorsAlways(cfg, cmds);
    var t := LiveTrace(cfg, cmds);
    var start, tick := FreshCore(cfg.run, cfg.controls), t.live.sim.core.feed.tick;
    hide LiveTrace, CoreAfter, OnTrack, ControlsAt;
    FaithfulAfter(cfg.run, cfg.controls, PlanOf(t.receipts, tick));
    ControlsAtValid(t.receipts, tick, tick);
    StageAllOnTrack(cfg.run, CoreAfter(cfg.run, start, PlanOf(t.receipts, tick)).feed, ControlsAt(t.receipts, tick));
  }

  lemma FollowRecorded(run: Run, controls: Controls, t: Trace, cmd: Command)
    requires ValidLive(t.live) && t.live.sim.run == run && OnTrack(run, t.live.sim.core.feed) && AppendsWork(cmd)
    requires Recorded(controls, t.live.sim.core.feed, t.receipts)
    ensures Recorded(controls, Follow(t, cmd).live.sim.core.feed, Follow(t, cmd).receipts)
  {
    hide Recorded, Obey, StepFeed, OnTrack;
    ObeyCore(t.live, cmd);
    if cmd.TickClock? && !t.live.stopped && t.live.state == Running {
      StepRecorded(run, controls, t.live.sim.core.feed, t.receipts);
    } else if Accepts(t.live, cmd) {
      StageRecorded(controls, t.live.sim.core.feed, t.receipts, cmd.controls);
    }
  }

  // ---- the state on disk ----

  predicate CleanIO(cmd: Command) {
    match cmd
    case TickClock(step, final) => step == CLEAN && final == []
    case Pause(io) => io == []
    case Unpause(io) => io == []
    case FinishRun(io) => io == []
    case _ => true
  }

  predicate AllClean(cmds: seq<Command>) {
    forall i | 0 <= i < |cmds| :: CleanIO(cmds[i])
  }

  /** The newest snapshot says what the run is doing. */
  predicate StateOnDisk(l: Live) {
    && l.state != Unset && l.sim.state == l.state
    && l.sim.marks.newest.Some? && l.sim.marks.newest.value.state.state == l.state
    && l.sim.marks.newest.value.at <= l.sim.core.feed.cursor
    && PaceOnDisk(l.sim)
  }

  /** The newest snapshot carries the run's limit and pace. */
  predicate PaceOnDisk(s: Sim) {
    s.marks.newest.Some? ==>
      s.marks.newest.value.state.maxTicks == s.maxTicks && s.marks.newest.value.state.tickInterval == s.tickInterval
  }

  lemma SaveOnDisk(s: Sim)
    requires s.marks.newest.Some? ==> s.marks.newest.value.at <= s.core.feed.cursor
    ensures var r := Save(s, []);
            r.1 && SameSimulation(r.0, s) && r.0.marks.newest == Some(Saved(s.core.feed.cursor, SnapshotOf(s)))
  {
    SaveSucceedsExactly(s, []);
    InjectedFailureRecovers(s);
    SaveKeeps(s, []);
    hide Save;
  }

  lemma SaveLiveOnDisk(l: Live, state: Lifecycle)
    requires state != Unset && (l.sim.marks.newest.Some? ==> l.sim.marks.newest.value.at <= l.sim.core.feed.cursor)
    ensures StateOnDisk(SaveLive(WithState(l, state), []))
  {
    SaveOnDisk(WithState(l, state).sim);
    hide Save;
  }

  lemma FinishOnDisk(l: Live)
    requires WellLinked(l) && StateOnDisk(l)
    ensures StateOnDisk(Finish(l, []))
  {
    hide Finish, SaveLive;
    FinishIs(l, []);
    SaveLiveState(l, Finished, []);
    SaveLiveOnDisk(l, Finished);
  }

  lemma StepOnDisk(s: Sim)
    requires ValidSim(s) && s.marks.newest.Some? && s.marks.newest.value.state.state == s.state
    requires s.marks.newest.value.at <= s.core.feed.cursor && PaceOnDisk(s)
    ensures var r := Step(s, CLEAN);
            && r.1 && r.0.state == s.state && PaceOnDisk(r.0)
            && r.0.marks.newest.Some? && r.0.marks.newest.value.state.state == s.state
            && r.0.marks.newest.value.at <= r.0.core.feed.cursor
  {
    SaveOnDisk(Ticked(s));
    hide Save, Batch, SnapshotDue;
  }

  lemma AdvanceOnDisk(l: Live)
    requires ValidLive(l) && StateOnDisk(l)
    ensures StateOnDisk(Advance(l, CLEAN, []))
  {
    hide Advance, Step, SaveLive, ValidSim;
    AdvanceIs(l, CLEAN, []);
    StepOnDisk(l.sim);
    SaveLiveState(l.(sim := Step(l.sim, CLEAN).0), Finished, []);
    SaveLiveOnDisk(l.(sim := Step(l.sim, CLEAN).0), Finished);
  }

  lemma PauseOnDisk(l: Live, paused: bool)
    requires WellLinked(l) && StateOnDisk(l)
    ensures StateOnDisk(SetPaused(l, paused, []))
  {
    hide SetPaused, SaveLive;
    if l.state == Finished {
      FinishedStays(l, paused, []);
    } else {
      var state := if paused then Paused else Running;
      SetPausedIs(l, paused, []);
      SaveLiveState(l, state, []);
      SaveLiveOnDisk(l, state);
    }
  }

  lemma ObeyOnDisk(l: Live, cmd: Command)
    requires ValidLive(l) && StateOnDisk(l) && CleanIO(cmd)
    ensures StateOnDisk(Obey(l, cmd))
  {
    hide Advance, Finish, SetPaused, ValidSim;
    match cmd
    case TickClock(step, final) => AdvanceOnDisk(l);
    case Update(c) =>
    case Pause(io) => PauseOnDisk(l, true);
    case Unpause(io) => PauseOnDisk(l, false);
    case FinishRun(io) => FinishOnDisk(l);
    case _ => OthersKeepTheRun(l, cmd);
  }

  /** Absent write failures the newest snapshot says, between any two commands, what the run is doing. */
  lemma {:induction false} StateAlwaysOnDisk(l: Live, cmds: seq<Command>)
    requires ValidLive(l) && StateOnDisk(l) && AllClean(cmds)
    ensures StateOnDisk(ObeyAll(l, cmds))
  {
    if cmds != [] {
      var k := |cmds| - 1;
      StateAlwaysOnDisk(l, cmds[..k]);
      hide StateOnDisk, Obey;
      ObeyOnDisk(ObeyAll(l, cmds[..k]), cmds[k]);
    }
  }

  /** A run started over an empty log says so on disk exactly when no snapshot past the log's end was left there: one
      that was shadows every snapshot below it. */
  lemma StartedOnDiskExactly(cfg: Setup, left: Marks, io: SaveIO)
    requires ValidSetup(cfg) && StartRun(cfg, Disk([], left), io).Success?
    ensures var l := StartRun(cfg, Disk([], left), io).value;
            ValidLive(l) && (StateOnDisk(l) <==> (left.newest.Some? ==> left.newest.value.at == 0))
  {
    var s := NewSim(cfg, left).(state := Running);
    SaveKeeps(s, io);
    if left.newest.Some? ==> left.newest.value.at == 0 { SaveSucceedsExactly(s, io); }
    hide Save, SavePoints, SomeAttemptSaves;
  }

  /** Beside a snapshot past its empty log a run starts as ever, but it cannot be recovered: its restart reads that
      snapshot and finds it stranded. Beside any other it can. */
  lemma StartedIsStrandedExactly(cfg: Setup, left: Marks)
    requires ValidSetup(cfg)
    ensures StartRun(cfg, Disk([], left), []).Success?
    ensures var l := StartRun(cfg, Disk([], left), []).value;
            var r := RecoverOne(cfg.run.rng, DiskOf(l.sim));
            && (r == Unrecoverable(Stranded) <==> left.newest.Some? && left.newest.value.at > 0)
            && (r != Unrecoverable(Stranded) ==> r.Revived? && r.live.state == Running && r.live.sim.run == cfg.run)
  {
    var s := NewSim(cfg, left).(state := Running);
    InjectedFailureRecovers(s);
    SaveKeeps(s, []);
    hide Save, SavePoints, FreshPlot;
    FreshIndexed(cfg.run.organisms);
    if left.newest.Some? && left.newest.value.at > 0 {
      StartRunStranded(cfg.run.rng, DiskOf(Save(s, []).0));
    } else {
      SaveSucceedsExactly(s, []);
      StartRunRevived(cfg.run, DiskOf(Save(s, []).0));
    }
  }

  lemma StartRunStranded(rng: Generator, d: Disk)
    requires d.marks.newest.Some? && d.marks.newest.value.at > |d.records|
    ensures RecoverOne(rng, d) == Unrecoverable(Stranded)
  {
  }

  lemma StartRunRevived(run: Run, d: Disk)
    requires ValidRun(run) && d.records == [] && d.marks.newest.Some?
    requires var sv := d.marks.newest.value;
             && sv.at == 0 && sv.state.schemaVersion == SNAPSHOT_SCHEMA_VERSION && sv.state.runID == run.runID
             && sv.state.seed == run.seed && sv.state.duplicateEvery == run.duplicateEvery
             && |sv.state.organisms| == run.organisms && Indexed(sv.state.organisms) && sv.state.state == Running
    ensures var r := RecoverOne(run.rng, d); r.Revived? && r.live.state == Running && r.live.sim.run == run
  {
    hide Indexed;
  }

  /** A revived run does exactly when the snapshot it came from had recorded a state. */
  lemma RevivedOnDiskExactly(rng: Generator, d: Disk)
    requires RecoverOne(rng, d).Revived?
    ensures d.marks.newest.Some?
    ensures StateOnDisk(RecoverOne(rng, d).live) <==> d.marks.newest.value.state.state != Unset
  {
    hide Fold, Merge, TicksIn, Replay;
  }

  /** Absent write failures, a crash between any two commands of a run, first process or revived, and a recovery never
      revive a finished run, and bring any other back as the same run in the state it was in, recorded again. */
  lemma RecoveryKeepsTheLifecycle(l: Live, cmds: seq<Command>, past: Past)
    requires ValidLive(l) && LiveSound(l, past) && StateOnDisk(l) && AllClean(cmds)
    ensures var now := ObeyAll(l, cmds);
            var r := RecoverOne(l.sim.run.rng, DiskOf(now.sim));
            && (r.Skipped? <==> now.state == Finished)
            && (now.state != Finished ==>
                  && r.Revived? && r.live.state == now.state
                  && ValidLive(r.live) && StateOnDisk(r.live) && LiveSound(r.live, RestartedFrom(past, DiskOf(now.sim)))
                  && r.live.sim.run == l.sim.run && r.live.sim.core.feed.records == now.sim.core.feed.records
                  && r.live.sim.maxTicks == now.sim.maxTicks && r.live.sim.tickInterval == now.sim.tickInterval)
  {
    StateAlwaysOnDisk(l, cmds);
    LiveRunsStaySound(l, cmds, past);
    var now := ObeyAll(l, cmds);
    hide ObeyAll, SoundSim, Resume;
    DiskSound(now.sim, now.state == Finished, past);
    RevivedSound(l.sim.run, DiskOf(now.sim), past);
    ResumeSucceeds(l.sim.run, DiskOf(now.sim), past);
    hide Recoverable, Rebuild, ResumedSim, Refolded, ValidLive;
  }

  // ---- the end of a run ----

  lemma ObeyFinished(l: Live, cmd: Command)
    requires ValidLive(l) && l.state == Finished
    ensures Obey(l, cmd).state == Finished && Obey(l, cmd).sim == l.sim
  {
  }

  /** Finished is absorbing: no command, whatever the disk does, changes the clock, the garden or the log again. */
  lemma {:induction false} FinishedIsAbsorbing(l: Live, cmds: seq<Command>)
    requires ValidLive(l) && l.state == Finished
    ensures ObeyAll(l, cmds).state == Finished && ObeyAll(l, cmds).sim == l.sim
  {
    if cmds != [] {
      FinishedIsAbsorbing(l, cmds[..|cmds| - 1]);
      ObeyFinished(ObeyAll(l, cmds[..|cmds| - 1]), cmds[|cmds| - 1]);
      hide Obey;
    }
  }

  predicate WithinMaxTicks(l: Live) {
    l.sim.maxTicks > 0 ==>
      l.sim.core.feed.tick <= l.sim.maxTicks && (l.state != Finished ==> l.sim.core.feed.tick < l.sim.maxTicks)
  }

  lemma StepTickBy(s: Sim, io: StepIO)
    requires ValidSim(s)
    ensures var r := Step(s, io);
            && r.0.maxTicks == s.maxTicks
            && s.core.feed.tick <= r.0.core.feed.tick <= s.core.feed.tick + 1
  {
    SaveKeeps(Ticked(s), io.save);
    hide Save, Batch, SnapshotDue;
  }

  lemma AdvanceWithinMaxTicks(l: Live, step: StepIO, final: SaveIO)
    requires ValidLive(l) && WithinMaxTicks(l)
    ensures WithinMaxTicks(Advance(l, step, final))
  {
    hide Advance, Step, SaveLive, ValidSim;
    AdvanceIs(l, step, final);
    StepTickBy(l.sim, step);
    SaveLiveKeeps(l.(sim := Step(l.sim, step).0), Finished, final);
  }

  lemma ObeyWithinMaxTicks(l: Live, cmd: Command)
    requires ValidLive(l) && WithinMaxTicks(l)
    ensures WithinMaxTicks(Obey(l, cmd))
  {
    hide Advance, Finish, SetPaused, SaveLive, ValidSim;
    match cmd
    case TickClock(step, final) => AdvanceWithinMaxTicks(l, step, final);
    case Update(c) =>
    case Pause(io) =>
      SaveLiveKeeps(l, Paused, io);
      if l.state != Finished { SetPausedIs(l, true, io); } else { FinishedStays(l, true, io); }
    case Unpause(io) =>
      SaveLiveKeeps(l, Running, io);
      if l.state != Finished { SetPausedIs(l, false, io); } else { FinishedStays(l, false, io); }
    case FinishRun(io) => FinishValid(l, io);
    case _ => OthersKeepTheRun(l, cmd);
  }

  lemma {:induction false} StaysWithinMaxTicks(l: Live, cmds: seq<Command>)
    requires ValidLive(l) && WithinMaxTicks(l)
    ensures WithinMaxTicks(ObeyAll(l, cmds))
  {
    if cmds != [] {
      StaysWithinMaxTicks(l, cmds[..|cmds| - 1]);
      hide WithinMaxTicks, Obey;
      ObeyWithinMaxTicks(ObeyAll(l, cmds[..|cmds| - 1]), cmds[|cmds| - 1]);
    }
  }

  /** A started run never exceeds its tick limit, and is finished once it reaches it, whatever the disk does or held. */
  lemma StartedRunRespectsMaxTicks(cfg: Setup, left: Marks, io: SaveIO, cmds: seq<Command>)
    requires ValidSetup(cfg) && StartRun(cfg, Disk([], left), io).Success?
    ensures ValidLive(StartRun(cfg, Disk([], left), io).value)
    ensures WithinMaxTicks(ObeyAll(StartRun(cfg, Disk([], left), io).value, cmds))
  {
    SaveKeeps(NewSim(cfg, left).(state := Running), io);
    hide Save, SavePoints, ObeyAll;
    StaysWithinMaxTicks(StartRun(cfg, Disk([], left), io).value, cmds);
  }

  /** Clock ticks taken while running. */
  function TicksTaken(l: Live, cmds: seq<Command>): nat
    requires ValidLive(l)
  {
    if cmds == [] then 0
    else
      var k := |cmds| - 1;
      var before := ObeyAll(l, cmds[..k]);
      TicksTaken(l, cmds[..k]) + if cmds[k].TickClock? && !before.stopped && before.state == Running then 1 else 0
  }

  lemma ObeyKeepsLimit(l: Live, cmd: Command)
    requires ValidLive(l)
    ensures Obey(l, cmd).sim.maxTicks == l.sim.maxTicks
  {
    hide Advance, Finish, SetPaused, SaveLive, ValidFeed, Step;
    match cmd
    case TickClock(step, final) =>
      AdvanceIs(l, step, final);
      StepValid(l.sim, step);
      SaveLiveKeeps(l.(sim := Step(l.sim, step).0), Finished, final);
    case Update(c) =>
    case Pause(io) =>
      SaveLiveKeeps(l, Paused, io);
      if l.state != Finished { SetPausedIs(l, true, io); } else { FinishedStays(l, true, io); }
    case Unpause(io) =>
      SaveLiveKeeps(l, Running, io);
      if l.state != Finished { SetPausedIs(l, false, io); } else { FinishedStays(l, false, io); }
    case FinishRun(io) => FinishValid(l, io);
    case _ => OthersKeepTheRun(l, cmd);
  }

  /** With working appends the clock counts exactly the ticks taken, and the limit stands. */
  lemma {:induction false} TicksAreCounted(l: Live, cmds: seq<Command>)
    requires ValidLive(l) && AllAppendsWork(cmds)
    ensures var now := ObeyAll(l, cmds).sim;
            now.core.feed.tick == l.sim.core.feed.tick + TicksTaken(l, cmds) && now.maxTicks == l.sim.maxTicks
  {
    if cmds != [] {
      var k := |cmds| - 1;
      hide Obey, StepCore, ValidSim;
      TicksAreCounted(l, cmds[..k]);
      var before := ObeyAll(l, cmds[..k]);
      ObeyCore(before, cmds[k]);
      ObeyKeepsLimit(before, cmds[k]);
      StepOnce(before);
    }
  }

  lemma StepOnce(l: Live)
    requires ValidLive(l)
    ensures StepCore(l.sim.run, l.sim.core).feed.tick == l.sim.core.feed.tick + 1
  {
    StepTicks(l.sim.run, l.sim.core);
    hide StepCore;
  }

  /** A started run with a limit takes at most that many ticks, and the last of them finishes it, whatever else it is
      told and however its saves go. */
  lemma StartedRunFinishesAtMaxTicks(cfg: Setup, left: Marks, io: SaveIO, cmds: seq<Command>)
    requires ValidSetup(cfg) && cfg.maxTicks > 0 && AllAppendsWork(cmds)
    requires StartRun(cfg, Disk([], left), io).Success?
    ensures ValidLive(StartRun(cfg, Disk([], left), io).value)
    ensures var l := StartRun(cfg, Disk([], left), io).value;
            var now := ObeyAll(l, cmds);
            && TicksTaken(l, cmds) <= cfg.maxTicks && now.sim.core.feed.tick == TicksTaken(l, cmds)
            && (TicksTaken(l, cmds) == cfg.maxTicks ==> now.state == Finished)
  {
    hide ObeyAll, TicksTaken, Save, SavePoints;
    SaveKeeps(NewSim(cfg, left).(state := Running), io);
    StartedRunRespectsMaxTicks(cfg, left, io, cmds);
    TicksAreCounted(StartRun(cfg, Disk([], left), io).value, cmds);
  }

  /** `n` ticks of the clock on a healthy disk. */
  function Clock(n: nat): seq<Command> {
    if n == 0 then [] else Clock(n - 1) + [TickClock(CLEAN, [])]
  }

  /** Left to its clock, a running run with ticks left runs them all and is then finished. */
  lemma {:induction false} ClockRunsToTheLimit(l: Live, n: nat)
    requires ValidLive(l) && l.state == Running && !l.stopped && l.sim.maxTicks > 0
    requires l.sim.core.feed.tick + n <= l.sim.maxTicks && l.sim.core.feed.tick < l.sim.maxTicks
    ensures var now := ObeyAll(l, Clock(n));
            && now.sim.core.feed.tick == l.sim.core.feed.tick + n && now.sim.maxTicks == l.sim.maxTicks
            && (now.state == Finished <==> now.sim.core.feed.tick == l.sim.maxTicks)
            && (now.state != Finished ==> now.state == Running && !now.stopped)
  {
    hide Obey, ObeyAll, ValidSim, Clock, WellLinked;
    ClockIs(l, n);
    if n > 0 {
      ClockRunsToTheLimit(l, n - 1);
      CleanTick(ObeyAll(l, Clock(n - 1)));
    }
  }

  lemma ClockIs(l: Live, n: nat)
    requires ValidLive(l)
    ensures n == 0 ==> ObeyAll(l, Clock(n)) == l
    ensures n > 0 ==> ObeyAll(l, Clock(n)) == Obey(ObeyAll(l, Clock(n - 1)), TickClock(CLEAN, []))
  {
    hide Obey;
    if n > 0 { ObeyNext(l, Clock(n - 1), TickClock(CLEAN, [])); }
  }

  lemma CleanTick(l: Live)
    requires ValidLive(l) && l.state == Running && !l.stopped && l.sim.maxTicks > 0
    requires l.sim.core.feed.tick < l.sim.maxTicks
    ensures var r := Obey(l, TickClock(CLEAN, []));
            && r.sim.core.feed.tick == l.sim.core.feed.tick + 1 && r.sim.maxTicks == l.sim.maxTicks
            && r.state == (if r.sim.core.feed.tick == l.sim.maxTicks then Finished else Running)
            && (r.state == Running ==> !r.stopped)
  {
    CleanStepSucceeds(l.sim);
    StepValid(l.sim, CLEAN);
    StepTicks(l.sim.run, l.sim.core);
    AdvanceIs(l, CLEAN, []);
    AdvanceKeepsLooping(l, CLEAN, []);
    SaveLiveKeeps(l.(sim := Step(l.sim, CLEAN).0), Finished, []);
    hide Advance, Step, StepCore, SaveLive, ValidSim;
  }

  lemma CleanStepSucceeds(s: Sim)
    requires ValidSim(s)
    ensures Step(s, CLEAN).1
  {
    InjectedFailureRecovers(Ticked(s));
    hide Save, Ticked, SnapshotDue;
  }

  lemma AdvanceKeepsLooping(l: Live, step: StepIO, final: SaveIO)
    requires ValidLive(l) && !l.stopped
    ensures !Advance(l, step, final).stopped
  {
    hide Step, Save, FrameOf, Offered, HasRoom, ValidSim;
  }

  predicate NotPastLimit(l: Live) {
    l.sim.maxTicks > 0 ==> l.sim.core.feed.tick <= l.sim.maxTicks
  }

  /** The newest snapshot and the records after it leave ticks to run. */
  predicate TicksLeft(d: Disk, sv: Saved)
    requires sv.at <= |d.records|
  {
    sv.state.maxTicks <= 0 || sv.state.tick + TicksIn(d.records[sv.at..]) < sv.state.maxTicks
  }

  lemma RevivedClock(rng: Generator, d: Disk)
    requires RecoverOne(rng, d).Revived?
    ensures d.marks.newest.Some? && d.marks.newest.value.at <= |d.records|
    ensures var l, sv := RecoverOne(rng, d).live, d.marks.newest.value;
            && l == LiveOver(l.sim) && l.sim.snapshotEvery == 0 && (l.state == Running || l.state == Paused)
            && l.sim.maxTicks == sv.state.maxTicks
            && l.sim.core.feed.tick == sv.state.tick + TicksIn(d.records[sv.at..])
  {
    hide Fold, Merge, TicksIn, Replay;
  }

  /** A revived run never exceeds its tick limit, whatever its commands and the disk, exactly when its disk left ticks
      to run. */
  lemma RevivedRunRespectsMaxTicksExactly(rng: Generator, d: Disk)
    requires RecoverOne(rng, d).Revived? && ValidLive(RecoverOne(rng, d).live)
    ensures d.marks.newest.Some? && d.marks.newest.value.at <= |d.records|
    ensures (forall cmds :: NotPastLimit(ObeyAll(RecoverOne(rng, d).live, cmds)))
            <==> TicksLeft(d, d.marks.newest.value)
  {
    RevivedClock(rng, d);
    var l := RecoverOne(rng, d).live;
    hide RecoverOne, TicksIn, ObeyAll;
    if TicksLeft(d, d.marks.newest.value) {
      forall cmds ensures NotPastLimit(ObeyAll(l, cmds)) { StaysWithinMaxTicks(l, cmds); }
    } else {
      var cmds := Overshoots(l);
      assert !NotPastLimit(ObeyAll(l, cmds));
    }
  }

  /** A run at its limit that is not over takes one more tick, unpaused first if it was paused. */
  lemma Overshoots(l: Live) returns (cmds: seq<Command>)
    requires ValidLive(l) && l == LiveOver(l.sim) && (l.state == Running || l.state == Paused)
    requires l.sim.snapshotEvery == 0
    requires l.sim.maxTicks > 0 && l.sim.core.feed.tick >= l.sim.maxTicks
    ensures !NotPastLimit(ObeyAll(l, cmds))
  {
    hide Advance, SetPaused;
    var tick := TickClock(CLEAN, []);
    if l.state == Running {
      OvershootStep(l);
      ObeyOne(l, tick);
      return [tick];
    }
    UnpauseOnly(l);
    var running := SetPaused(l, false, []);
    OvershootStep(running);
    ObeyOne(l, Unpause([]));
    ObeyNext(l, [Unpause([])], tick);
    return [Unpause([])] + [tick];
  }

  lemma ObeyNext(l: Live, cmds: seq<Command>, cmd: Command)
    requires ValidLive(l)
    ensures ObeyAll(l, cmds + [cmd]) == Obey(ObeyAll(l, cmds), cmd)
  {
    assert (cmds + [cmd])[..|cmds + [cmd]| - 1] == cmds;
    hide Obey;
  }

  lemma ObeyOne(l: Live, cmd: Command)
    requires ValidLive(l)
    ensures ObeyAll(l, [cmd]) == Obey(l, cmd)
  {
    ObeyNext(l, [], cmd);
    assert [] + [cmd] == [cmd];
    hide Obey;
  }

  lemma UnpauseOnly(l: Live)
    requires ValidLive(l) && l == LiveOver(l.sim) && l.state != Finished
    ensures var r := SetPaused(l, false, []);
            && ValidLive(r) && r.state == Running && !r.stopped && r.sim.snapshotEvery == l.sim.snapshotEvery
            && r.sim.maxTicks == l.sim.maxTicks && r.sim.core == l.sim.core
  {
    hide SetPaused, SaveLive, ValidFeed;
    SetPausedIs(l, false, []);
    SaveLiveKeeps(l, Running, []);
  }

  lemma OvershootStep(l: Live)
    requires ValidLive(l) && l.state == Running && l.sim.snapshotEvery == 0
    requires l.sim.maxTicks > 0 && l.sim.core.feed.tick >= l.sim.maxTicks
    ensures var next := Advance(l, CLEAN, []);
            && next.sim.core.feed.tick == l.sim.core.feed.tick + 1 && next.state == Finished
            && next.sim.maxTicks == l.sim.maxTicks
  {
    assert Step(l.sim, CLEAN) == (Ticked(l.sim), true);
    StepTicks(l.sim.run, l.sim.core);
    hide Step, Advance, SaveLive, StepCore;
    AdvanceIs(l, CLEAN, []);
    SaveLiveKeeps(l.(sim := Ticked(l.sim)), Finished, []);
  }

  /** One that does: any run limited to one tick, cut short in that tick after its records were written and before its
      final snapshot, is revived at its limit and goes on to tick two. */
  lemma RecoveredRunOvershoots(cfg: Setup)
    requires ValidSetup(cfg) && cfg.maxTicks == 1
    ensures ValidLive(Started(cfg)) && Started(cfg).state == Running
    ensures var s := Started(cfg).sim;
            var d := DiskOf(Ticked(s));
            var r := RecoverOne(cfg.run.rng, d);
            && d in TickDisks(s, CLEAN)
            && r.Revived? && ValidLive(r.live) && r.live.state == Running && r.live.sim.core.feed.tick == 1
            && Advance(r.live, CLEAN, []).sim.core.feed.tick == 2 && r.live.sim.maxTicks == 1
  {
    hide Started, SoundSim, Advance, StepCore, RecoverOne, Recoverable, TickDisks, TicksIn;
    hide SameClockLead, SameCountLead;
    StartedSound(cfg);
    StartedValid(cfg);
    StartedAtTickZero(cfg);
    var s := Started(cfg).sim;
    CutAfterTheRecords(s);
    TickedSound(s, UNBROKEN);
    StepTicks(s.run, s.core);
    var t := Ticked(s);
    DiskSound(t, false, UNBROKEN);
    RevivedSound(cfg.run, DiskOf(t), UNBROKEN);
    RevivedClock(cfg.run.rng, DiskOf(t));
    ClockRestoredExactly(t, UNBROKEN);
    RevivedRunning(cfg.run.rng, DiskOf(t));
    OvershootStep(RecoverOne(cfg.run.rng, DiskOf(t)).live);
  }

  lemma StartedAtTickZero(cfg: Setup)
    requires ValidSetup(cfg)
    ensures var s := Started(cfg).sim;
            && s.maxTicks == cfg.maxTicks && s.marks.newest.Some?
            && var sv := s.marks.newest.value;
               DrainedAt(sv) && sv.state.state == Running && sv.state.maxTicks == cfg.maxTicks
  {
    SaveOnDisk(NewSim(cfg, NO_MARKS).(state := Running));
    hide Save;
  }

  lemma RevivedRunning(rng: Generator, d: Disk)
    requires RecoverOne(rng, d).Revived? && d.marks.newest.Some? && d.marks.newest.value.state.state == Running
    ensures RecoverOne(rng, d).live.state == Running
  {
    hide Fold, Merge, TicksIn, Replay;
  }

  lemma CutAfterTheRecords(s: Sim)
    requires ValidSim(s)
    ensures DiskOf(Ticked(s)) in TickDisks(s, CLEAN)
  {
    var b := Batch(s.run, s.core.feed);
    assert b[..|b|] == b;
    assert AppendDisks(s)[|b|] == DiskOf(Ticked(s));
    assert TickDisks(s, CLEAN)[|b|] == AppendDisks(s)[|b|];
  }

  // ---- catching up ----

  /** What a reconnecting client is handed by this run: exactly the records from its offset to the log's end, and a
      first frame that is the fold of the records below its folded offset. */
  ghost predicate HandsOver(l: Live, from: int, after: Live)
    requires Serves(l, from)
  {
    var rs, n, missed := l.sim.core.feed.records, l.sim.run.organisms, Missed(l, from);
    && |after.streams| == |l.streams| + 1 && |after.streams[|l.streams|].frames| == 1
    && var frame := after.streams[|l.streams|].frames[0];
       && frame.foldedOffset <= |rs| && frame.organisms == Replay(n, rs[..frame.foldedOffset]).garden
       && from + |missed| - frame.foldedOffset == Pending(l.sim.core.feed)
       && Fold(Replay(n, rs[..from]), missed) == Replay(n, rs)
       && (Pending(l.sim.core.feed) == 0 ==> Fold(Replay(n, rs[..from]), missed).garden == frame.organisms)
  }

  /** After any commands of a run whose restarts were unsplit, a client that asks for an offset within the log is
      handed what it missed; the records and the frame meet, with neither gap nor repeat, exactly when nothing is
      pending, and a client that folds what it missed then holds the frame's garden. Any other offset registers
      nothing. */
  lemma CatchUpHandsOver(l: Live, cmds: seq<Command>, past: Past, buffer: int, from: int)
    requires ValidLive(l) && LiveSound(l, past) && past.unsplit && !ObeyAll(l, cmds).stopped
    ensures var now := ObeyAll(l, cmds);
            var after := Obey(now, CatchUp(buffer, from));
            && (Serves(now, from) ==> HandsOver(now, from, after))
            && (!Serves(now, from) ==> after == now)
  {
    hide ObeyAll, Obey, SoundSim, HandsOver, ValidSim;
    LiveRunsStaySound(l, cmds, past);
    var now := ObeyAll(l, cmds);
    if Serves(now, from) { HandedOver(now, past, buffer, from); } else { RefusedOffset(now, buffer, from); }
  }

  lemma RefusedOffset(l: Live, buffer: int, from: int)
    requires ValidLive(l) && !Serves(l, from)
    ensures Obey(l, CatchUp(buffer, from)) == l
  {
    hide ValidSim;
  }

  lemma HandedOver(l: Live, past: Past, buffer: int, from: int)
    requires ValidLive(l) && LiveSound(l, past) && past.unsplit && !l.stopped && Serves(l, from)
    ensures HandsOver(l, from, Obey(l, CatchUp(buffer, from)))
  {
    hide Obey, Fold, Replay, SoundSim, ValidSim;
    AttachedFrame(l, buffer, from);
    FoldOfMissed(l.sim, l.state == Finished, past, from);
  }

  lemma AttachedFrame(l: Live, buffer: int, from: int)
    requires ValidLive(l) && !l.stopped && Serves(l, from)
    ensures var after := Obey(l, CatchUp(buffer, from));
            |after.streams| == |l.streams| + 1 && after.streams[|l.streams|].frames == [FrameOf(l)]
  {
  }

  lemma FoldOfMissed(s: Sim, failed: bool, past: Past, from: nat)
    requires SoundSim(s, failed, past) && past.unsplit && from <= |s.core.feed.records|
    ensures var rs, n := s.core.feed.records, s.run.organisms;
            && s.core.feed.cursor <= |rs|
            && s.core.proj.garden == Replay(n, rs[..s.core.feed.cursor]).garden
            && Fold(Replay(n, rs[..from]), rs[from..]) == Replay(n, rs)
            && (Pending(s.core.feed) == 0 ==> s.core.proj.garden == Replay(n, rs).garden)
  {
    var rs := s.core.feed.records;
    hide FeedSound, MarksSound, Tracks, Aligned;
    assert rs[..from] + rs[from..] == rs && rs[..|rs|] == rs;
    FoldConcat(Starting(FreshPlot(s.run.organisms)), rs[..from], rs[from..]);
  }
}
