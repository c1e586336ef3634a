/** The two ways of running in which a snapshot can never separate a record from its redelivery. */
module SafeModes {
  import opened Events
  import opened ControlRules
  import opened Processing
  import opened Production
  import opened History
  import opened Feeds
  import opened Runs
  import opened Snapshots
  import opened World
  import opened Soundness
  import opened Agreement

  /** No redelivery, or no backlog. */
  predicate SafeControls(run: Run, c: Controls) {
    run.duplicateEvery == 0 || Capacity(c) <= 0
  }

  predicate SafeOp(run: Run, op: Op) {
    op.StageControls? ==> SafeControls(run, op.controls)
  }

  predicate SafeActions(run: Run, actions: seq<Action>) {
    forall i | 0 <= i < |actions| && actions[i].Do? :: SafeOp(run, actions[i].op)
  }

  predicate TidyMarks(run: Run, rs: seq<Event>, m: Marks) {
    m.newest.Some? ==> Unsplit(rs, m.newest.value.at) && SafeControls(run, m.newest.value.state.controls)
  }

  predicate TidyFeed(run: Run, f: Feed, failed: bool) {
    && Unsplit(f.records, f.cursor)
    && (run.duplicateEvery == 0 ==> AllFirst(f.records))
    && (run.duplicateEvery > 0 ==> UnboundedFeed(f) && (failed || f.cursor == |f.records|))
  }

  predicate TidySim(s: Sim, failed: bool) {
    TidyFeed(s.run, s.core.feed, failed) && TidyMarks(s.run, s.core.feed.records, s.marks)
  }

  predicate TidyDisk(run: Run, d: Disk) {
    TidyMarks(run, d.records, d.marks) && (run.duplicateEvery == 0 ==> AllFirst(d.records))
  }

  /** No snapshot, past or present, separates a pair. */
  predicate Tidy(run: Run, p: Process) {
    p.past.unsplit && match p
    case Up(s, failed, _) => TidySim(s, failed)
    case Down(d, _) => TidyDisk(run, d)
  }

  /** Part of a block after the log it extends: unsplit wherever the log was, and at its end. */
  lemma PartialTidy(run: Run, f: Feed, m: Marks, k: nat)
    requires ValidRun(run) && ValidFeed(f) && TidyFeed(run, f, false) && k <= |Batch(run, f)|
    requires TidyMarks(run, f.records, m) && NewestBehind(f, m)
    ensures var rs := f.records + Batch(run, f)[..k];
            && TidyMarks(run, rs, m) && Unsplit(rs, f.cursor)
            && (run.duplicateEvery == 0 ==> AllFirst(rs))
  {
    BatchAt(run, f);
    hide Batch;
  }

  lemma TickedTidy(s: Sim)
    requires ValidSim(s) && TidySim(s, false) && NewestBehind(s.core.feed, s.marks)
    ensures TidySim(Ticked(s), false)
  {
    var f := s.core.feed;
    var b := Batch(s.run, f);
    PartialTidy(s.run, f, s.marks, |b|);
    assert b[..|b|] == b;
    var r := StepFeed(s.run, f);
    assert r.records == f.records + b;
    hide Batch;
  }

  lemma FailedTidy(s: Sim, written: nat)
    requires ValidSim(s) && TidySim(s, false) && NewestBehind(s.core.feed, s.marks)
    ensures TidySim(s.(core := s.core.(feed := FailedAppend(s.run, s.core.feed, written))), true)
  {
    PartialTidy(s.run, s.core.feed, s.marks, Min(written, |Batch(s.run, s.core.feed)|));
    hide Batch;
  }

  lemma WrittenTidy(s: Sim, failed: bool, m: Marks)
    requires TidySim(s, failed) && WrittenBy(s, m)
    ensures TidyMarks(s.run, s.core.feed.records, m)
  {
  }

  lemma SavedTidy(r: Sim, s: Sim, failed: bool)
    requires TidySim(s, failed) && SavedFrom(r, s)
    ensures TidySim(r, failed)
  {
    WrittenTidy(s, failed, r.marks);
    hide TidyFeed, TidyMarks;
  }

  lemma OperateTidy(run: Run, p: Process, op: Op)
    requires Sound(run, p) && Tidy(run, p) && Allowed(p, op) && SafeOp(run, op)
    ensures Tidy(run, Operate(p, op))
  {
    var s := p.sim;
    match op
    case StageControls(c) =>
    case Tick(io) =>
      StepIs(s, io);
      hide TidySim, SavedFrom, FeedSound, Shows, MarksSound;
      match io.append {
        case AppendFails(written) => FailedTidy(s, written);
        case Appends =>
          TickedTidy(s);
          SavedTidy(Step(s, io).0, Ticked(s), false);
      }
      hide Step, Ticked, FailedAppend;
    case SaveAs(state, io) =>
      SaveIs(InState(s, state), io);
      SavedTidy(Save(InState(s, state), io).0, InState(s, state), p.failed);
      hide Save, SavedFrom;
  }

  lemma CrashPointTidy(run: Run, p: Process, op: Op, i: nat)
    requires Sound(run, p) && Tidy(run, p) && Allowed(p, op) && i < |CrashPoints(p, op)|
    ensures TidyDisk(run, CrashPoints(p, op)[i])
  {
    match op
    case StageControls(_) =>
    case Tick(io) =>
      TickDisksAre(p.sim, io, i);
      hide TickDisks, CrashDisk, TidySim, FeedSound, Shows, MarksSound;
      CrashDiskTidy(p.sim, TickDisks(p.sim, io)[i]);
    case SaveAs(state, io) =>
      SaveDisksAre(InState(p.sim, state), io, i);
      hide SaveDisks, WrittenBy;
      WrittenTidy(InState(p.sim, state), p.failed, SaveDisks(InState(p.sim, state), io)[i].marks);
  }

  lemma CrashDiskTidy(s: Sim, d: Disk)
    requires ValidSim(s) && TidySim(s, false) && NewestBehind(s.core.feed, s.marks) && CrashDisk(s, d)
    ensures TidyDisk(s.run, d)
  {
    hide Batch, Ticked, WrittenBy, AllFirst;
    if d.records == Ticked(s).core.feed.records && WrittenBy(Ticked(s), d.marks) {
      TickedTidy(s);
      TickedRun(s);
      WrittenTidy(Ticked(s), false, d.marks);
    } else {
      var k :| 0 <= k <= |Batch(s.run, s.core.feed)| && PartlyWritten(s, k) == d;
      PartialTidy(s.run, s.core.feed, s.marks, k);
    }
  }

  lemma TickedRun(s: Sim)
    requires ValidSim(s)
    ensures Ticked(s).run == s.run
  {
    hide StepCore;
  }

  lemma ResumedTidy(run: Run, d: Disk, past: Past)
    requires Recoverable(run, d, past) && d.marks.newest.Some? && TidyDisk(run, d)
    ensures Resume(run.rng, d).Success? && TidySim(Resume(run.rng, d).value, false)
  {
    ResumeSucceeds(run, d, past);
    hide Resume, Rebuild, Recoverable, Refolded, ResumedSim;
  }

  lemma NextTidy(run: Run, p: Process, a: Action)
    requires Sound(run, p) && Tidy(run, p) && (a.Do? ==> SafeOp(run, a.op))
    ensures Tidy(run, Next(run.rng, p, a))
  {
    hide SoundSim, Recoverable, Operate, CrashPoints, Resume, TidySim;
    match a
    case Do(op) => if Allowed(p, op) { OperateTidy(run, p, op); }
    case CrashDuring(op, point) =>
      if Allowed(p, op) && point < |CrashPoints(p, op)| { CrashPointTidy(run, p, op, point); }
    case Recover =>
      if p.Down? && Resume(run.rng, p.disk).Success? {
        ResumeNeedsSnapshot(run.rng, p.disk);
        ResumedTidy(run, p.disk, p.past);
      }
  }

  /** In the two modes no reachable state, running or stopped, has a snapshot that splits a redelivered pair, and no
      restart ever met one. */
  lemma {:induction false} ExecTidy(cfg: Setup, actions: seq<Action>)
    requires ValidSetup(cfg) && SafeControls(cfg.run, cfg.controls) && SafeActions(cfg.run, actions)
    ensures Tidy(cfg.run, Exec(cfg.run.rng, Launch(cfg), actions))
  {
    if actions != [] {
      var k := |actions| - 1;
      ExecTidy(cfg, actions[..k]);
      ReachableSound(cfg, actions[..k]);
      hide Sound, Tidy, Next;
      NextTidy(cfg.run, Exec(cfg.run.rng, Launch(cfg), actions[..k]), actions[k]);
    }
  }

  /** With no redelivery, or with capacity always unbounded, a crash anywhere can be recovered from as soon as one
      snapshot exists, as often as it takes, and the restarted run shows the garden of its whole log; and while the
      restarts kept the revisions, the shortcut gives the replay's counters too. */
  lemma SafeRunsAlwaysRecover(cfg: Setup, actions: seq<Action>)
    requires ValidSetup(cfg)
    requires SafeControls(cfg.run, cfg.controls) && SafeActions(cfg.run, actions)
    ensures var p := Exec(cfg.run.rng, Launch(cfg), actions);
            DiskNow(p).marks.newest.Some? ==>
              && NewestUnsplit(DiskNow(p))
              && (p.past.kept ==> Agrees(cfg.run, DiskNow(p)))
              && (p.Down? ==>
                    var r := Next(cfg.run.rng, p, Recover);
                    && r.Up? && r.sim.run == cfg.run
                    && r.sim.core.proj.garden == Replay(cfg.run.organisms, p.disk.records).garden)
  {
    hide Exec, Agrees, Resume, Recoverable, Replay, TidyFeed, SafeControls;
    ExecTidy(cfg, actions);
    RebuildAgreesExactly(cfg, actions);
    ReachableDisk(cfg, actions);
    var p := Exec(cfg.run.rng, Launch(cfg), actions);
    if p.Down? && p.disk.marks.newest.Some? { ResumedGarden(cfg.run, p.disk, p.past); }
  }

  lemma ResumedGarden(run: Run, d: Disk, past: Past)
    requires Recoverable(run, d, past) && d.marks.newest.Some? && past.unsplit && NewestUnsplit(d)
    ensures var r := Resume(run.rng, d);
            r.Success? && r.value.run == run && r.value.core.proj.garden == Replay(run.organisms, d.records).garden
  {
    hide Resume, Rebuild, ResumedSim, Recoverable, Refolded;
    ResumeSucceeds(run, d, past);
    RefoldedShows(run, d, past);
    hide Tracks, Replay;
    assert d.records[..|d.records|] == d.records;
  }
}
