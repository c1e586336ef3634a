/** What a restart gives back: exactly when it is the same run at the same point, and why such restarts, however many,
    leave no trace. */
module Restart {
  import opened Events
  import opened ControlRules
  import opened Processing
  import opened Production
  import opened History
  import opened Feeds
  import opened Runs
  import opened Snapshots
  import opened Alignment
  import opened World
  import opened Soundness
  import opened Wrappers

  // ---- the restarted run is the same run ----

  /** The snapshot had published as many records beyond its offset as the process has beyond its log. Both are zero
      in a run none of whose restarts met a backlog, if nothing was pending at the snapshot. */
  predicate SameCountLead(f: Feed, sv: Saved) {
    sv.state.published - sv.at == f.published - |f.records|
  }

  /** The snapshot's clock was as far past the first record it left as the process is past the tick of its last. */
  predicate SameClockLead(f: Feed, sv: Saved) {
    sv.at < |f.records| ==> sv.state.tick - f.records[sv.at].occurredAt == f.tick - 1 - LastTick(f.records)
  }

  /** In every reachable state tick and published count come back exactly when snapshot and process lead alike; where
      earlier restarts were drained, exactly when nothing was pending at the snapshot. */
  lemma ClockRestoredExactly(s: Sim, past: Past)
    requires SoundSim(s, false, past) && s.marks.newest.Some?
    ensures var f, sv := s.core.feed, s.marks.newest.value;
            && sv.at <= |f.records|
            && (sv.state.tick + TicksIn(f.records[sv.at..]) == f.tick <==> SameClockLead(f, sv))
            && (sv.state.published + |f.records[sv.at..]| == f.published <==> SameCountLead(f, sv))
            && (past.drained ==> (SameClockLead(f, sv) <==> DrainedAt(sv)) && (SameCountLead(f, sv) <==> DrainedAt(sv)))
  {
    hide Legal, Rising, Shows, ValidFeed, Aligned;
    var f, sv := s.core.feed, s.marks.newest.value;
    if past.drained { LeadIsBacklog(s, past); }
  }

  lemma LeadIsBacklog(s: Sim, past: Past)
    requires SoundSim(s, false, past) && past.drained && s.marks.newest.Some?
    ensures var f, sv := s.core.feed, s.marks.newest.value;
            (SameClockLead(f, sv) <==> DrainedAt(sv)) && (SameCountLead(f, sv) <==> DrainedAt(sv))
  {
    hide Legal, Rising, Shows, ValidFeed, Aligned;
    var f, sv := s.core.feed, s.marks.newest.value;
    assert f.records[..|f.records|] == f.records;
    if sv.at < sv.state.published {
      LegalMonotone(s.run, f.records, sv.at, sv.state.published - 1);
    }
  }

  /** A snapshot taken with nothing pending stands between two ticks, so it splits nothing. */
  lemma DrainedIsUnsplit(run: Run, rs: seq<Event>, sv: Saved)
    requires Legal(run, rs) && Clocked(rs, sv.at, sv.state.published, sv.state.tick) && DrainedAt(sv)
    ensures Unsplit(rs, sv.at)
  {
    hide Legal, Native;
    if sv.at < |rs| { LegalAt(run, rs, sv.at); }
  }

  /** The snapshot describes the run as it is now. */
  predicate UpToDate(s: Sim, sv: Saved) {
    var f := s.core.feed;
    && SameCountLead(f, sv) && SameClockLead(f, sv) && Pending(f) == 0 && f.staged == []
    && sv.state.controls == f.controls && sv.state.revision == f.revision
  }

  /** In every reachable state, whatever earlier restarts lost: a crash and restart give back producer position,
      clock, controls, published count, log and cursor exactly when the newest snapshot is up to date; and then the
      garden and the counters too. */
  lemma RestartRestoresExactly(s: Sim, past: Past)
    requires SoundSim(s, false, past) && s.marks.newest.Some?
    ensures Resume(s.run.rng, DiskOf(s)).Success?
    ensures var r, sv := Resume(s.run.rng, DiskOf(s)).value, s.marks.newest.value;
            && r.run == s.run && SoundSim(r, false, RestartedFrom(past, DiskOf(s)))
            && (r.core.feed == s.core.feed <==> UpToDate(s, sv))
            && (UpToDate(s, sv) ==> r.core.proj == s.core.proj.(seen := {}))
            && (UpToDate(s, sv) && past.drained ==> RestartedFrom(past, DiskOf(s)).drained)
  {
    hide Resume, SoundSim;
    DiskSound(s, false, past);
    ResumedSound(s.run, DiskOf(s), past);
    FeedRestoredExactly(s, past);
    if UpToDate(s, s.marks.newest.value) {
      UpToDateAnchors(s, past);
      ViewRestored(s, past);
    }
    hide Recoverable;
  }

  /** Saved with nothing pending, and restarted, a reachable simulation is back as it was, its settings and state
      included; only staged updates, deduplication keys and cadence are gone and the saves counted afresh. */
  lemma SavedAndRestarted(s: Sim, past: Past, io: SaveIO)
    requires SoundSim(s, false, past) && Pending(s.core.feed) == 0 && Save(s, io).1
    ensures Resume(s.run.rng, DiskOf(Save(s, io).0)).Success?
    ensures var r := Save(s, io).0;
            Resume(s.run.rng, DiskOf(r)).value
            == s.(snapshotEvery := 0, marks := r.marks, committedSeen := |s.core.feed.records|,
                  core := Core(s.core.feed.(staged := []), s.core.proj.(seen := {})),
                  saves := 0, retries := 0, failures := 0)
  {
    hide Save, Resume, Rebuild, ResumedSim, SoundSim, Recoverable, Refolded, TicksIn;
    var r := Save(s, io).0;
    SavedMarks(s, past, io);
    SavedSound(r, s, false, past);
    DiskSound(r, false, past);
    ResumeSucceeds(s.run, DiskOf(r), past);
    NothingToRefold(s.core.feed.records, r.marks.newest.value);
    EmittedIsLast(s, past);
  }

  lemma SavedMarks(s: Sim, past: Past, io: SaveIO)
    requires SoundSim(s, false, past) && Save(s, io).1
    ensures var r, at := Save(s, io).0, s.core.feed.cursor;
            SavedFrom(r, s) && r.core == s.core && r.marks == Marks(at, Some(Saved(at, SnapshotOf(s))))
  {
    hide Save, SavePointsOf, Aligned, Shows, FeedSound, MarksSound;
    SaveKeeps(s, io);
    SaveSucceedsExactly(s, io);
  }

  lemma NothingToRefold(rs: seq<Event>, sv: Saved)
    requires sv.at == |rs|
    ensures rs[sv.at..] == [] && TicksIn(rs[sv.at..]) == 0
    ensures Refolded(rs, sv) == Starting(sv.state.organisms, sv.state.counters)
  {
  }

  lemma EmittedIsLast(s: Sim, past: Past)
    requires SoundSim(s, false, past)
    ensures LastSequence(s.core.feed.records) == s.core.feed.emitted
  {
    hide Aligned, Shows, MarksSound, Legal, ValidFeed;
  }

  lemma FeedRestoredExactly(s: Sim, past: Past)
    requires SoundSim(s, false, past) && s.marks.newest.Some?
    ensures Resume(s.run.rng, DiskOf(s)).Success?
    ensures var r := Resume(s.run.rng, DiskOf(s)).value;
            && r.run == s.run && r.core.proj.seen == {}
            && (r.core.feed == s.core.feed <==> UpToDate(s, s.marks.newest.value))
  {
    hide Resume, Rebuild, ResumedSim, Refolded, Recoverable, SameCountLead, SameClockLead, Shows, MarksSound, Aligned;
    DiskSound(s, false, past);
    ResumeSucceeds(s.run, DiskOf(s), past);
    ClockRestoredExactly(s, past);
    hide TicksIn, Legal, Rising, ValidFeed;
  }

  /** An up-to-date snapshot splits no pair, unless the run has not ticked since it was restarted from that snapshot;
      and if no restart met a backlog it was drained. */
  lemma UpToDateAnchors(s: Sim, past: Past)
    requires SoundSim(s, false, past) && s.marks.newest.Some? && UpToDate(s, s.marks.newest.value)
    ensures NewestUnsplit(DiskOf(s)) || Waiting(s.core.feed)
    ensures past.drained ==> DrainedAt(s.marks.newest.value)
  {
    if past.drained { LeadIsBacklog(s, past); }
    NewestAmongRecords(s, past);
    var rs, sv := s.core.feed.records, s.marks.newest.value;
    hide Legal, SoundSim, Native;
    if sv.at < |rs| && rs[sv.at].attempt > 1 { LegalAt(s.run, rs, sv.at); }
  }

  lemma NewestAmongRecords(s: Sim, past: Past)
    requires SoundSim(s, false, past) && s.marks.newest.Some?
    ensures var rs, sv := s.core.feed.records, s.marks.newest.value;
            && Legal(s.run, rs) && sv.at <= |rs| && LastTick(rs[..sv.at]) < sv.state.tick
            && (sv.at < |rs| ==> rs[sv.at].attempt == 1 || rs[sv.at].attempt > 1)
  {
    hide Legal, Shows, Rising, Aligned, ValidFeed;
    var rs, sv := s.core.feed.records, s.marks.newest.value;
    if sv.at < |rs| { LegalRecord(s.run, rs, sv.at); }
  }

  /** As long as no update was accepted since such a snapshot and nothing is pending, garden and counters come back,
      however many changes or keys earlier restarts lost. */
  lemma ViewRestored(s: Sim, past: Past)
    requires SoundSim(s, false, past) && s.marks.newest.Some? && Pending(s.core.feed) == 0
    requires NewestUnsplit(DiskOf(s)) || Waiting(s.core.feed)
    requires s.marks.newest.value.state.revision == s.core.feed.revision
    ensures Resume(s.run.rng, DiskOf(s)).Success?
    ensures Resume(s.run.rng, DiskOf(s)).value.core.proj == s.core.proj.(seen := {})
  {
    hide Resume, Rebuild, ResumedSim, Refolded, Recoverable, Caught, FeedSound, Shows, MarksSound, Ready, Orderly;
    DiskSound(s, false, past);
    ResumeSucceeds(s.run, DiskOf(s), past);
    RefoldedIsCaught(s.core.feed, s.marks.newest.value);
  }

  // ---- and stays so ----

  /** Two simulations of one run at the same point that show the same, whatever each remembers. */
  ghost predicate SameView(a: Sim, b: Sim) {
    && a.run == b.run && a.core.feed == b.core.feed
    && a.core.proj.garden == b.core.proj.garden && a.core.proj.counters == b.core.proj.counters
  }

  /** They take the next tick alike. */
  lemma TickTogether(a: Sim, b: Sim, pasts: (Past, Past))
    requires SoundSim(a, false, pasts.0) && SoundSim(b, false, pasts.1) && SameView(a, b)
    ensures ValidSim(a) && ValidSim(b) && SameView(Ticked(a), Ticked(b))
  {
    var run, f, p, q := a.run, a.core.feed, a.core.proj, b.core.proj;
    SoundIsValid(a, pasts.0);
    SoundIsValid(b, pasts.1);
    AlignmentOf(a, pasts.0);
    AlignmentOf(b, pasts.1);
    TickedSound(a, pasts.0);
    SoundIsLegal(Ticked(a), pasts.0);
    hide SoundSim, Legal, Ready, Orderly, Fold, ValidSim;
    var n, r := |Batch(run, f)|, StepFeed(run, f);
    assert Batch(run, f)[..n] == Batch(run, f);
    assert PartlyAppended(run, f, n).records == r.records;
    ReadyAppend(run, f, p.seen, n);
    ReadyAppend(run, f, q.seen, n);
    hide Batch;
    StayAlike(run, PartlyAppended(run, f, n), p, q, r.cursor);
  }

  lemma AlignmentOf(s: Sim, past: Past)
    requires SoundSim(s, false, past)
    ensures ValidRun(s.run) && ValidFeed(s.core.feed)
    ensures Orderly(s.core.feed) && Ready(s.run, s.core.feed, s.core.proj.seen)
  {
    hide Legal, Shows, MarksSound, Ready, Orderly;
  }

  lemma SoundIsLegal(s: Sim, past: Past)
    requires SoundSim(s, false, past)
    ensures Legal(s.run, s.core.feed.records)
  {
    hide Legal, Shows, MarksSound, Aligned;
  }

  lemma {:induction false} StageAllSound(s: Sim, past: Past, cs: seq<Controls>)
    requires SoundSim(s, false, past) && ValidUpdates(cs)
    ensures SoundSim(s.(core := s.core.(feed := StageAll(s.core.feed, cs))), false, past)
  {
    if cs != [] {
      var k := |cs| - 1;
      hide SoundSim;
      StageAllSound(s, past, cs[..k]);
      StagedSound(s.(core := s.core.(feed := StageAll(s.core.feed, cs[..k]))), false, past, cs[k]);
    }
  }

  /** A sound simulation stays sound over any plan. */
  lemma {:induction false} SoundAfter(s: Sim, past: Past, plan: Plan)
    requires SoundSim(s, false, past) && ValidPlan(plan)
    ensures ValidSim(s) && SoundSim(s.(core := CoreAfter(s.run, s.core, plan)), false, past)
  {
    SoundIsValid(s, past);
    if plan != [] {
      var k := |plan| - 1;
      hide SoundSim;
      SoundAfter(s, past, plan[..k]);
      var before := s.(core := CoreAfter(s.run, s.core, plan[..k]));
      StageAllSound(before, past, plan[k]);
      TickedSound(before.(core := before.core.(feed := StageAll(before.core.feed, plan[k]))), past);
    }
  }

  lemma SoundIsValid(s: Sim, past: Past)
    requires SoundSim(s, false, past)
    ensures ValidSim(s)
  {
    hide Legal, Shows, MarksSound, Aligned;
  }

  function PlanAfter(s: Sim, plan: Plan): Sim
    requires ValidSim(s) && ValidPlan(plan)
  {
    s.(core := CoreAfter(s.run, s.core, plan))
  }

  /** Two sound simulations that show the same go on showing the same, whatever the plan. */
  lemma {:induction false} PlanTogether(a: Sim, b: Sim, pasts: (Past, Past), plan: Plan)
    requires SoundSim(a, false, pasts.0) && SoundSim(b, false, pasts.1) && SameView(a, b) && ValidPlan(plan)
    ensures ValidSim(a) && ValidSim(b) && SameView(PlanAfter(a, plan), PlanAfter(b, plan))
  {
    SoundIsValid(a, pasts.0);
    SoundIsValid(b, pasts.1);
    if plan != [] {
      hide SoundSim;
      var k := |plan| - 1;
      PlanTogether(a, b, pasts, plan[..k]);
      SoundAfter(a, pasts.0, plan[..k]);
      SoundAfter(b, pasts.1, plan[..k]);
      var x, y := PlanAfter(a, plan[..k]), PlanAfter(b, plan[..k]);
      StageAllSound(x, pasts.0, plan[k]);
      StageAllSound(y, pasts.1, plan[k]);
      hide StepCore;
      TickTogether(x.(core := x.core.(feed := StageAll(x.core.feed, plan[k]))),
                   y.(core := y.core.(feed := StageAll(y.core.feed, plan[k]))), pasts);
    }
  }

  /** Restarted equals uninterrupted: where a restart gives the run back, any further ticks under any further
      controls append the same records and reach the same garden and counters as if it had never stopped. */
  lemma RestartedEqualsUninterrupted(s: Sim, past: Past, plan: Plan)
    requires SoundSim(s, false, past) && s.marks.newest.Some? && ValidPlan(plan)
    requires UpToDate(s, s.marks.newest.value)
    ensures Resume(s.run.rng, DiskOf(s)).Success?
    ensures var r := Resume(s.run.rng, DiskOf(s)).value;
            ValidSim(s) && ValidSim(r) &&
            var a, b := CoreAfter(s.run, s.core, plan), CoreAfter(r.run, r.core, plan);
            a.feed == b.feed && a.proj.garden == b.proj.garden && a.proj.counters == b.proj.counters
  {
    hide Resume, SoundSim, UpToDate;
    RestartRestoresExactly(s, past);
    PlanTogether(s, Resume(s.run.rng, DiskOf(s)).value, (past, RestartedFrom(past, DiskOf(s))), plan);
    hide CoreAfter;
  }

  // ---- unbounded capacity ----

  predicate FlushedMarks(m: Marks) {
    m.newest.Some? ==> DrainedAt(m.newest.value) && Capacity(m.newest.value.state.controls) <= 0
  }

  /** Nothing published is ever left over, now or at the newest snapshot. */
  predicate Flushed(s: Sim) {
    UnboundedFeed(s.core.feed) && s.core.feed.cursor == s.core.feed.published && FlushedMarks(s.marks)
  }

  predicate FlushedProcess(p: Process) {
    p.past.drained && if p.Up? then Flushed(p.sim) else FlushedMarks(p.disk.marks)
  }

  predicate UnboundedOp(op: Op) {
    op.StageControls? ==> Capacity(op.controls) <= 0
  }

  predicate UnboundedActions(actions: seq<Action>) {
    forall i | 0 <= i < |actions| && actions[i].Do? :: UnboundedOp(actions[i].op)
  }

  lemma TickedFlushed(s: Sim, past: Past)
    requires ValidSim(s) && SoundSim(s, false, past) && past.drained && Flushed(s)
    ensures Flushed(Ticked(s))
  {
    StepReadsAll(s.run, s.core.feed);
    hide Batch, Legal, Rising, Shows, MarksSound, UnboundedFeed, Capacity, ReadTo;
  }

  lemma WrittenFlushed(s: Sim, m: Marks)
    requires Flushed(s) && WrittenBy(s, m)
    ensures FlushedMarks(m)
  {
  }

  lemma SavedFlushed(r: Sim, s: Sim)
    requires Flushed(s) && SavedFrom(r, s)
    ensures Flushed(r)
  {
    WrittenFlushed(s, r.marks);
    hide UnboundedFeed, FlushedMarks;
  }

  lemma FailedFlushed(s: Sim, written: nat)
    requires ValidSim(s) && Flushed(s)
    ensures Flushed(s.(core := s.core.(feed := FailedAppend(s.run, s.core.feed, written))))
  {
    hide Batch, Capacity, FlushedMarks;
  }

  lemma OperateFlushed(run: Run, p: Process, op: Op)
    requires Sound(run, p) && Allowed(p, op) && FlushedProcess(p) && UnboundedOp(op)
    ensures FlushedProcess(Operate(p, op))
  {
    var s := p.sim;
    match op
    case StageControls(c) => hide SoundSim;
    case Tick(io) =>
      hide SoundSim, Flushed, SavedFrom;
      StepIs(s, io);
      match io.append {
        case AppendFails(written) => FailedFlushed(s, written);
        case Appends =>
          TickedFlushed(s, p.past);
          SavedFlushed(Step(s, io).0, Ticked(s));
      }
      hide Step, Ticked, FailedAppend;
    case SaveAs(state, io) =>
      hide SoundSim, SavedFrom;
      SaveIs(InState(s, state), io);
      SavedFlushed(Save(InState(s, state), io).0, InState(s, state));
      hide Save;
  }

  lemma CrashFlushed(run: Run, p: Process, op: Op, i: nat)
    requires Sound(run, p) && Allowed(p, op) && FlushedProcess(p) && i < |CrashPoints(p, op)|
    ensures FlushedMarks(CrashPoints(p, op)[i].marks)
  {
    var s := p.sim;
    match op
    case StageControls(_) =>
    case Tick(io) =>
      hide SoundSim, Ticked, WrittenBy, Batch, TickDisks;
      TickDisksAre(s, io, i);
      TickedFlushed(s, p.past);
      if WrittenBy(Ticked(s), TickDisks(s, io)[i].marks) { WrittenFlushed(Ticked(s), TickDisks(s, io)[i].marks); }
    case SaveAs(state, io) =>
      hide SoundSim, WrittenBy, SaveDisks;
      SaveDisksAre(InState(s, state), io, i);
      WrittenFlushed(InState(s, state), SaveDisks(InState(s, state), io)[i].marks);
  }

  lemma ResumedFlushed(run: Run, d: Disk, past: Past)
    requires Recoverable(run, d, past) && d.marks.newest.Some? && FlushedMarks(d.marks)
    ensures Resume(run.rng, d).Success? && Flushed(Resume(run.rng, d).value)
  {
    ResumeSucceeds(run, d, past);
    hide Resume, Rebuild, ResumedSim, Refolded, Recoverable;
  }

  lemma NextFlushed(run: Run, p: Process, a: Action)
    requires Sound(run, p) && FlushedProcess(p) && (a.Do? ==> UnboundedOp(a.op))
    ensures FlushedProcess(Next(run.rng, p, a))
  {
    hide SoundSim, Recoverable, Operate, CrashPoints, Resume, Flushed;
    match a
    case Do(op) => if Allowed(p, op) { OperateFlushed(run, p, op); }
    case CrashDuring(op, point) =>
      if Allowed(p, op) && point < |CrashPoints(p, op)| { CrashFlushed(run, p, op, point); }
    case Recover =>
      if p.Down? && Resume(run.rng, p.disk).Success? {
        ResumeNeedsSnapshot(run.rng, p.disk);
        ResumedFlushed(run, p.disk, p.past);
      }
  }

  /** With unbounded capacity, in every reachable state everything published has been folded, the newest snapshot was
      drained when taken, and so was the one behind every restart. */
  lemma {:induction false} UnboundedRunsAreDrained(cfg: Setup, actions: seq<Action>)
    requires ValidSetup(cfg) && Capacity(cfg.controls) <= 0 && UnboundedActions(actions)
    ensures FlushedProcess(Exec(cfg.run.rng, Launch(cfg), actions))
  {
    if actions != [] {
      var k := |actions| - 1;
      UnboundedRunsAreDrained(cfg, actions[..k]);
      ReachableSound(cfg, actions[..k]);
      hide Sound, FlushedProcess, Next;
      NextFlushed(cfg.run, Exec(cfg.run.rng, Launch(cfg), actions[..k]), actions[k]);
    }
  }

  /** Restart equivalence: with capacity unbounded throughout, a crash after any operations, failures and earlier
      restarts, with no update staged or accepted since the newest snapshot, and a restart, continue as the run that
      never stopped. */
  lemma RestartEquivalence(cfg: Setup, actions: seq<Action>, plan: Plan)
    requires ValidSetup(cfg) && Capacity(cfg.controls) <= 0 && UnboundedActions(actions) && ValidPlan(plan)
    ensures var p := Exec(cfg.run.rng, Launch(cfg), actions);
            p.Up? && !p.failed && p.sim.marks.newest.Some? && p.sim.core.feed.staged == []
            && p.sim.marks.newest.value.state.controls == p.sim.core.feed.controls
            && p.sim.marks.newest.value.state.revision == p.sim.core.feed.revision ==>
              var r := Resume(cfg.run.rng, DiskOf(p.sim));
              && r.Success? && r.value.run == p.sim.run && r.value.core.feed == p.sim.core.feed && ValidSim(p.sim)
              && r.value.core.proj == p.sim.core.proj.(seen := {})
              && var a, b := CoreAfter(p.sim.run, p.sim.core, plan), CoreAfter(p.sim.run, r.value.core, plan);
                 a.feed == b.feed && a.proj.garden == b.proj.garden && a.proj.counters == b.proj.counters
  {
    UnboundedRunsAreDrained(cfg, actions);
    ReachableSound(cfg, actions);
    var p := Exec(cfg.run.rng, Launch(cfg), actions);
    hide Exec, Resume, CoreAfter, SoundSim, UpToDate;
    if p.Up? && !p.failed && p.sim.marks.newest.Some? {
      FlushedIsUpToDate(p.sim, p.past);
      if UpToDate(p.sim, p.sim.marks.newest.value) {
        RestartRestoresExactly(p.sim, p.past);
        RestartedEqualsUninterrupted(p.sim, p.past, plan);
      }
    }
  }

  lemma FlushedIsUpToDate(s: Sim, past: Past)
    requires SoundSim(s, false, past) && past.drained && Flushed(s) && s.marks.newest.Some?
    ensures var f, sv := s.core.feed, s.marks.newest.value;
            f.staged == [] && sv.state.controls == f.controls && sv.state.revision == f.revision <==> UpToDate(s, sv)
  {
    LeadIsBacklog(s, past);
    hide Legal, Shows, MarksSound, Rising, Aligned, SameClockLead, SameCountLead;
  }

  // ---- any number of restarts ----

  /** An operation, or a crash between two operations and a restart. */
  datatype Turn = Operation(op: Op) | Bounce

  function TakeTurn(rng: Generator, p: Process, t: Turn): Process {
    match t
    case Operation(op) => Next(rng, p, Do(op))
    case Bounce =>
      if p.Up? then Next(rng, Next(rng, p, CrashDuring(StageControls(p.sim.core.feed.controls), 0)), Recover) else p
  }

  function TakeTurns(rng: Generator, p: Process, turns: seq<Turn>): Process {
    if turns == [] then p else TakeTurn(rng, TakeTurns(rng, p, turns[..|turns| - 1]), turns[|turns| - 1])
  }

  /** The same operations with no restart between them. */
  function Unbounced(turns: seq<Turn>): seq<Action> {
    if turns == [] then []
    else
      var t := turns[|turns| - 1];
      Unbounced(turns[..|turns| - 1]) + if t.Operation? then [Do(t.op)] else []
  }

  /** Appends go through, and every restart finds a snapshot that describes the run as it is. */
  predicate SmoothTurn(p: Process, t: Turn) {
    match t
    case Operation(op) => op.Tick? ==> op.step.append.Appends?
    case Bounce => p.Up? && p.sim.marks.newest.Some? && UpToDate(p.sim, p.sim.marks.newest.value)
  }

  predicate Smooth(rng: Generator, p: Process, turns: seq<Turn>) {
    turns == [] ||
    var k := |turns| - 1;
    Smooth(rng, p, turns[..k]) && SmoothTurn(TakeTurns(rng, p, turns[..k]), turns[k])
  }

  /** Two processes of one run at the same point of it, showing the same. */
  ghost predicate InStep(run: Run, a: Process, b: Process) {
    a.Up? && b.Up? && !a.failed && !b.failed && Sound(run, a) && Sound(run, b) && SameView(a.sim, b.sim)
  }

  /** What an operation does to the feed alone. */
  function FeedBy(run: Run, f: Feed, op: Op): Feed
    requires ValidRun(run) && ValidFeed(f)
  {
    match op
    case StageControls(c) => Stage(f, c)
    case Tick(_) => StepFeed(run, f)
    case SaveAs(_, _) => f
  }

  lemma OperateFeed(p: Process, op: Op)
    requires Allowed(p, op) && (op.Tick? ==> op.step.append.Appends?)
    ensures var r := Operate(p, op);
            && r.Up? && r.failed == p.failed && r.past == p.past && r.sim.run == p.sim.run
            && r.sim.core == if op.Tick? then StepCore(p.sim.run, p.sim.core)
                             else p.sim.core.(feed := FeedBy(p.sim.run, p.sim.core.feed, op))
  {
    match op
    case StageControls(_) =>
    case Tick(io) => StepIs(p.sim, io); hide Step, StepCore;
    case SaveAs(state, io) => SaveIs(InState(p.sim, state), io); hide Save;
  }

  lemma OperateInStep(run: Run, a: Process, b: Process, op: Op)
    requires InStep(run, a, b) && (op.Tick? ==> op.step.append.Appends?)
    ensures InStep(run, Next(run.rng, a, Do(op)), Next(run.rng, b, Do(op)))
  {
    hide SoundSim, Operate, StepCore;
    assert Allowed(a, op) <==> Allowed(b, op);
    if Allowed(a, op) {
      OperateFeed(a, op);
      OperateFeed(b, op);
      OperateSound(run, a, op);
      OperateSound(run, b, op);
      if op.Tick? { TickTogether(a.sim, b.sim, (a.past, b.past)); }
    }
  }

  lemma BounceInStep(run: Run, a: Process, b: Process)
    requires InStep(run, a, b) && SmoothTurn(a, Bounce)
    ensures InStep(run, TakeTurn(run.rng, a, Bounce), b)
  {
    hide Resume, SoundSim, UpToDate, TakeTurn;
    BounceIs(run, a);
    RestartRestoresExactly(a.sim, a.past);
  }

  lemma BounceIs(run: Run, p: Process)
    requires p.Up? && SoundSim(p.sim, false, p.past)
    ensures TakeTurn(run.rng, p, Bounce) == Next(run.rng, Down(DiskOf(p.sim), p.past), Recover)
  {
    SoundIsValid(p.sim, p.past);
    hide Resume, SoundSim;
    assert Next(run.rng, p, CrashDuring(StageControls(p.sim.core.feed.controls), 0)) == Down(DiskOf(p.sim), p.past);
  }

  lemma TurnInStep(run: Run, start: Process, a: Process, ops: seq<Action>, t: Turn)
    requires InStep(run, a, Exec(run.rng, start, ops)) && SmoothTurn(a, t)
    ensures InStep(run, TakeTurn(run.rng, a, t), Exec(run.rng, start, ops + if t.Operation? then [Do(t.op)] else []))
  {
    hide InStep, Next, Exec, UpToDate;
    match t
    case Operation(op) =>
      ExecSnoc(run.rng, start, ops, Do(op));
      OperateInStep(run, a, Exec(run.rng, start, ops), op);
    case Bounce =>
      hide TakeTurn;
      assert ops + [] == ops;
      BounceInStep(run, a, Exec(run.rng, start, ops));
  }

  lemma {:induction false} TurnsInStep(run: Run, start: Process, turns: seq<Turn>)
    requires start.Up? && !start.failed && Sound(run, start) && Smooth(run.rng, start, turns)
    ensures InStep(run, TakeTurns(run.rng, start, turns), Exec(run.rng, start, Unbounced(turns)))
  {
    hide SoundSim, TakeTurn, SmoothTurn;
    if turns != [] {
      hide InStep, Exec;
      var k := |turns| - 1;
      TurnsInStep(run, start, turns[..k]);
      TurnInStep(run, start, TakeTurns(run.rng, start, turns[..k]), Unbounced(turns[..k]), turns[k]);
    }
  }

  /** Restarts leave no trace: from any state a run can reach, however many restarts there are and wherever they fall
      between its further operations, as long as each finds a snapshot that describes the run as it is, log, clock,
      controls, garden and counters are those of the same operations in one process. */
  lemma RestartsLeaveNoTrace(cfg: Setup, actions: seq<Action>, turns: seq<Turn>)
    requires ValidSetup(cfg)
    ensures var start := Exec(cfg.run.rng, Launch(cfg), actions);
            start.Up? && !start.failed && Smooth(cfg.run.rng, start, turns) ==>
              var a, b := TakeTurns(cfg.run.rng, start, turns), Exec(cfg.run.rng, start, Unbounced(turns));
              && a.Up? && b.Up? && a.sim.core.feed == b.sim.core.feed
              && a.sim.core.proj.garden == b.sim.core.proj.garden
              && a.sim.core.proj.counters == b.sim.core.proj.counters
  {
    hide TakeTurns, Exec, Smooth, Sound;
    var start := Exec(cfg.run.rng, Launch(cfg), actions);
    ReachableSound(cfg, actions);
    if start.Up? && !start.failed && Smooth(cfg.run.rng, start, turns) { TurnsInStep(cfg.run, start, turns); }
  }
}
