/** What is refused, each refusal exactly: opening a damaged log, rebuilding, resuming, starting and recovering a run,
    and commands to a live one. */
module Refusals {
  import opened Identifiers
  import opened Events
  import opened ControlRules
  import opened Gardens
  import opened Processing
  import opened Production
  import opened Feeds
  import opened Snapshots
  import opened Truncation
  import opened Engine
  import opened Cadence
  import opened Wrappers

  /** A corrupt log is refused by policy, or, continued with, when its newest snapshot lies past what survived of a
      discarded tail. Otherwise it opens with records and snapshot untouched and the commit pulled back to what
      survived; the reader stands at the commit, or at the start if that names a record no longer there. */
  lemma OpenHistoryLaw(d: Disk, rec: Recovery, policy: CorruptPolicy)
    ensures var r := OpenHistory(d, rec, policy);
            var cut := rec.corrupt && rec.discarded > 0;
            && (r == Failure(CorruptLog) <==> rec.corrupt && policy == RefuseCorrupt)
            && (r == Failure(StrandedSnapshot) <==>
                  cut && policy == ContinueCorrupt && d.marks.newest.Some? && d.marks.newest.value.at > rec.next)
            && (r.Success? ==>
                  var o := r.value;
                  && o.disk.records == d.records && o.disk.marks.newest == d.marks.newest
                  && o.disk.marks.committed
                     == (if cut && d.marks.committed > rec.next then rec.next else d.marks.committed)
                  && o.cursor == (if o.disk.marks.committed > |d.records| then 0 else o.disk.marks.committed))
  {
  }

  /** Some organism of the plot does not stand where its identifier says. */
  predicate Misplaced(g: Plot) {
    exists i :: 0 <= i < |g| && g[i].id != OrganismID(i)
  }

  predicate SomeInvalid(es: seq<Event>) {
    exists e :: e in es && !Valid(e)
  }

  /** Rebuilding refuses a snapshot past the log's end, then one of a schema other than 2, then one whose garden is
      empty or out of order, then a record it would have to fold that is invalid; and nothing else. */
  lemma RebuildLaw(d: Disk)
    ensures var r, none := Rebuild(d), d.marks.newest.None?;
            none ==> (r.Failure? <==> SomeInvalid(d.records)) && (r.Failure? ==> r.error == BadRecord)
    ensures var r := Rebuild(d);
            d.marks.newest.Some? ==>
              var sv, n := d.marks.newest.value, |d.records|;
              var st := sv.state;
              && (r == Failure(Stranded) <==> sv.at > n)
              && (r == Failure(WrongSchema) <==> sv.at <= n && st.schemaVersion != 2)
              && (r == Failure(BadGarden) <==>
                    sv.at <= n && st.schemaVersion == 2 && (st.organisms == [] || Misplaced(st.organisms)))
              && (r == Failure(BadRecord) <==>
                    && sv.at <= n && st.schemaVersion == 2 && st.organisms != [] && !Misplaced(st.organisms)
                    && SomeInvalid(d.records[sv.at..]))
              && r != Failure(NoRunState)
  {
    hide Replay, Fold, Merge, TicksIn, OrganismID, Validate;
  }

  /** Resuming refuses what rebuilding refuses, then a history that does not say what the run was, then an invalid last
      record; and nothing else. */
  lemma ResumeLaw(rng: Generator, d: Disk)
    ensures var b, r := Rebuild(d), Resume(rng, d);
            && (b.Failure? ==> r == Failure(b.error))
            && (r == Failure(NoRunState) <==>
                  b.Success? && (d.marks.newest.None? || d.marks.newest.value.state.runID == ""))
            && (r.Success? <==>
                  && b.Success? && d.marks.newest.Some? && d.marks.newest.value.state.runID != ""
                  && (d.records != [] ==> Valid(d.records[|d.records| - 1])))
  {
    RebuildLaw(d);
    hide Replay, Fold, Merge, TicksIn, Validate, ResumedSim, Indexed;
  }

  /** A run is not started over a log that holds records, nor when none of three attempts records it, the first of which
      is made to fail when every save is; otherwise it is running, at tick zero, with nobody listening. */
  lemma StartRunLaw(cfg: Setup, d: Disk, io: SaveIO)
    ensures var r := StartRun(cfg, d, io);
            var recorded := (cfg.controls.failSnapshotEvery != 1 && Works(io, 1)) || Works(io, 2) || Works(io, 3);
            && (r == Failure(RunHasHistory) <==> d.records != [])
            && (r == Failure(NotRecorded) <==> d.records == [] && !recorded)
            && (r.Success? ==>
                  var l := r.value;
                  && l.state == Running && l.sim.state == Running && !l.stopped && !l.failed && l.streams == []
                  && l.sim.run == cfg.run && l.sim.maxTicks == cfg.maxTicks && l.sim.snapshotEvery == cfg.snapshotEvery
                  && l.sim.core == FreshCore(cfg.run, cfg.controls) && l.sim.marks.committed == 0)
  {
    var s := NewSim(cfg, d.marks).(state := Running);
    SaveLaw(s, io);
    SaveKeeps(s, io);
    FirstOfAll(cfg.controls.failSnapshotEvery);
    hide Save, SavePoints, Works, FreshPlot;
  }

  lemma FirstOfAll(every: int)
    ensures every > 0 && 1 % every == 0 <==> every == 1
  {
    if every > 1 { RemainderIs(1, every, 0, 1); }
  }

  /** Recovery skips a run exactly when its newest snapshot says it finished, and fails exactly when resuming does; it
      brings a paused run back paused and any other running. */
  lemma RecoverOneLaw(rng: Generator, d: Disk)
    ensures var r, s := RecoverOne(rng, d), Resume(rng, d);
            && (r.Unrecoverable? <==> s.Failure?) && (s.Failure? ==> r == Unrecoverable(s.error))
            && (s.Success? ==> d.marks.newest.Some?)
            && (s.Success? ==>
                  var state := d.marks.newest.value.state.state;
                  && (r.Skipped? <==> state == Finished)
                  && (r.Revived? ==> r.live.state == (if state == Paused then Paused else Running)))
  {
    hide Replay, Fold, Merge, TicksIn, Validate, Indexed;
  }

  /** What the loop ignores: everything but taking frames once it has quit, ticks of a run that is not running, commands
      to a finished one, updates out of bounds, and offsets the log does not have. */
  predicate Ignored(l: Live, cmd: Command) {
    match cmd
    case Take(_) => false
    case TickClock(_, _) => l.stopped || l.state != Running
    case Update(c) => l.stopped || l.state == Finished || !ValidControls(c)
    case Pause(_) => l.stopped || l.state == Finished
    case Unpause(_) => l.stopped || l.state == Finished
    case FinishRun(_) => l.stopped || l.state == Finished
    case CatchUp(_, from) => l.stopped || from < 0 || from > |l.sim.core.feed.records|
    case _ => l.stopped
  }

  /** An ignored command changes nothing at all. Catching up from an offset of the log attaches as subscribing does. An
      accepted update is staged behind the others under the next revision, paused or not, and everything else stays. */
  lemma IgnoredLaw(l: Live, cmd: Command)
    requires ValidLive(l)
    ensures Ignored(l, cmd) ==> Obey(l, cmd) == l
    ensures cmd.CatchUp? && !Ignored(l, cmd) ==> Obey(l, cmd) == Obey(l, Subscribe(cmd.buffer))
    ensures cmd.Update? && !Ignored(l, cmd) ==>
              var f := l.sim.core.feed;
              Obey(l, cmd) == l.(sim := l.sim.(core := l.sim.core.(feed := f.(
                                revision := f.revision + 1,
                                staged := f.staged + [Staged(f.revision + 1, cmd.controls)]))))
  {
    hide ValidSim, ValidControls, Publish, CloseSubs, Attach, SaveLive, Step;
  }
}
