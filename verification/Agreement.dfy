/** The shortcut against the replay: when rebuilding from the newest snapshot agrees with folding the whole log, in
    every state a run can reach. */
module Agreement {
  import opened Events
  import opened Gardens
  import opened Processing
  import opened Production
  import opened History
  import opened Snapshots
  import opened World
  import opened Soundness

  /** Rebuilding from this disk yields the garden and the counters of folding all its records. */
  predicate Agrees(run: Run, d: Disk) {
    var r, whole := Rebuild(d), Replay(run.organisms, d.records);
    r.Success? && r.value.garden == whole.garden && r.value.snapshot.counters == whole.counters
  }

  /** The newest snapshot counted every record below it that repeats an earlier key, and no key below it comes again
      above it. Both can be read off the disk without folding anything. */
  ghost predicate NothingMissedBy(d: Disk, sv: Saved)
    requires sv.at <= |d.records|
  {
    && sv.state.counters.duplicates == Repeats({}, d.records[..sv.at])
    && NoKeySpans(d.records[..sv.at], d.records[sv.at..])
  }

  lemma RefoldedAgreesExactly(run: Run, d: Disk, past: Past)
    requires Recoverable(run, d, past) && d.marks.newest.Some? && d.marks.newest.value.at <= |d.records|
    ensures var p, whole := Refolded(d.records, d.marks.newest.value), Replay(run.organisms, d.records);
            p.garden == whole.garden && p.counters == whole.counters <==> NothingMissedBy(d, d.marks.newest.value)
  {
    hide Legal, Ascending, Clocked, Fold, Keys, Repeats, Indexed;
    var sv, rs := d.marks.newest.value, d.records;
    var head, tail, p := rs[..sv.at], rs[sv.at..], Starting(sv.state.organisms, sv.state.counters);
    assert head + tail == rs;
    TracksOn(run.organisms, head, p, tail);
    ReplayCountsRepeats(run.organisms, head);
    NothingShared(Keys(head), Keys(tail));
  }

  lemma NothingShared(a: set<string>, b: set<string>)
    ensures a !! b <==> a * b <= {}
  {
    if a * b <= {} {
      assert forall x :: x in a && x in b ==> x in a * b;
    }
  }

  /** On any disk a run can leave, the shortcut agrees with the replay exactly when its snapshot missed nothing; and
      while restarts were unsplit and kept the revisions, exactly when the first record past it is no redelivery. */
  lemma RebuildAgreesOn(run: Run, d: Disk, past: Past)
    requires Recoverable(run, d, past) && d.marks.newest.Some?
    ensures d.marks.newest.value.at <= |d.records|
    ensures Agrees(run, d) <==> NothingMissedBy(d, d.marks.newest.value)
    ensures past.kept ==> (Agrees(run, d) <==> NewestUnsplit(d))
  {
    ResumeSucceeds(run, d, past);
    RefoldedAgreesExactly(run, d, past);
    hide Rebuild, Resume, Refolded;
    if past.kept {
      KeySpansExactlyWhenSplit(run, d.records, d.marks.newest.value.at);
      ReplayCountsRepeats(run.organisms, d.records[..d.marks.newest.value.at]);
    }
    hide Legal, Ascending, Replay, NoKeySpans, Repeats;
  }

  /** In every state reachable by operations, failed writes, crashes at any durable point and restarts from whatever
      the disk held: the log is legal, committed <= newest snapshot <= log end, and the newest snapshot resumes the
      same run; and rebuilding from it agrees with the replay exactly when it missed nothing. */
  lemma EveryReachableStateRecovers(cfg: Setup, actions: seq<Action>)
    requires ValidSetup(cfg)
    ensures var d := DiskNow(Exec(cfg.run.rng, Launch(cfg), actions));
            && Legal(cfg.run, d.records)
            && (d.marks.newest.None? ==> d.marks.committed == 0)
            && (d.marks.newest.Some? ==>
                  && d.marks.committed <= d.marks.newest.value.at <= |d.records|
                  && Resume(cfg.run.rng, d).Success? && Resume(cfg.run.rng, d).value.run == cfg.run
                  && (Agrees(cfg.run, d) <==> NothingMissedBy(d, d.marks.newest.value)))
  {
    var p := Exec(cfg.run.rng, Launch(cfg), actions);
    ReachableDisk(cfg, actions);
    hide Exec, Legal, Agrees, NothingMissedBy, Resume;
    if DiskNow(p).marks.newest.Some? {
      ResumedSound(cfg.run, DiskNow(p), p.past);
      RebuildAgreesOn(cfg.run, DiskNow(p), p.past);
    }
    hide Shows, Shaped, Clocked, SoundSim;
  }

  lemma ReachableDisk(cfg: Setup, actions: seq<Action>)
    requires ValidSetup(cfg)
    ensures var p := Exec(cfg.run.rng, Launch(cfg), actions); Recoverable(cfg.run, DiskNow(p), p.past)
  {
    var p := Exec(cfg.run.rng, Launch(cfg), actions);
    ReachableSound(cfg, actions);
    hide Exec, SoundSim, Recoverable;
    if p.Up? { DiskSound(p.sim, p.failed, p.past); }
  }

  /** Snapshot agrees with replay: in every reachable state, running, stopped or after a failed write, whose restarts
      were unsplit and kept the revisions, the shortcut yields the garden and the counters of the whole fold exactly
      when the first record past the snapshot is not a redelivery. */
  lemma RebuildAgreesExactly(cfg: Setup, actions: seq<Action>)
    requires ValidSetup(cfg)
    ensures var p := Exec(cfg.run.rng, Launch(cfg), actions);
            p.past.kept && DiskNow(p).marks.newest.Some? ==>
              (Agrees(cfg.run, DiskNow(p)) <==> NewestUnsplit(DiskNow(p)))
  {
    var p := Exec(cfg.run.rng, Launch(cfg), actions);
    ReachableDisk(cfg, actions);
    hide Exec, Agrees, NewestUnsplit, Recoverable;
    if DiskNow(p).marks.newest.Some? { RebuildAgreesOn(cfg.run, DiskNow(p), p.past); }
  }

  /** The garden and counters shown are those of the replay of the first `k` records, as far as the restarts so far
      promise it, and never more redeliveries are counted than the replay counts. */
  predicate ShownAt(run: Run, rs: seq<Event>, k: nat, garden: Plot, counters: Counters, past: Past) {
    && k <= |rs|
    && var whole := Replay(run.organisms, rs[..k]);
       && (past.unsplit ==> garden == whole.garden)
       && (past.kept ==> garden == whole.garden && counters == whole.counters)
       && counters.duplicates <= whole.counters.duplicates
  }

  /** In every reachable state, process and newest snapshot show the fold of the log up to their offset: the garden as
      long as every restart was unsplit, the counters too as long as every restart also kept the revisions. As long as
      every restart was drained, the clock stands one past the last record and everything published is on the log. */
  lemma EveryReachableStateShowsItsLog(cfg: Setup, actions: seq<Action>)
    requires ValidSetup(cfg)
    ensures var p := Exec(cfg.run.rng, Launch(cfg), actions);
            var d := DiskNow(p);
            && (p.Up? ==> ShownAt(cfg.run, d.records, p.sim.core.feed.cursor, p.sim.core.proj.garden,
                                  p.sim.core.proj.counters, p.past))
            && (d.marks.newest.Some? ==>
                  var sv := d.marks.newest.value;
                  ShownAt(cfg.run, d.records, sv.at, sv.state.organisms, sv.state.counters, p.past))
            && (p.Up? && !p.failed && p.past.drained ==>
                  p.sim.core.feed.tick == LastTick(d.records) + 1 && p.sim.core.feed.published == |d.records|)
  {
    var p := Exec(cfg.run.rng, Launch(cfg), actions);
    ReachableSound(cfg, actions);
    ReachableDisk(cfg, actions);
    hide Exec, Replay, Legal, Shaped;
    assert DiskNow(p).records[..|DiskNow(p).records|] == DiskNow(p).records;
  }
}
