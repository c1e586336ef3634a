/** What holds in every reachable state of a run, however it was stopped and restarted; and what more holds as long as
    its restarts were of one kind or another. */
module Soundness {
  import opened Events
  import opened ControlRules
  import opened Gardens
  import opened Processing
  import opened Production
  import opened History
  import opened Feeds
  import opened Runs
  import opened Snapshots
  import opened Alignment
  import opened World

  // ---- the invariant ----

  /** What a projection shows of the first `k` records of a log. It tracks them always; it has the garden of their
      replay while restarts were unsplit, and has missed nothing while they also kept the revisions. */
  ghost predicate Shows(run: Run, rs: seq<Event>, k: nat, p: Projection, past: Past) {
    && k <= |rs| && |p.garden| == run.organisms && Indexed(p.garden)
    && Tracks(run.organisms, rs[..k], p)
    && (past.unsplit ==> p.garden == Replay(run.organisms, rs[..k]).garden)
    && (past.kept ==> MissedNone(run.organisms, rs[..k], p))
  }

  /** A clock and a published count that fit the log: `published` records lie below tick `tick`, the next is at it. */
  predicate Clocked(rs: seq<Event>, at: nat, published: nat, tick: int) {
    && at <= published <= |rs|
    && LastTick(rs[..published]) == tick - 1
    && (published < |rs| ==> rs[published].occurredAt == tick)
  }

  /** A snapshot of this run, taken at a clock between the records below its offset and those above. */
  predicate Shaped(run: Run, rs: seq<Event>, sv: Saved) {
    var st := sv.state;
    && st.schemaVersion == SNAPSHOT_SCHEMA_VERSION
    && st.runID == run.runID && st.seed == run.seed && st.duplicateEvery == run.duplicateEvery
    && ValidControls(st.controls)
    && sv.at <= |rs| && LastTick(rs[..sv.at]) < st.tick && 0 <= st.tick
    && (sv.at < |rs| ==> rs[sv.at].occurredAt <= st.tick)
  }

  ghost predicate SavedFor(run: Run, rs: seq<Event>, sv: Saved, past: Past) {
    && Shaped(run, rs, sv)
    && Shows(run, rs, sv.at, Starting(sv.state.organisms, sv.state.counters), past)
    && (past.drained ==> Clocked(rs, sv.at, sv.state.published, sv.state.tick))
  }

  /** No commit without state behind it: committed <= newest snapshot <= log end. */
  ghost predicate MarksSound(run: Run, rs: seq<Event>, m: Marks, past: Past) {
    match m.newest
    case None => m.committed == 0
    case Some(sv) => m.committed <= sv.at && SavedFor(run, rs, sv, past)
  }

  ghost predicate Recoverable(run: Run, d: Disk, past: Past) {
    && ValidRun(run) && Legal(run, d.records) && (past.kept ==> Ascending(d.records))
    && MarksSound(run, d.records, d.marks, past)
  }

  /** The log, the clock and the producer agree. A failed append leaves the clock on the tick it was writing. */
  predicate FeedSound(run: Run, f: Feed, failed: bool, past: Past) {
    && ValidRun(run) && ValidFeed(f) && Legal(run, f.records)
    && (!failed ==> LastSequence(f.records) == f.emitted)
    && LastTick(f.records) <= f.tick - (if failed then 0 else 1)
    && LastTick(f.records[..f.cursor]) < f.tick
    && (past.kept ==> Rising(f))
    && (past.drained ==> Clocked(f.records, f.cursor, f.published, f.tick) && (!failed ==> f.published == |f.records|))
  }

  predicate NewestBehind(f: Feed, m: Marks) {
    m.newest.Some? ==>
      && m.newest.value.at <= f.cursor
      && (m.newest.value.at == |f.records| ==> m.newest.value.state.tick == f.tick)
  }

  ghost predicate SoundSim(s: Sim, failed: bool, past: Past) {
    && FeedSound(s.run, s.core.feed, failed, past)
    && Shows(s.run, s.core.feed.records, s.core.feed.cursor, s.core.proj, past)
    && Aligned(s.run, s.core, s.marks)
    && MarksSound(s.run, s.core.feed.records, s.marks, past) && NewestBehind(s.core.feed, s.marks)
  }

  /** What holds of a process in every reachable state. */
  ghost predicate Sound(run: Run, p: Process) {
    match p
    case Up(s, failed, past) => s.run == run && SoundSim(s, failed, past)
    case Down(d, past) => Recoverable(run, d, past)
  }

  // ---- folding on ----

  lemma ShowsExtends(run: Run, rs: seq<Event>, k: nat, p: Projection, past: Past, longer: seq<Event>)
    requires Shows(run, rs, k, p, past) && rs <= longer
    ensures Shows(run, longer, k, p, past)
  {
    assert longer[..k] == rs[..k];
  }

  /** Whatever is folded next, a projection goes on showing what it showed. */
  lemma ShowsOn(run: Run, rs: seq<Event>, k: nat, p: Projection, past: Past, j: nat)
    requires Legal(run, rs) && (past.kept ==> Ascending(rs)) && k <= j <= |rs|
    requires Shows(run, rs, k, p, past) && (past.unsplit || past.kept ==> Remembers(rs, k, p.seen))
    ensures Shows(run, rs, j, Fold(p, rs[k..j]), past)
  {
    hide Legal, Ascending, Indexed;
    var head, seg := rs[..k], rs[k..j];
    assert rs[..j] == head + seg;
    TracksOn(run.organisms, head, p, seg);
    FoldKeepsIndex(p, seg);
    hide Tracks;
    if past.kept { NothingMissed(run, rs, k, p, j); }
    if past.unsplit { SameGarden(run, rs, k, p, j); }
  }

  lemma NothingMissed(run: Run, rs: seq<Event>, k: nat, p: Projection, j: nat)
    requires Legal(run, rs) && Ascending(rs) && k <= j <= |rs| && Remembers(rs, k, p.seen)
    ensures Keys(rs[..k]) * Keys(rs[k..j]) <= p.seen
  {
    hide Legal, Ascending, Keys, Key;
    SpanningKeys(run, rs, k);
    assert rs[k..] == rs[k..j] + rs[j..];
    KeysOfConcat(rs[k..j], rs[j..]);
    forall x | x in Keys(rs[..k]) * Keys(rs[k..j]) ensures x in p.seen {
      assert x in Keys(rs[..k]) * Keys(rs[k..]);
    }
  }

  lemma SameGarden(run: Run, rs: seq<Event>, k: nat, p: Projection, j: nat)
    requires Legal(run, rs) && k <= j <= |rs| && Remembers(rs, k, p.seen)
    requires p.seen <= Keys(rs[..k]) && p.garden == Replay(run.organisms, rs[..k]).garden
    ensures Fold(p, rs[k..j]).garden == Replay(run.organisms, rs[..j]).garden
  {
    hide Legal, Fold;
    var head, seg, empty := rs[..k], rs[k..j], Starting(FreshPlot(run.organisms));
    assert rs[..j] == head + seg;
    FoldConcat(empty, head, seg);
    FoldSeen(empty, head);
    forall e | e in seg && IsOrganismEvent(e) ensures Key(e) in p.seen <==> Key(e) in Keys(head) {
      assert e in rs[k..];
      if Key(e) in Keys(head) { SpanningOrganismKey(run, rs, k, e); }
    }
    GardenAlike(p, Fold(empty, head), seg);
  }

  // ---- growing the log ----

  lemma SavedForExtends(run: Run, rs: seq<Event>, longer: seq<Event>, sv: Saved, past: Past)
    requires SavedFor(run, rs, sv, past) && rs <= longer
    requires sv.at == |rs| < |longer| ==> longer[|rs|].occurredAt <= sv.state.tick
    requires past.drained && sv.state.published == |rs| < |longer| ==> longer[|rs|].occurredAt == sv.state.tick
    ensures SavedFor(run, longer, sv, past)
  {
    ShowsExtends(run, rs, sv.at, Starting(sv.state.organisms, sv.state.counters), past, longer);
    hide Shows;
    assert longer[..sv.at] == rs[..sv.at];
    if past.drained { assert longer[..sv.state.published] == rs[..sv.state.published]; }
  }

  lemma MarksExtend(run: Run, f: Feed, m: Marks, past: Past, longer: seq<Event>)
    requires FeedSound(run, f, false, past) && MarksSound(run, f.records, m, past) && NewestBehind(f, m)
    requires f.records <= longer && (|f.records| < |longer| ==> longer[|f.records|].occurredAt == f.tick)
    ensures MarksSound(run, longer, m, past)
  {
    hide Legal, Rising, Shows, ValidFeed;
    if m.newest.Some? {
      assert f.records[..|f.records|] == f.records;
      SavedForExtends(run, f.records, longer, m.newest.value, past);
    }
  }

  /** Part of a tick's block on the log, as a crash or a failed write leaves it. */
  lemma PartialAppend(run: Run, f: Feed, m: Marks, past: Past, k: nat)
    requires FeedSound(run, f, false, past) && MarksSound(run, f.records, m, past) && NewestBehind(f, m)
    requires k <= |Batch(run, f)|
    ensures var rs := f.records + Batch(run, f)[..k];
            && Legal(run, rs) && LastTick(rs) <= f.tick && MarksSound(run, rs, m, past)
            && (past.kept ==> Ascending(rs) && LastRevision(rs) <= f.revision)
  {
    hide Batch, Legal, Ascending, LastRevision, MarksSound, NewestBehind, ValidFeed;
    var b := Batch(run, f);
    var whole, n := f.records + b, |f.records| + k;
    WholeAppend(run, f, past);
    MarksExtend(run, f, m, past, f.records + b[..k]);
    assert f.records + b[..k] == whole[..n];
    LegalPrefix(run, whole, n);
    if past.kept {
      AscendingPrefix(whole, n);
      LastRevisionGrows(whole, n);
    }
    LastTickOfPrefix(run, whole, n);
  }

  lemma WholeAppend(run: Run, f: Feed, past: Past)
    requires FeedSound(run, f, false, past)
    ensures var b := Batch(run, f);
            && b != [] && b[0].occurredAt == f.tick
            && Legal(run, f.records + b) && LastTick(f.records + b) == f.tick
            && (past.kept ==> Ascending(f.records + b) && LastRevision(f.records + b) <= f.revision)
  {
    BatchLegal(run, f);
    BatchAt(run, f);
    hide Batch, Legal, Rising, Clocked, ValidControls;
    if past.kept { BatchRises(run, f); }
  }

  lemma LastTickOfPrefix(run: Run, rs: seq<Event>, k: nat)
    requires Legal(run, rs) && k <= |rs|
    ensures LastTick(rs[..k]) <= LastTick(rs)
    ensures k < |rs| ==> LastTick(rs[..k]) <= rs[k].occurredAt <= LastTick(rs)
  {
    if 0 < k { LegalMonotone(run, rs, k - 1, |rs| - 1); }
    if k < |rs| {
      LegalMonotone(run, rs, k, |rs| - 1);
      if 0 < k { LegalMonotone(run, rs, k - 1, k); }
      LegalRecord(run, rs, k);
      LegalRecord(run, rs, |rs| - 1);
    } else {
      assert rs[..k] == rs;
    }
  }

  // ---- operations ----

  lemma StagedSound(s: Sim, failed: bool, past: Past, c: Controls)
    requires SoundSim(s, failed, past) && ValidControls(c)
    ensures SoundSim(Staging(s, c), failed, past)
  {
    hide Legal, Shows, MarksSound, ValidControls, Clocked, Aligned;
    AlignedStage(s.run, s.core, s.marks, c);
  }

  lemma TickedFeed(run: Run, f: Feed, past: Past)
    requires FeedSound(run, f, false, past)
    ensures FeedSound(run, StepFeed(run, f), false, past)
  {
    hide Batch, Legal, Ascending, LastRevision, ValidControls, Capacity;
    var r := StepFeed(run, f);
    BatchLegal(run, f);
    LastTickOfPrefix(run, r.records, r.cursor);
    if past.kept { BatchRises(run, f); }
    assert r.records[..|r.records|] == r.records;
  }

  /** A tick whose append went through keeps everything. */
  lemma TickedSound(s: Sim, past: Past)
    requires SoundSim(s, false, past)
    ensures SoundSim(Ticked(s), false, past) && Ticked(s).run == s.run
  {
    var f, r := s.core.feed, StepFeed(s.run, s.core.feed);
    TickedFeed(s.run, f, past);
    BatchAt(s.run, f);
    assert r.records == f.records + Batch(s.run, f);
    assert r.cursor >= f.cursor && r.tick == f.tick + 1;
    hide StepFeed, Batch, Legal, Rising, Clocked, ValidFeed, Fold, Aligned;
    MarksExtend(s.run, f, s.marks, past, r.records);
    hide MarksSound;
    AlignedTick(s.run, s.core, s.marks);
    StillRemembers(s.run, s.core, s.marks, r.records);
    ShowsExtends(s.run, f.records, f.cursor, s.core.proj, past, r.records);
    ShowsOn(s.run, r.records, f.cursor, s.core.proj, past, r.cursor);
    hide Shows;
  }

  lemma StillRemembers(run: Run, c: Core, m: Marks, longer: seq<Event>)
    requires Aligned(run, c, m) && c.feed.records <= longer
    requires |c.feed.records| < |longer| ==> longer[|c.feed.records|].attempt == 1
    ensures Remembers(longer, c.feed.cursor, c.proj.seen)
  {
    hide Anchored, Orderly, NoneAbove, Keys, Key;
  }

  lemma FailedFeed(run: Run, f: Feed, m: Marks, past: Past, written: nat)
    requires FeedSound(run, f, false, past) && MarksSound(run, f.records, m, past) && NewestBehind(f, m)
    ensures FeedSound(run, FailedAppend(run, f, written), true, past)
  {
    hide Batch, Legal, Ascending, LastRevision, ValidControls, MarksSound, NewestBehind;
    WholeAppend(run, f, past);
    FailedIs(run, f, written);
    var k, r := Min(written, |Batch(run, f)|), FailedAppend(run, f, written);
    PartialAppend(run, f, m, past, k);
    hide FailedAppend;
    assert r.records[..r.cursor] == f.records[..f.cursor];
    assert f.records[..|f.records|] == f.records;
    if past.drained { assert r.records[..r.published] == f.records[..f.published]; }
  }

  lemma FailedIs(run: Run, f: Feed, written: nat)
    requires ValidRun(run) && ValidFeed(f)
    ensures var r := FailedAppend(run, f, written);
            && ValidFeed(r) && r.records == f.records + Batch(run, f)[..Min(written, |Batch(run, f)|)]
            && r.cursor == f.cursor && r.tick == f.tick && r.published == f.published
            && r.revision == f.revision && r.staged == []
  {
    hide Batch, ValidControls;
  }

  lemma FailedAppendSound(s: Sim, past: Past, written: nat)
    requires SoundSim(s, false, past)
    ensures SoundSim(s.(core := s.core.(feed := FailedAppend(s.run, s.core.feed, written))), true, past)
  {
    var f := s.core.feed;
    var r := FailedAppend(s.run, f, written);
    FailedFeed(s.run, f, s.marks, past, written);
    BatchAt(s.run, f);
    assert r.records == f.records + Batch(s.run, f)[..Min(written, |Batch(s.run, f)|)];
    assert r.cursor == f.cursor && r.tick == f.tick;
    hide FailedAppend, Batch, Legal, Rising, Clocked, ValidFeed, Fold, Aligned;
    AlignedFailure(s.run, s.core, s.marks, written);
    MarksExtend(s.run, f, s.marks, past, r.records);
    hide MarksSound;
    ShowsExtends(s.run, f.records, f.cursor, s.core.proj, past, r.records);
    hide Shows;
  }

  // ---- saving ----

  lemma SnapshotIsSaved(s: Sim, failed: bool, past: Past)
    requires SoundSim(s, failed, past)
    ensures SavedFor(s.run, s.core.feed.records, Saved(s.core.feed.cursor, SnapshotOf(s)), past)
  {
    LastTickOfPrefix(s.run, s.core.feed.records, s.core.feed.cursor);
    hide Legal, Rising, MarksSound, Replay, Aligned, Keys;
    ForgettingShows(s.run, s.core.feed.records, s.core.feed.cursor, s.core.proj, past);
  }

  /** Crash safety of saving: at each of its atomic points, whatever fails, commit, snapshot and log are in order and
      the snapshot shows the records below it. */
  lemma SavePointsSafe(s: Sim, failed: bool, past: Past, io: SaveIO)
    requires SoundSim(s, failed, past)
    ensures forall m | m in SavePointsOf(s, io) ::
              MarksSound(s.run, s.core.feed.records, m, past) && NewestBehind(s.core.feed, m)
  {
    SaveKeeps(s, io);
    hide SavePointsOf, SoundSim;
    forall m | m in SavePointsOf(s, io)
      ensures MarksSound(s.run, s.core.feed.records, m, past) && NewestBehind(s.core.feed, m)
    {
      WrittenSound(s, failed, past, m);
    }
  }

  lemma WrittenSound(s: Sim, failed: bool, past: Past, m: Marks)
    requires SoundSim(s, failed, past) && WrittenBy(s, m)
    ensures MarksSound(s.run, s.core.feed.records, m, past) && NewestBehind(s.core.feed, m)
  {
    SnapshotIsSaved(s, failed, past);
    hide SavedFor, FeedSound, Shows, Aligned;
  }

  lemma SavedSound(r: Sim, s: Sim, failed: bool, past: Past)
    requires SoundSim(s, failed, past) && SavedFrom(r, s)
    ensures SoundSim(r, failed, past) && r.run == s.run
  {
    WrittenSound(s, failed, past, r.marks);
    hide MarksSound, FeedSound, Shows, Aligned, NewestBehind;
    AlignedWritten(s, r.marks);
  }

  // ---- restarting ----

  lemma ValidTail(run: Run, rs: seq<Event>, k: nat)
    requires Legal(run, rs) && k <= |rs|
    ensures AllValid(rs[k..]) && (rs != [] ==> Valid(rs[|rs| - 1]))
  {
    LegalAllValid(run, rs);
    assert forall e :: e in rs[k..] ==> e in rs;
  }

  /** What folding the tail of a snapshot makes of it, counters carried on. */
  function Refolded(rs: seq<Event>, sv: Saved): Projection
    requires sv.at <= |rs|
  {
    Fold(Starting(sv.state.organisms, sv.state.counters), rs[sv.at..])
  }

  /** Any recoverable disk with a snapshot rebuilds and resumes, and as the same run. */
  lemma ResumeSucceeds(run: Run, d: Disk, past: Past)
    requires Recoverable(run, d, past) && d.marks.newest.Some?
    ensures Rebuild(d).Success? && Resume(run.rng, d).Success?
    ensures d.marks.newest.value.at <= |d.records|
    ensures var sv, b, r := d.marks.newest.value, Rebuild(d).value, Resume(run.rng, d).value;
            && b.garden == Refolded(d.records, sv).garden && b.snapshot.counters == Refolded(d.records, sv).counters
            && r == ResumedSim(run.rng, d, b) && r.run == run
            && r.core.feed == Feed(
                 LastSequence(d.records), sv.state.tick + TicksIn(d.records[sv.at..]), sv.state.controls,
                 sv.state.revision, [], sv.state.published + |d.records[sv.at..]|, d.records, |d.records|)
            && r.core.proj == Projection(b.garden, {}, b.snapshot.counters)
            && r.marks == d.marks && r.state == sv.state.state && r.maxTicks == sv.state.maxTicks
            && r.tickInterval == sv.state.tickInterval && r.snapshotEvery == 0
            && r.committedSeen == d.marks.committed && r.saves == 0 && r.retries == 0 && r.failures == 0
  {
    hide Recoverable, Rebuild, Fold, Merge, Validate, Refolded;
    RebuildSucceeds(run, d, past);
    LastIsValid(run, d, past);
  }

  lemma LastIsValid(run: Run, d: Disk, past: Past)
    requires Recoverable(run, d, past)
    ensures run.runID != ""
    ensures d.records != [] ==> Valid(d.records[|d.records| - 1]) && d.records[|d.records| - 1].sequence >= 1
  {
    hide Ascending, MarksSound, Legal;
    if d.records != [] { LegalRecord(run, d.records, |d.records| - 1); }
  }

  lemma RebuildSucceeds(run: Run, d: Disk, past: Past)
    requires Recoverable(run, d, past) && d.marks.newest.Some?
    ensures Rebuild(d).Success? && d.marks.newest.value.at <= |d.records|
    ensures var sv, b, rs := d.marks.newest.value, Rebuild(d).value, d.records;
            && |sv.state.organisms| == run.organisms && sv.state.runID == run.runID && sv.state.seed == run.seed
            && sv.state.duplicateEvery == run.duplicateEvery
            && b.garden == Refolded(rs, sv).garden
            && b.snapshot == sv.state.(
                 tick := sv.state.tick + TicksIn(rs[sv.at..]), published := sv.state.published + |rs[sv.at..]|,
                 counters := Refolded(rs, sv).counters)
  {
    hide Legal, Ascending, Clocked, Tracks, AllValid, Fold, Indexed, ValidControls, TicksIn;
    var sv := d.marks.newest.value;
    ValidTail(run, d.records, sv.at);
    FoldWithForgottenKeys(Starting(sv.state.organisms, sv.state.counters), d.records[sv.at..]);
  }

  lemma RefoldedShows(run: Run, d: Disk, past: Past)
    requires Recoverable(run, d, past) && d.marks.newest.Some? && d.marks.newest.value.at <= |d.records|
    ensures Shows(run, d.records, |d.records|, Refolded(d.records, d.marks.newest.value), RestartedFrom(past, d))
  {
    hide Legal, Ascending, Fold, Replay, Clocked;
    var sv, rs := d.marks.newest.value, d.records;
    assert rs[sv.at..|rs|] == rs[sv.at..];
    ShowsOn(run, rs, sv.at, Starting(sv.state.organisms, sv.state.counters), RestartedFrom(past, d), |rs|);
  }

  lemma ResumedClock(run: Run, rs: seq<Event>, sv: Saved)
    requires Legal(run, rs) && Shaped(run, rs, sv)
    ensures LastTick(rs) < sv.state.tick + TicksIn(rs[sv.at..])
    ensures sv.state.tick <= sv.state.tick + TicksIn(rs[sv.at..])
    ensures DrainedAt(sv) && Clocked(rs, sv.at, sv.state.published, sv.state.tick) ==>
              LastTick(rs) == sv.state.tick + TicksIn(rs[sv.at..]) - 1
  {
    hide Legal, ValidControls;
    if sv.at < |rs| {
      LegalMonotone(run, rs, sv.at, |rs| - 1);
    } else {
      assert rs[..sv.at] == rs;
    }
  }

  lemma MarksWeaken(run: Run, d: Disk, past: Past)
    requires Recoverable(run, d, past)
    ensures MarksSound(run, d.records, d.marks, RestartedFrom(past, d))
  {
    hide Legal, Tracks, Clocked, Shaped;
  }

  /** A restart, whatever its snapshot, resumes the same run in a sound state again. */
  lemma ResumedSound(run: Run, d: Disk, past: Past)
    requires Recoverable(run, d, past) && d.marks.newest.Some?
    ensures Resume(run.rng, d).Success?
    ensures Resume(run.rng, d).value.run == run
    ensures SoundSim(Resume(run.rng, d).value, false, RestartedFrom(past, d))
  {
    hide Resume, Rebuild, Refolded, ResumedSim, Recoverable, FeedSound, MarksSound, Aligned;
    ResumeSucceeds(run, d, past);
    RefoldedShows(run, d, past);
    ForgettingShows(run, d.records, |d.records|, Refolded(d.records, d.marks.newest.value), RestartedFrom(past, d));
    hide Shows;
    MarksWeaken(run, d, past);
    var r := Resume(run.rng, d).value;
    ResumedFeed(run, d, past, r.core.feed);
    NewestOf(run, d, past);
    RefoldedIsCaught(r.core.feed, d.marks.newest.value);
    AlignedResume(run, r.core.feed, d.marks);
  }

  lemma RefoldedIsCaught(f: Feed, sv: Saved)
    requires sv.at <= f.cursor == |f.records|
    ensures Caught(f, sv) == Refolded(f.records, sv)
  {
    hide Fold;
    assert f.records[sv.at..|f.records|] == f.records[sv.at..];
  }

  lemma ForgettingShows(run: Run, rs: seq<Event>, k: nat, p: Projection, past: Past)
    requires Shows(run, rs, k, p, past)
    ensures Shows(run, rs, k, Projection(p.garden, {}, p.counters), past)
  {
    hide Replay, Indexed;
  }

  lemma NewestOf(run: Run, d: Disk, past: Past)
    requires Recoverable(run, d, past) && d.marks.newest.Some?
    ensures var sv := d.marks.newest.value;
            sv.at <= |d.records| && (sv.at == |d.records| ==> TicksIn(d.records[sv.at..]) == 0)
  {
    hide Legal, Shows, Clocked;
  }

  lemma ResumedFeed(run: Run, d: Disk, past: Past, f: Feed)
    requires Recoverable(run, d, past) && d.marks.newest.Some? && d.marks.newest.value.at <= |d.records|
    requires var sv := d.marks.newest.value;
             f == Feed(f.emitted, sv.state.tick + TicksIn(d.records[sv.at..]), sv.state.controls, sv.state.revision, [],
                       sv.state.published + |d.records[sv.at..]|, d.records, |d.records|)
    requires LastSequence(d.records) == f.emitted
    ensures FeedSound(run, f, false, RestartedFrom(past, d))
  {
    var rs := d.records;
    hide Shows, ValidControls;
    ResumedClock(run, rs, d.marks.newest.value);
    hide Legal, Ascending, LastRevision, TicksIn;
    assert rs[..|rs|] == rs;
  }

  // ---- every run ----

  lemma OperateSound(run: Run, p: Process, op: Op)
    requires Sound(run, p) && Allowed(p, op)
    ensures Sound(run, Operate(p, op))
  {
    hide SoundSim, SavedFrom;
    var s := p.sim;
    match op
    case StageControls(c) =>
      StagedSound(s, p.failed, p.past, c);
    case Tick(io) =>
      StepIs(s, io);
      match io.append {
        case AppendFails(written) => FailedAppendSound(s, p.past, written);
        case Appends =>
          TickedSound(s, p.past);
          SavedSound(Step(s, io).0, Ticked(s), false, p.past);
      }
      hide Step, Ticked, FailedAppend;
    case SaveAs(state, io) =>
      StateSound(s, p.failed, p.past, state);
      SaveIs(InState(s, state), io);
      SavedSound(Save(InState(s, state), io).0, InState(s, state), p.failed, p.past);
      hide Save;
  }

  lemma StateSound(s: Sim, failed: bool, past: Past, state: Lifecycle)
    requires SoundSim(s, failed, past)
    ensures SoundSim(InState(s, state), failed, past)
  {
    hide FeedSound, Shows, MarksSound, Aligned;
  }

  lemma DiskSound(s: Sim, failed: bool, past: Past)
    requires SoundSim(s, failed, past)
    ensures Recoverable(s.run, DiskOf(s), past)
  {
    hide Legal, Shows, MarksSound, Aligned;
  }

  lemma CrashDiskRecoverable(s: Sim, past: Past, d: Disk)
    requires ValidSim(s) && SoundSim(s, false, past) && CrashDisk(s, d)
    ensures Recoverable(s.run, d, past)
  {
    hide Batch, Ticked, WrittenBy, Legal, Shows, MarksSound, Aligned;
    if d.records == Ticked(s).core.feed.records && WrittenBy(Ticked(s), d.marks) {
      TickedSound(s, past);
      WrittenSound(Ticked(s), false, past, d.marks);
    } else {
      var k :| 0 <= k <= |Batch(s.run, s.core.feed)| && PartlyWritten(s, k) == d;
      PartialAppend(s.run, s.core.feed, s.marks, past, k);
    }
  }

  /** Whatever is cut short, and wherever, the disk left behind is recoverable. */
  lemma CrashPointRecoverable(run: Run, p: Process, op: Op, i: nat)
    requires Sound(run, p) && Allowed(p, op) && i < |CrashPoints(p, op)|
    ensures Recoverable(run, CrashPoints(p, op)[i], p.past)
  {
    hide SoundSim, Recoverable, TickDisks, SaveDisks, CrashDisk;
    match op
    case StageControls(_) =>
      DiskSound(p.sim, p.failed, p.past);
    case Tick(io) =>
      TickDisksAre(p.sim, io, i);
      CrashDiskRecoverable(p.sim, p.past, TickDisks(p.sim, io)[i]);
    case SaveAs(state, io) =>
      StateSound(p.sim, p.failed, p.past, state);
      SaveDisksAre(InState(p.sim, state), io, i);
      SaveDiskRecoverable(InState(p.sim, state), p.failed, p.past, SaveDisks(InState(p.sim, state), io)[i]);
  }

  lemma SaveDiskRecoverable(s: Sim, failed: bool, past: Past, d: Disk)
    requires SoundSim(s, failed, past) && d.records == s.core.feed.records && WrittenBy(s, d.marks)
    ensures Recoverable(s.run, d, past)
  {
    WrittenSound(s, failed, past, d.marks);
    hide Legal, Shows, MarksSound, WrittenBy, Aligned;
  }

  lemma NextSound(run: Run, p: Process, a: Action)
    requires Sound(run, p)
    ensures Sound(run, Next(run.rng, p, a))
  {
    hide Operate, CrashPoints, SoundSim, Recoverable, Resume;
    match a
    case Do(op) => if Allowed(p, op) { OperateSound(run, p, op); }
    case CrashDuring(op, point) =>
      if Allowed(p, op) && point < |CrashPoints(p, op)| { CrashPointRecoverable(run, p, op, point); }
    case Recover =>
      if p.Down? && Resume(run.rng, p.disk).Success? {
        ResumeNeedsSnapshot(run.rng, p.disk);
        ResumedSound(run, p.disk, p.past);
      }
  }

  lemma {:induction false} ExecSound(run: Run, p: Process, actions: seq<Action>)
    requires Sound(run, p)
    ensures Sound(run, Exec(run.rng, p, actions))
  {
    if actions != [] {
      var k := |actions| - 1;
      ExecSound(run, p, actions[..k]);
      NextSound(run, Exec(run.rng, p, actions[..k]), actions[k]);
      hide Sound, Next;
    }
  }

  lemma FreshSound(cfg: Setup)
    requires ValidSetup(cfg)
    ensures SoundSim(NewSim(cfg, NO_MARKS), false, UNBROKEN)
  {
    hide Shows, Aligned, FreshPlot, FeedSound;
    var s := NewSim(cfg, NO_MARKS);
    FreshShows(cfg.run);
    FreshFeedSound(cfg.run, s.core.feed);
    AlignedFresh(cfg.run, s.core.feed, s.core.proj);
  }

  lemma FreshFeedSound(run: Run, f: Feed)
    requires ValidRun(run) && ValidFeed(f) && f == FreshFeed(f.controls)
    ensures FeedSound(run, f, false, UNBROKEN)
  {
    var rs: seq<Event> := [];
    assert rs[..0] == [];
    hide ValidControls;
  }

  lemma FreshShows(run: Run)
    requires ValidRun(run)
    ensures Shows(run, [], 0, Starting(FreshPlot(run.organisms)), UNBROKEN)
  {
    hide FreshPlot, Indexed, Tracks, MissedNone, Replay, Starting;
    StartingShowsGarden(FreshPlot(run.organisms));
    var rs: seq<Event> := [];
    assert rs[..0] == [];
    FreshIndexed(run.organisms);
    TracksFromTheStart(run.organisms);
  }

  lemma StartingShowsGarden(g: Plot)
    ensures Starting(g).garden == g
  {
  }

  lemma FreshIndexed(n: nat)
    ensures Indexed(FreshPlot(n)) && |FreshPlot(n)| == n
  {
  }

  lemma ReachableSound(cfg: Setup, actions: seq<Action>)
    requires ValidSetup(cfg)
    ensures Sound(cfg.run, Exec(cfg.run.rng, Launch(cfg), actions))
  {
    hide SoundSim, Exec;
    FreshSound(cfg);
    ExecSound(cfg.run, Launch(cfg), actions);
  }
}
