/** What goes wrong, each at an input: what a restart loses, and what a live run's clients and batch runs miss. */
module Losses {
  import opened Identifiers
  import opened Events
  import opened ControlRules
  import opened Gardens
  import opened Processing
  import opened Production
  import opened History
  import opened Feeds
  import opened Runs
  import opened Snapshots
  import opened World
  import opened Soundness
  import opened Agreement
  import opened Restart
  import opened Engine
  import opened BatchRefinement
  import opened Lifecycles
  import opened Wrappers

  // ---- a pair split by a snapshot ----

  /** One rain event a tick, delivered twice, and capacity for one record. */
  const TIGHT: Controls := Controls(1, 1, 0, 0, 1, 1, 0)

  function TightRun(rng: Generator, runID: string, seed: int): Run {
    Run(rng, runID, seed, 1, 1)
  }

  /** That run after its first tick, with a snapshot due every tick. */
  function TightSim(rng: Generator, runID: string, seed: int): Sim
    requires runID != ""
  {
    Step(NewSim(Setup(TightRun(rng, runID, seed), TIGHT, 1, 0, 0), NO_MARKS), CLEAN).0
  }

  predicate RainOnTheOnlyOrganism(run: Run, e: Event) {
    ProducedAt(run, e, 1, 0) && e.typ.Rain? && e.entityID == OrganismID(0)
  }

  lemma TightEvent(run: Run) returns (e: Event)
    requires run.runID != "" && run.organisms == 1
    ensures TickEvents(run, 0, 0, TIGHT) == [e] && RainOnTheOnlyOrganism(run, e)
  {
    DrawNext(run, 0, 0, TIGHT, 0);
    var r := Choose(run, 0, TIGHT, []);
    assert r.typ == Rain && r.organism == 0;
    assert Draw(run, 0, 0, TIGHT, 0) == Drawn([], []);
    hide Choose, Draw, ProducedAt;
    e := OrganismEvent(run, 1, 0, r.typ, r.organism, r.amount);
    OrganismEventIsProduced(run, 1, 0, r.typ, r.organism, r.amount);
  }

  lemma TightBatch(run: Run) returns (e: Event)
    requires run.runID != "" && run.organisms == 1 && run.duplicateEvery == 1
    ensures Batch(run, FreshFeed(TIGHT)) == [e, e.(attempt := 2)] && RainOnTheOnlyOrganism(run, e)
  {
    e := TightEvent(run);
    assert WithRedeliveries(1, [e][..0]) == [];
    assert WithRedeliveries(1, [e]) == [e, e.(attempt := 2)];
  }

  lemma RainTwice(run: Run, e: Event)
    requires RainOnTheOnlyOrganism(run, e)
    ensures var once := Organism(OrganismID(0), e.amount, MAX_HEALTH, 0);
            && ApplyEvent(FreshPlot(1), e) == ([once], Applied)
            && ApplyEvent([once], e) == ([once.(moisture := 2 * e.amount)], Applied)
  {
    PositionOfOrganismID(1, 0);
    var dry := Organism(OrganismID(0), 0, MAX_HEALTH, 0);
    var once := dry.(moisture := e.amount);
    assert FreshPlot(1) == [dry];
    assert Ruled(dry, e) == (once, Applied) && [dry][0 := once] == [once];
    assert Ruled(once, e) == (once.(moisture := 2 * e.amount), Applied);
    assert [once][0 := once.(moisture := 2 * e.amount)] == [once.(moisture := 2 * e.amount)];
  }

  lemma TightFolds(run: Run, e: Event)
    requires RainOnTheOnlyOrganism(run, e) && run.runID != ""
    ensures var once, again := Organism(OrganismID(0), e.amount, MAX_HEALTH, 0), e.(attempt := 2);
            && Replay(1, [e]).garden == [once] && Replay(1, [e, again]).garden == [once]
            && Fold(Starting([once]), [again]).garden == [once.(moisture := 2 * e.amount)]
  {
    var again := e.(attempt := 2);
    RainTwice(run, e);
    FoldSnoc(Starting(FreshPlot(1)), [], e);
    FoldSnoc(Starting(FreshPlot(1)), [e], again);
    assert [] + [e] == [e] && [e] + [again] == [e, again];
    var once := Organism(OrganismID(0), e.amount, MAX_HEALTH, 0);
    FoldSnoc(Starting([once]), [], again);
    assert [] + [again] == [again];
    assert ApplyEvent([once], again) == ApplyEvent([once], e);
  }

  lemma TightTick(s: Sim, run: Run) returns (e: Event)
    requires run.runID != "" && run.organisms == 1 && run.duplicateEvery == 1
    requires s.run == run && s.core == FreshCore(run, TIGHT)
    ensures ValidSim(s) && RainOnTheOnlyOrganism(run, e)
    ensures var t := Ticked(s);
            && t.run == run && t.marks == s.marks && t.snapshotEvery == s.snapshotEvery
            && t.core.feed.records == [e, e.(attempt := 2)] && t.core.feed.cursor == 1 && t.core.feed.tick == 1
            && t.core.proj == Replay(1, [e])
  {
    hide Batch, RainOnTheOnlyOrganism, Fold, StepFeed;
    e := TightBatch(run);
    TightFeed(run, e);
    TightCore(run, e);
  }

  lemma TightCore(run: Run, e: Event)
    requires ValidRun(run) && run.organisms == 1 && StepFeed(run, FreshFeed(TIGHT)).records == [e, e.(attempt := 2)]
    requires StepFeed(run, FreshFeed(TIGHT)).cursor == 1
    ensures StepCore(run, FreshCore(run, TIGHT)).proj == Replay(1, [e])
  {
    hide StepFeed, Fold;
    var rs := [e, e.(attempt := 2)];
    assert rs[0..1] == [e];
  }

  lemma TightFeed(run: Run, e: Event)
    requires ValidRun(run) && Batch(run, FreshFeed(TIGHT)) == [e, e.(attempt := 2)]
    ensures var f := StepFeed(run, FreshFeed(TIGHT));
            f.records == [e, e.(attempt := 2)] && f.cursor == 1 && f.tick == 1
  {
    hide Batch;
    var rs := [e, e.(attempt := 2)];
    assert [] + rs == rs;
  }

  /** What that run looks like: one of the pair is folded, and the snapshot stands between the two. */
  ghost predicate IsTight(s: Sim, run: Run, e: Event) {
    && s.run == run && s.core.feed.records == [e, e.(attempt := 2)] && s.core.feed.cursor == 1
    && s.core.feed.tick == 1 && s.core.proj == Replay(1, [e])
    && s.marks.newest.Some?
    && var sv := s.marks.newest.value;
       sv.at == 1 && sv.state.tick == 1 && sv.state.organisms == s.core.proj.garden
  }

  lemma TightState(rng: Generator, runID: string, seed: int) returns (e: Event)
    requires runID != ""
    ensures RainOnTheOnlyOrganism(TightRun(rng, runID, seed), e)
    ensures SoundSim(TightSim(rng, runID, seed), false, UNBROKEN)
    ensures IsTight(TightSim(rng, runID, seed), TightRun(rng, runID, seed), e)
  {
    hide SoundSim, RainOnTheOnlyOrganism, Replay, Save, StepCore, ValidFeed, TightSim;
    var cfg := Setup(TightRun(rng, runID, seed), TIGHT, 1, 0, 0);
    var s := NewSim(cfg, NO_MARKS);
    FreshSound(cfg);
    TickedSound(s, UNBROKEN);
    e := TightTick(s, cfg.run);
    SavesAt(Ticked(s));
    SavedSound(Save(Ticked(s), []).0, Ticked(s), false, UNBROKEN);
    TightSteps(rng, runID, seed);
  }

  lemma TightSteps(rng: Generator, runID: string, seed: int)
    requires runID != ""
    ensures var s := NewSim(Setup(TightRun(rng, runID, seed), TIGHT, 1, 0, 0), NO_MARKS);
            ValidSim(s) && TightSim(rng, runID, seed) == Save(Ticked(s), []).0
  {
    hide Save, StepCore, StepFeed;
    var s := NewSim(Setup(TightRun(rng, runID, seed), TIGHT, 1, 0, 0), NO_MARKS);
    StepTicks(s.run, s.core);
    assert Ticked(s).snapshotEvery == 1 && EveryNth(0, 1) && EveryNth(1, 1);
  }

  /** The shortcut is not always right. When capacity leaves a redelivery just past the snapshot, the rebuilt garden
      has applied the event twice, and the restarted clock has gone past a tick the run never ran. */
  lemma SplitPairIsAppliedTwice(rng: Generator, runID: string, seed: int)
    requires runID != ""
    ensures var s := TightSim(rng, runID, seed);
            && Rebuild(DiskOf(s)).Success? && Resume(rng, DiskOf(s)).Success?
            && |Replay(1, s.core.feed.records).garden| == 1 && |Rebuild(DiskOf(s)).value.garden| == 1
            && Replay(1, s.core.feed.records).garden == s.core.proj.garden
            && s.core.proj.garden[0].moisture > 0
            && Rebuild(DiskOf(s)).value.garden[0].moisture == 2 * s.core.proj.garden[0].moisture
            && s.core.feed.tick == 1 && Resume(rng, DiskOf(s)).value.core.feed.tick == 2
  {
    var e := TightState(rng, runID, seed);
    var s, run := TightSim(rng, runID, seed), TightRun(rng, runID, seed);
    hide TightSim, SoundSim;
    DiskSound(s, false, UNBROKEN);
    ResumeSucceeds(run, DiskOf(s), UNBROKEN);
    TightFolds(run, e);
    hide Rebuild, Resume, ResumedSim, Recoverable, Fold;
    var sv, tail := s.marks.newest.value, [e.(attempt := 2)];
    assert s.core.feed.records[1..] == tail;
    GardenAlike(Starting(sv.state.organisms, sv.state.counters), Starting(sv.state.organisms), tail);
  }

  // ---- control changes ----

  lemma {:induction false} ChangeIsRecorded(rs: seq<Event>, r: nat)
    requires Numbered(rs) && 1 <= r <= |Changes(rs)|
    ensures exists i :: 0 <= i < |rs| && IsControl(rs[i]) && rs[i].revision == r
  {
    var k := |rs| - 1;
    if r <= |Changes(rs[..k])| {
      NumberedPrefix(rs, k);
      ChangeIsRecorded(rs[..k], r);
      var i :| 0 <= i < |rs[..k]| && IsControl(rs[..k][i]) && rs[..k][i].revision == r;
      assert rs[i] == rs[..k][i];
    } else {
      assert IsControl(rs[k]) && rs[k].revision == r;
    }
  }

  /** The record of the first update accepted after a restart. */
  function FirstChange(s: Sim): Event {
    ControlEvent(s.run, s.core.feed.emitted + 1, s.core.feed.tick, s.core.feed.revision + 1)
  }

  /** The log already records this revision. */
  predicate Records(rs: seq<Event>, revision: int) {
    exists i :: 0 <= i < |rs| && IsControl(rs[i]) && rs[i].revision == revision
  }

  /** After a restart the next accepted update reuses a key of the log exactly when the log records the revision past
      the snapshot's; on a log of revisions 1..k, exactly when a change was recorded since the snapshot. Then a replay
      drops the update's record, which the restarted process itself does not. */
  lemma LostChangeReusesItsRevision(run: Run, d: Disk, past: Past)
    requires Recoverable(run, d, past) && d.marks.newest.Some?
    ensures Resume(run.rng, d).Success?
    ensures var r, revision := Resume(run.rng, d).value, d.marks.newest.value.state.revision;
            && r.core.feed.revision == revision && r.core.feed.staged == []
            && (Key(FirstChange(r)) in Keys(d.records) <==> Records(d.records, revision + 1))
            && (Numbered(d.records) ==> (Key(FirstChange(r)) in Keys(d.records) <==> revision < |Changes(d.records)|))
            && (Key(FirstChange(r)) in Keys(d.records) ==>
                  && Dispose(Replay(run.organisms, d.records), FirstChange(r)) == Duplicate
                  && Dispose(r.core.proj, FirstChange(r)).Handled?)
  {
    hide Resume, Rebuild, ResumedSim, Refolded, Records, MarksSound, Legal, Keys, Key, Changes, Numbered, Replay,
         ControlEvent;
    ResumeSucceeds(run, d, past);
    FirstChangeValid(run, d, past);
    var r, rs, revision := Resume(run.rng, d).value, d.records, d.marks.newest.value.state.revision;
    KeyRecordedExactly(run, rs, r.core.feed.emitted + 1, r.core.feed.tick, revision + 1);
    if Numbered(rs) { RecordedExactly(rs, revision + 1); }
    if Key(FirstChange(r)) in Keys(rs) { SeenAndUnseen(run.organisms, rs, r.core.proj, FirstChange(r)); }
  }

  lemma SeenAndUnseen(organisms: nat, rs: seq<Event>, p: Projection, e: Event)
    requires Valid(e) && Key(e) in Keys(rs) && p.seen == {}
    ensures Dispose(Replay(organisms, rs), e) == Duplicate && Dispose(p, e).Handled?
  {
    FoldSeen(Starting(FreshPlot(organisms)), rs);
    hide Fold, Keys, Key;
  }

  lemma FirstChangeValid(run: Run, d: Disk, past: Past)
    requires Recoverable(run, d, past) && d.marks.newest.Some? && Resume(run.rng, d).Success?
    ensures Valid(FirstChange(Resume(run.rng, d).value))
  {
    hide Resume, Rebuild, ResumedSim, Refolded, Recoverable, TicksIn, SoundSim;
    ResumeSucceeds(run, d, past);
    ResumedSound(run, d, past);
    SoundIsValid(Resume(run.rng, d).value, RestartedFrom(past, d));
    SequenceNatural(run, d, past);
  }

  lemma SequenceNatural(run: Run, d: Disk, past: Past)
    requires Recoverable(run, d, past)
    ensures LastSequence(d.records) >= 0
  {
    LastIsValid(run, d, past);
    hide Recoverable;
  }

  /** The key of a control record is on the log exactly when its revision is. */
  lemma KeyRecordedExactly(run: Run, rs: seq<Event>, sequence: nat, tick: int, revision: int)
    requires Legal(run, rs)
    ensures Key(ControlEvent(run, sequence, tick, revision)) in Keys(rs) <==> Records(rs, revision)
  {
    hide Legal, RevisionKey, EventID, Position, ControlEventID;
    var e := ControlEvent(run, sequence, tick, revision);
    if Records(rs, revision) {
      var i :| 0 <= i < |rs| && IsControl(rs[i]) && rs[i].revision == revision;
      LegalRecord(run, rs, i);
      assert rs[i] in rs;
    }
    if Key(e) in Keys(rs) {
      var d :| d in rs && Key(d) == Key(e);
      var i :| 0 <= i < |rs| && rs[i] == d;
      LegalRecord(run, rs, i);
      if IsControl(d) {
        RevisionKeyInjective(run.runID, TypeName(ControlChanged), d.revision, revision);
      } else {
        KeyFamiliesDisjoint(run.runID, d.sequence, TypeName(ControlChanged), revision);
      }
    }
  }

  /** A log of revisions 1..k records exactly those. */
  lemma RecordedExactly(rs: seq<Event>, revision: int)
    requires Numbered(rs) && revision >= 1
    ensures Records(rs, revision) <==> revision <= |Changes(rs)|
  {
    if revision <= |Changes(rs)| { ChangeIsRecorded(rs, revision); }
    if Records(rs, revision) {
      var i :| 0 <= i < |rs| && IsControl(rs[i]) && rs[i].revision == revision;
      ChangesGrow(rs, i + 1);
      assert rs[..i + 1][..i] == rs[..i] && rs[..i + 1][i] == rs[i];
    }
  }

  // ---- one such run ----

  /** A change is recorded after the only snapshot, and then the process stops. */
  function ChangeThenCrash(c: Controls): seq<Action> {
    [Do(SaveAs(Running, [])), Do(StageControls(c)), Do(Tick(CLEAN)), CrashDuring(StageControls(c), 0)]
  }

  /** The restarted process accepts the same update, runs a tick and takes a snapshot. */
  function ChangeAgain(c: Controls): seq<Action> {
    [Recover, Do(StageControls(c)), Do(Tick(CLEAN)), Do(SaveAs(Paused, []))]
  }

  lemma ExecFour(rng: Generator, p: Process, a: Action, b: Action, c: Action, d: Action)
    ensures Exec(rng, p, [a, b, c, d]) == Next(rng, Next(rng, Next(rng, Next(rng, p, a), b), c), d)
  {
    hide Next;
    assert [a, b, c, d][..3] == [a, b, c] && [a, b, c][..2] == [a, b] && [a, b][..1] == [a] && [a][..0] == [];
    assert Exec(rng, p, [a]) == Next(rng, p, a);
    assert Exec(rng, p, [a, b]) == Next(rng, Next(rng, p, a), b);
  }

  /** A setup and a change of controls under which nothing is ever pending and no tick takes a snapshot. */
  predicate Plain(cfg: Setup, c: Controls) {
    ValidSetup(cfg) && cfg.snapshotEvery == 0 && Capacity(cfg.controls) <= 0 && ValidControls(c) && Capacity(c) <= 0
  }

  lemma SavesAt(s: Sim)
    requires s.marks.newest.Some? ==> s.marks.newest.value.at <= s.core.feed.cursor
    ensures SavedFrom(Save(s, []).0, s)
    ensures Save(s, []).0.marks.newest == Some(Saved(s.core.feed.cursor, SnapshotOf(s)))
  {
    SaveIs(s, []);
    SaveSucceedsExactly(s, []);
    InjectedFailureRecovers(s);
    hide Save, SavedFrom;
  }

  /** A tick of a simulation without a cadence, under a staged update that leaves nothing pending. */
  lemma ChangedTick(s: Sim, past: Past, c: Controls)
    requires SoundSim(s, false, past) && s.snapshotEvery == 0 && s.core.feed.staged == []
    requires ValidControls(c) && Capacity(c) <= 0
    ensures var t := Staging(s, c);
            && ValidSim(s) && ValidSim(t) && Step(t, CLEAN).0 == Ticked(t) && SoundSim(Ticked(t), false, past)
            && Ticked(t).run == s.run && Ticked(t).marks == s.marks
            && Ticked(t).core.feed.records == s.core.feed.records + Batch(s.run, t.core.feed)
            && Ticked(t).core.feed.cursor == |Ticked(t).core.feed.records|
            && Batch(s.run, t.core.feed) != [] && Batch(s.run, t.core.feed)[0] == FirstChange(s)
  {
    hide SoundSim, ControlEvent, ValidControls, StepFeed, Batch, Capacity, Fold;
    StagedSound(s, false, past, c);
    var t := Staging(s, c);
    SoundIsValid(s, past);
    SoundIsValid(t, past);
    TickedSound(t, past);
    ChangedFeed(s.run, s.core.feed, c);
  }

  /** The block of a tick with one update staged starts with its record; unbounded, all of it is delivered. */
  lemma ChangedFeed(run: Run, f: Feed, c: Controls)
    requires ValidRun(run) && ValidFeed(Stage(f, c)) && f.staged == [] && Capacity(c) <= 0
    ensures var g := Stage(f, c);
            var r, b := StepFeed(run, g), Batch(run, g);
            && r.records == f.records + b && r.cursor == |r.records|
            && b != [] && b[0] == ControlEvent(run, f.emitted + 1, f.tick, f.revision + 1)
  {
    var g := Stage(f, c);
    hide ControlEvent, ValidControls, Capacity, WithRedeliveries, Draw;
    assert ControlRecords(run, g.tick, g.emitted, g.staged[..0]) == [];
    assert ControlRecords(run, g.tick, g.emitted, g.staged)
         == [ControlEvent(run, f.emitted + 1, f.tick, f.revision + 1)];
    hide ControlRecords;
  }

  /** Staging an update and ticking, as two operations. */
  lemma ChangeAndTick(rng: Generator, p: Process, c: Controls)
    requires p.Up? && !p.failed && SoundSim(p.sim, false, p.past)
    requires p.sim.snapshotEvery == 0 && p.sim.core.feed.staged == []
    requires ValidControls(c) && Capacity(c) <= 0
    ensures ValidSim(Staging(p.sim, c))
    ensures Next(rng, Next(rng, p, Do(StageControls(c))), Do(Tick(CLEAN))) == p.(sim := Ticked(Staging(p.sim, c)))
  {
    hide SoundSim, Ticked, Step, ValidControls, ValidFeed, Capacity, Batch;
    ChangedTick(p.sim, p.past, c);
    var staged := Next(rng, p, Do(StageControls(c)));
    assert staged == p.(sim := Staging(p.sim, c));
    assert Allowed(staged, Tick(CLEAN));
  }

  /** The first snapshot of a run, before anything happened. */
  lemma SavedFirst(cfg: Setup)
    requires ValidSetup(cfg) && cfg.snapshotEvery == 0
    ensures var p := Next(cfg.run.rng, Launch(cfg), Do(SaveAs(Running, [])));
            && p.Up? && !p.failed && p.past == UNBROKEN && SoundSim(p.sim, false, UNBROKEN)
            && p.sim.run == cfg.run && p.sim.core == FreshCore(cfg.run, cfg.controls) && p.sim.snapshotEvery == 0
            && p.sim.marks.newest.Some? && p.sim.marks.newest.value.state.revision == 0
            && DrainedAt(p.sim.marks.newest.value)
  {
    hide SoundSim, Save;
    var s := NewSim(cfg, NO_MARKS);
    FreshSound(cfg);
    SoundIsValid(s, UNBROKEN);
    StateSound(s, false, UNBROKEN, Running);
    SavesAt(InState(s, Running));
    SavedSound(Save(InState(s, Running), []).0, InState(s, Running), false, UNBROKEN);
  }

  lemma OneChange(run: Run, controls: Controls, c: Controls)
    requires ValidRun(run) && ValidControls(controls) && ValidControls(c)
    ensures var f := Stage(FreshFeed(controls), c);
            && ValidFeed(f) && Numbered([] + Batch(run, f)) && |Changes([] + Batch(run, f))| == 1
  {
    FreshOnTrack(run, controls);
    StageOnTrack(run, FreshFeed(controls), c);
    var f := Stage(FreshFeed(controls), c);
    hide Batch, ValidControls;
    BatchNumbered(run, f);
    assert Changes([]) == [];
  }

  /** What the first process leaves behind: one change on the log, and a snapshot that does not know of it. */
  lemma AfterTheCrash(cfg: Setup, c: Controls)
    requires Plain(cfg, c)
    ensures var p := Exec(cfg.run.rng, Launch(cfg), ChangeThenCrash(c));
            && p.Down? && Recoverable(cfg.run, p.disk, UNBROKEN) && p.past == UNBROKEN
            && p.disk.marks.newest.Some? && p.disk.marks.newest.value.state.revision == 0
            && DrainedAt(p.disk.marks.newest.value) && Numbered(p.disk.records) && |Changes(p.disk.records)| == 1
  {
    hide Exec, SoundSim, Ticked, Batch, Launch, ValidControls, Recoverable, Numbered, Changes, Capacity;
    var rng, a := cfg.run.rng, ChangeThenCrash(c);
    ExecFour(rng, Launch(cfg), a[0], a[1], a[2], a[3]);
    SavedFirst(cfg);
    var p := Next(rng, Launch(cfg), a[0]);
    ChangeAndTick(rng, p, c);
    ChangedTick(p.sim, UNBROKEN, c);
    var t := Ticked(Staging(p.sim, c));
    CrashBetween(rng, p.(sim := t), c);
    hide Next;
    DiskSound(t, false, UNBROKEN);
    OneChange(cfg.run, cfg.controls, c);
  }

  lemma CrashBetween(rng: Generator, p: Process, c: Controls)
    requires p.Up? && SoundSim(p.sim, false, p.past) && ValidControls(c)
    ensures Next(rng, p, CrashDuring(StageControls(c), 0)) == Down(DiskOf(p.sim), p.past)
  {
    SoundIsValid(p.sim, p.past);
    hide SoundSim, ValidControls;
  }

  /** A process that forgot the key of the next revision folds the record a replay drops. */
  lemma ReuseIsMissed(s: Sim, past: Past, c: Controls)
    requires SoundSim(s, false, past) && s.snapshotEvery == 0 && s.core.feed.staged == [] && s.core.proj.seen == {}
    requires Pending(s.core.feed) == 0 && ValidControls(c) && Capacity(c) <= 0
    requires Key(FirstChange(s)) in Keys(s.core.feed.records)
    ensures ValidSim(Staging(s, c))
    ensures var t := Ticked(Staging(s, c));
            && SoundSim(t, false, past) && t.core.feed.cursor == |t.core.feed.records|
            && t.core.proj.counters.duplicates < Replay(s.run.organisms, t.core.feed.records).counters.duplicates
  {
    hide Batch, FirstChange, Keys, Key, Replay, ValidControls, Capacity, Ticked, SoundSim, Fold, ValidFeed;
    ChangedTick(s, past, c);
    var rs, b := s.core.feed.records, Batch(s.run, Staging(s, c).core.feed);
    TickedProjection(Staging(s, c), b);
    SoundIsLegal(Ticked(Staging(s, c)), past);
    FirstIn(s.run, rs, b);
    DeliveredIsTracked(s, past);
    MissesOne(s.run.organisms, rs, s.core.proj, b, Key(FirstChange(s)));
  }

  lemma SoundIsLegal(s: Sim, past: Past)
    requires SoundSim(s, false, past)
    ensures Legal(s.run, s.core.feed.records)
  {
    hide Legal, Shows, MarksSound;
  }

  lemma DeliveredIsTracked(s: Sim, past: Past)
    requires SoundSim(s, false, past) && Pending(s.core.feed) == 0
    ensures Tracks(s.run.organisms, s.core.feed.records, s.core.proj)
  {
    hide Tracks, FeedSound, MarksSound, Replay;
    assert s.core.feed.records[..|s.core.feed.records|] == s.core.feed.records;
  }

  lemma TickedProjection(s: Sim, b: seq<Event>)
    requires ValidSim(s) && Pending(s.core.feed) == 0 && b == Batch(s.run, s.core.feed)
    requires Ticked(s).core.feed.cursor == |s.core.feed.records + b|
    ensures Ticked(s).core.proj == Fold(s.core.proj, b)
  {
    var f, rs := s.core.feed, s.core.feed.records;
    assert StepFeed(s.run, f).records == rs + b;
    hide StepFeed, Batch, Fold;
    assert (rs + b)[|rs|..|rs + b|] == b;
  }

  lemma MissesOne(organisms: nat, head: seq<Event>, p: Projection, tail: seq<Event>, key: string)
    requires Tracks(organisms, head, p) && p.seen == {} && key in Keys(head) && key in Keys(tail)
    ensures Fold(p, tail).counters.duplicates < Replay(organisms, head + tail).counters.duplicates
  {
    TracksOn(organisms, head, p, tail);
    hide Keys, Fold;
    assert key in Keys(head) * Keys(tail);
  }

  lemma FirstIn(run: Run, rs: seq<Event>, b: seq<Event>)
    requires Legal(run, rs + b) && b != []
    ensures Key(b[0]) in Keys(b)
  {
    LegalRecord(run, rs + b, |rs|);
    hide Legal, Key;
    assert b[0] in b;
  }

  lemma SecondLife(run: Run, down: Process, c: Controls)
    requires down.Down? && down.past == UNBROKEN && Recoverable(run, down.disk, UNBROKEN)
    requires down.disk.marks.newest.Some?
    requires down.disk.marks.newest.value.state.revision == 0 && DrainedAt(down.disk.marks.newest.value)
    requires Numbered(down.disk.records) && |Changes(down.disk.records)| == 1 && ValidControls(c) && Capacity(c) <= 0
    ensures var a := ChangeAgain(c);
            var p := Next(run.rng, Next(run.rng, Next(run.rng, Next(run.rng, down, a[0]), a[1]), a[2]), a[3]);
            && p.Up? && !p.failed && p.past.unsplit && p.past.drained && !p.past.kept
            && p.sim.marks.newest.Some? && p.sim.marks.newest.value.at == |p.sim.core.feed.records|
            && NewestUnsplit(DiskOf(p.sim)) && !Agrees(run, DiskOf(p.sim))
            && p.sim.core.proj.counters.duplicates < Replay(run.organisms, p.sim.core.feed.records).counters.duplicates
  {
    var a := ChangeAgain(c);
    RevivedWithoutRevision(run, down);
    var up := Next(run.rng, down, Recover);
    hide SoundSim, Ticked, Batch, ValidControls, Recoverable, Numbered, Changes, Keys, Key, FirstChange, Replay;
    ReuseIsMissed(up.sim, up.past, c);
    ChangeAndTick(run.rng, up, c);
    var t := Ticked(Staging(up.sim, c));
    var last := Next(run.rng, up.(sim := t), a[3]);
    TickedKeeps(Staging(up.sim, c));
    PausedAtTheEnd(run, up.(sim := t));
  }

  lemma TickedKeeps(s: Sim)
    requires ValidSim(s)
    ensures Ticked(s).run == s.run
  {
    hide StepCore;
  }

  lemma RevivedWithoutRevision(run: Run, down: Process)
    requires down.Down? && down.past == UNBROKEN && Recoverable(run, down.disk, UNBROKEN)
    requires down.disk.marks.newest.Some?
    requires down.disk.marks.newest.value.state.revision == 0 && DrainedAt(down.disk.marks.newest.value)
    requires Numbered(down.disk.records) && |Changes(down.disk.records)| == 1
    ensures var p := Next(run.rng, down, Recover);
            && p.Up? && !p.failed && p.past == Past(true, false, true) && SoundSim(p.sim, false, p.past)
            && p.sim.run == run
            && p.sim.snapshotEvery == 0 && p.sim.core.feed.staged == [] && p.sim.core.proj.seen == {}
            && Pending(p.sim.core.feed) == 0 && Key(FirstChange(p.sim)) in Keys(p.sim.core.feed.records)
  {
    hide Resume, Rebuild, ResumedSim, Refolded, Recoverable, SoundSim, Keys, Key, FirstChange, Numbered, Changes,
         LastRevision;
    var d := down.disk;
    LostChangeReusesItsRevision(run, d, UNBROKEN);
    ResumeSucceeds(run, d, UNBROKEN);
    ResumedSound(run, d, UNBROKEN);
    NumberedAscends(d.records);
    RecoverableUnsplit(run, d);
  }

  lemma RecoverableUnsplit(run: Run, d: Disk)
    requires Recoverable(run, d, UNBROKEN) && d.marks.newest.Some? && DrainedAt(d.marks.newest.value)
    ensures NewestUnsplit(d)
  {
    hide Legal, Shows, Shaped, Ascending, Clocked;
    DrainedIsUnsplit(run, d.records, d.marks.newest.value);
  }

  lemma PausedAtTheEnd(run: Run, p: Process)
    requires p.Up? && p.sim.run == run && SoundSim(p.sim, false, p.past)
    requires p.sim.core.feed.cursor == |p.sim.core.feed.records|
    requires p.sim.core.proj.counters.duplicates < Replay(run.organisms, p.sim.core.feed.records).counters.duplicates
    ensures var r := Next(run.rng, p, Do(SaveAs(Paused, [])));
            && r.Up? && r.failed == p.failed && r.past == p.past && r.sim.core == p.sim.core
            && r.sim.marks.newest.Some? && r.sim.marks.newest.value.at == |p.sim.core.feed.records|
            && NewestUnsplit(DiskOf(r.sim)) && !Agrees(run, DiskOf(r.sim))
  {
    var s, rs := InState(p.sim, Paused), p.sim.core.feed.records;
    SoundIsValid(p.sim, p.past);
    StateSound(p.sim, false, p.past, Paused);
    NewestNotAhead(s, p.past);
    SavesAt(s);
    hide SoundSim, Save;
    var r := Save(s, []).0;
    SavedSound(r, s, false, p.past);
    DiskSound(r, false, p.past);
    RebuildAgreesOn(run, DiskOf(r), p.past);
    ReplayCountsRepeats(run.organisms, rs);
    assert rs[..|rs|] == rs;
    hide Recoverable, Agrees, Replay, Repeats, NoKeySpans;
  }

  lemma NewestNotAhead(s: Sim, past: Past)
    requires SoundSim(s, false, past)
    ensures s.marks.newest.Some? ==> s.marks.newest.value.at <= s.core.feed.cursor
  {
    hide FeedSound, Shows, MarksSound;
  }

  /** The shortcut can miscount although its snapshot splits nothing. One update before a crash and the same one after
      the restart, for any such setup: the second is counted as handled by the process and by every restart from its
      snapshot, while a replay of the log drops it. The newest snapshot stands at the end of the log. */
  lemma RepeatedRevisionIsMiscounted(cfg: Setup, c: Controls)
    requires Plain(cfg, c)
    ensures var p := Exec(cfg.run.rng, Launch(cfg), ChangeThenCrash(c) + ChangeAgain(c));
            && p.Up? && !p.failed && p.past.unsplit && p.past.drained && !p.past.kept
            && p.sim.marks.newest.Some? && p.sim.marks.newest.value.at == |p.sim.core.feed.records|
            && NewestUnsplit(DiskOf(p.sim)) && !Agrees(cfg.run, DiskOf(p.sim))
            && p.sim.core.proj.counters.duplicates
               < Replay(cfg.run.organisms, p.sim.core.feed.records).counters.duplicates
  {
    var rng, a, start := cfg.run.rng, ChangeAgain(c), Launch(cfg);
    ExecConcat(rng, start, ChangeThenCrash(c), a);
    AfterTheCrash(cfg, c);
    var down := Exec(rng, start, ChangeThenCrash(c));
    hide Exec, Launch, ChangeThenCrash, Plain;
    ExecFour(rng, down, a[0], a[1], a[2], a[3]);
    SecondLife(cfg.run, down, c);
  }

  // ---- cadence ----

  predicate OnlyTicks(actions: seq<Action>) {
    forall i | 0 <= i < |actions| :: actions[i].Do? && (actions[i].op.Tick? || actions[i].op.StageControls?)
  }

  /** A restarted run keeps no snapshot cadence: no number of ticks moves its newest snapshot or its commit. */
  lemma {:induction false} RestartedRunStopsSnapshotting(rng: Generator, d: Disk, past: Past, actions: seq<Action>)
    requires Resume(rng, d).Success? && OnlyTicks(actions)
    ensures var p := Exec(rng, Next(rng, Down(d, past), Recover), actions);
            p.Up? && p.sim.snapshotEvery == 0 && p.sim.marks == d.marks
  {
    if actions != [] {
      var k := |actions| - 1;
      RestartedRunStopsSnapshotting(rng, d, past, actions[..k]);
      assert actions[k].Do?;
      hide Resume, Save, StepCore, FailedAppend;
    }
  }

  // ---- live runs ----

  /** Two updates accepted for one tick: its log is no batch run's, whatever the batch is configured with. */
  lemma TwoUpdatesInOneTick(cfg: Setup, c: Controls)
    requires ValidSetup(cfg) && ValidControls(c)
    ensures var t := LiveTrace(cfg, [Update(c), Update(c), TickClock(CLEAN, [])]);
            && |t.receipts| == 2 && t.live.sim.core.feed.tick == 1
            && !Reproducible(t.live.sim.core.feed.records)
  {
    var cmds := [Update(c), Update(c), TickClock(CLEAN, [])];
    hide LiveTrace, ValidControls, Reproducible, ControlsAt;
    TwoReceipts(cfg, c);
    BothAtOnce(c);
    BatchReproducesExactly(cfg, cmds);
  }

  lemma BothAtOnce(c: Controls)
    ensures |ControlsAt([Receipt(1, c, 0), Receipt(2, c, 0)], 0)| == 2
  {
    var first, second := Receipt(1, c, 0), Receipt(2, c, 0);
    ReceiptsSnoc([], first, 0);
    ReceiptsSnoc([first], second, 0);
    assert [] + [first] == [first] && [first] + [second] == [first, second];
  }

  lemma TwoReceipts(cfg: Setup, c: Controls)
    requires ValidSetup(cfg) && ValidControls(c)
    ensures var t := LiveTrace(cfg, [Update(c), Update(c), TickClock(CLEAN, [])]);
            t.receipts == [Receipt(1, c, 0), Receipt(2, c, 0)] && t.live.sim.core.feed.tick == 1
  {
    var u, tick := Update(c), TickClock(CLEAN, []);
    hide LiveTrace, ValidControls, Follow, ValidLive;
    TwoUpdates(cfg, c);
    TraceSnoc(cfg, [u, u], tick);
    assert [u, u] + [tick] == [u, u, tick];
    FollowTick(LiveTrace(cfg, [u, u]));
  }

  lemma TwoUpdates(cfg: Setup, c: Controls)
    requires ValidSetup(cfg) && ValidControls(c)
    ensures var t := LiveTrace(cfg, [Update(c), Update(c)]);
            && t.receipts == [Receipt(1, c, 0), Receipt(2, c, 0)] && t.live.sim.core.feed.tick == 0
            && !t.live.stopped && t.live.state == Running
  {
    var u := Update(c);
    NoTrace(cfg);
    hide LiveTrace, ValidControls, Started, ValidLive, Follow;
    StartedValid(cfg);
    TraceSnoc(cfg, [], u);
    TraceSnoc(cfg, [u], u);
    assert [] + [u] == [u] && [u] + [u] == [u, u];
    FollowUpdate(LiveTrace(cfg, []), c);
    FollowUpdate(LiveTrace(cfg, [u]), c);
  }

  lemma NoTrace(cfg: Setup)
    requires ValidSetup(cfg)
    ensures LiveTrace(cfg, []) == Trace(Started(cfg), []) && !Started(cfg).stopped
    ensures Started(cfg) == LiveOver(Started(cfg).sim)
  {
    hide Save;
  }

  lemma FollowUpdate(t: Trace, c: Controls)
    requires ValidLive(t.live) && !t.live.stopped && t.live.state == Running && ValidControls(c)
    ensures var r, f := Follow(t, Update(c)), t.live.sim.core.feed;
            && r.live == t.live.(sim := Staging(t.live.sim, c))
            && r.receipts == t.receipts + [Receipt(f.revision + 1, c, f.tick)]
  {
    ObeyUpdate(t.live, c);
    hide Obey, ValidControls, ValidLive;
  }

  lemma FollowTick(t: Trace)
    requires ValidLive(t.live) && !t.live.stopped && t.live.state == Running
    ensures var r := Follow(t, TickClock(CLEAN, []));
            r.receipts == t.receipts && r.live.sim.core.feed.tick == t.live.sim.core.feed.tick + 1
  {
    ObeyCore(t.live, TickClock(CLEAN, []));
    StepTicks(t.live.sim.run, t.live.sim.core);
    hide Obey, StepCore, ValidFeed;
  }

  lemma TraceSnoc(cfg: Setup, cmds: seq<Command>, cmd: Command)
    requires ValidSetup(cfg)
    ensures LiveTrace(cfg, cmds + [cmd]) == Follow(LiveTrace(cfg, cmds), cmd)
  {
    hide Started, Follow;
    assert (cmds + [cmd])[..|cmds + [cmd]| - 1] == cmds;
  }

  lemma ObeyUpdate(l: Live, c: Controls)
    requires ValidLive(l) && !l.stopped && l.state == Running && ValidControls(c)
    ensures Obey(l, Update(c)) == l.(sim := Staging(l.sim, c))
  {
    hide ValidControls;
  }

  /** A client that catches up while records are pending: after the first tick of the tight run it is handed two
      records and a frame that has folded only one. */
  lemma CatchUpAheadOfItsFrame(rng: Generator, runID: string, seed: int, buffer: int)
    requires runID != ""
    ensures var cfg := Setup(TightRun(rng, runID, seed), TIGHT, 0, 0, 0);
            var l := LiveTrace(cfg, [TickClock(CLEAN, [])]).live;
            var after := Obey(l, CatchUp(buffer, 0));
            && Pending(l.sim.core.feed) == 1
            && Serves(l, 0) && |Missed(l, 0)| == 2
            && |after.streams| == 1 && |after.streams[0].frames| == 1 && after.streams[0].frames[0].foldedOffset == 1
  {
    var cfg := Setup(TightRun(rng, runID, seed), TIGHT, 0, 0, 0);
    hide LiveTrace, Obey;
    TightLive(rng, runID, seed);
    AttachedFrame(LiveTrace(cfg, [TickClock(CLEAN, [])]).live, buffer, 0);
  }

  lemma TightLive(rng: Generator, runID: string, seed: int)
    requires runID != ""
    ensures var cfg := Setup(TightRun(rng, runID, seed), TIGHT, 0, 0, 0);
            var l := LiveTrace(cfg, [TickClock(CLEAN, [])]).live;
            && !l.stopped && l.streams == []
            && |l.sim.core.feed.records| == 2 && l.sim.core.feed.cursor == 1
  {
    hide LiveTrace, Started, Obey, RainOnTheOnlyOrganism, Replay, ValidFeed, StepCore, FreshPlot;
    var cfg := Setup(TightRun(rng, runID, seed), TIGHT, 0, 0, 0);
    NoTrace(cfg);
    StartedValid(cfg);
    var l0, tick := Started(cfg), TickClock(CLEAN, []);
    TraceSnoc(cfg, [], tick);
    assert [] + [tick] == [tick];
    var e := TightTick(l0.sim, cfg.run);
    ObeyCore(l0, tick);
    NoStreamsYet(l0);
  }

  lemma NoStreamsYet(l: Live)
    requires ValidLive(l) && l == LiveOver(l.sim)
    ensures var r := Obey(l, TickClock(CLEAN, [])); r.streams == [] && !r.stopped
  {
    hide Step, Save;
  }
}
