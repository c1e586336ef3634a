/** The durable half of a run: its log, its commit, its newest snapshot; and how a restart reads them back. */
module Snapshots {
  import opened Identifiers
  import opened Events
  import opened ControlRules
  import opened Gardens
  import opened Processing
  import opened Production
  import opened Feeds
  import opened Wrappers

  const SNAPSHOT_SCHEMA_VERSION: int := 2
  const MAX_SAVE_ATTEMPTS: nat := 3

  datatype Lifecycle = Unset | Running | Paused | Finished

  /** Everything a snapshot holds: garden and counters, clock and counts, and the run's own settings. */
  datatype Snapshot = Snapshot(
    schemaVersion: int, runID: string, seed: int, tick: int, revision: nat, controls: Controls,
    organisms: Plot, counters: Counters, published: nat,
    state: Lifecycle, maxTicks: int, tickInterval: int, duplicateEvery: nat)

  /** A snapshot at an offset: the records below it are in, those from it on are not. */
  datatype Saved = Saved(at: nat, state: Snapshot)

  datatype Marks = Marks(committed: nat, newest: Option<Saved>)

  /** What survives a crash. */
  datatype Disk = Disk(records: seq<Event>, marks: Marks)

  const NO_MARKS: Marks := Marks(0, None)

  datatype Sim = Sim(
    run: Run, snapshotEvery: nat, maxTicks: int, tickInterval: int,
    core: Core, marks: Marks, committedSeen: nat, state: Lifecycle,
    saves: nat, retries: nat, failures: nat)

  function DiskOf(s: Sim): Disk {
    Disk(s.core.feed.records, s.marks)
  }

  predicate ValidSim(s: Sim) {
    ValidRun(s.run) && ValidFeed(s.core.feed)
  }

  /** Everything a run is configured with when it is created. */
  datatype Setup = Setup(run: Run, controls: Controls, snapshotEvery: nat, maxTicks: int, tickInterval: int)

  predicate ValidSetup(cfg: Setup) {
    ValidRun(cfg.run) && ValidControls(cfg.controls)
  }

  /** A simulation at tick zero over whatever its log holds, read from `cursor` on. */
  function NewSimOver(cfg: Setup, d: Disk, cursor: nat): Sim {
    var c := FreshCore(cfg.run, cfg.controls);
    Sim(cfg.run, cfg.snapshotEvery, cfg.maxTicks, cfg.tickInterval,
        c.(feed := c.feed.(records := d.records, cursor := cursor)),
        d.marks, d.marks.committed, Unset, 0, 0, 0)
  }

  /** The same over an empty log. */
  function NewSim(cfg: Setup, marks: Marks): Sim {
    NewSimOver(cfg, Disk([], marks), 0)
  }

  function SnapshotOf(s: Sim): Snapshot {
    var f := s.core.feed;
    Snapshot(SNAPSHOT_SCHEMA_VERSION, s.run.runID, s.run.seed, f.tick, f.revision, f.controls,
             s.core.proj.garden, s.core.proj.counters, f.published,
             s.state, s.maxTicks, s.tickInterval, s.run.duplicateEvery)
  }

  // ---- saving ----

  /** What the disk does with one attempt to save: two writes, either of which may fail. */
  datatype SaveOutcome = SnapshotFails | CommitFails | Saves

  /** Outcomes of successive attempts; attempts past the end succeed. */
  type SaveIO = seq<SaveOutcome>

  function OutcomeOf(io: SaveIO, attempt: nat): SaveOutcome {
    if 1 <= attempt <= |io| then io[attempt - 1] else Saves
  }

  /** A snapshot at the newest offset replaces the one there; an older one is kept but never the newest. */
  function WriteSnapshot(m: Marks, at: nat, state: Snapshot): Marks {
    if m.newest.Some? && m.newest.value.at > at then m else m.(newest := Some(Saved(at, state)))
  }

  /** Whether this save's first attempt is made to fail. */
  predicate Injected(saves: nat, c: Controls) {
    c.failSnapshotEvery > 0 && EveryNth(saves, c.failSnapshotEvery)
  }

  /** The retry loop, from one attempt on. */
  function TrySave(s: Sim, state: Snapshot, attempt: nat, inject: bool, io: SaveIO): (Sim, bool)
    requires 1 <= attempt
    decreases MAX_SAVE_ATTEMPTS + 1 - attempt
  {
    if attempt > MAX_SAVE_ATTEMPTS then (s.(failures := s.failures + 1), false)
    else
      var s := if attempt > 1 then s.(retries := s.retries + 1) else s;
      var at := s.core.feed.cursor;
      if inject && attempt == 1 then TrySave(s, state, attempt + 1, inject, io)
      else
        match OutcomeOf(io, attempt)
        case SnapshotFails => TrySave(s, state, attempt + 1, inject, io)
        case CommitFails => TrySave(s.(marks := WriteSnapshot(s.marks, at, state)), state, attempt + 1, inject, io)
        case Saves => (s.(marks := WriteSnapshot(s.marks, at, state).(committed := at), committedSeen := at), true)
  }

  function Save(s: Sim, io: SaveIO): (Sim, bool) {
    var counted := s.(saves := s.saves + 1);
    TrySave(counted, SnapshotOf(s), 1, Injected(counted.saves, s.core.feed.controls), io)
  }

  /** The durable marks at every atomic point of the retry loop: before it, and after each write. */
  function SavePoints(m: Marks, at: nat, state: Snapshot, attempt: nat, inject: bool, io: SaveIO): seq<Marks>
    requires 1 <= attempt
    decreases MAX_SAVE_ATTEMPTS + 1 - attempt
  {
    if attempt > MAX_SAVE_ATTEMPTS then [m]
    else if inject && attempt == 1 then SavePoints(m, at, state, attempt + 1, inject, io)
    else
      var written := WriteSnapshot(m, at, state);
      match OutcomeOf(io, attempt)
      case SnapshotFails => [m] + SavePoints(m, at, state, attempt + 1, inject, io)
      case CommitFails => [m] + SavePoints(written, at, state, attempt + 1, inject, io)
      case Saves => [m, written, written.(committed := at)]
  }

  // ---- stepping ----

  /** An append may fail having written some of its records. */
  datatype AppendOutcome = Appends | AppendFails(written: nat)

  datatype StepIO = StepIO(append: AppendOutcome, save: SaveIO)

  const CLEAN: StepIO := StepIO(Appends, [])

  function Min(a: nat, b: nat): nat {
    if a < b then a else b
  }

  /** The feed when the append failed part way: the producer has moved on, the clock has not. */
  function FailedAppend(run: Run, f: Feed, written: nat): (r: Feed)
    requires ValidRun(run) && ValidFeed(f)
    ensures ValidFeed(r)
  {
    GoverningValid(f);
    Append(run, f).(records := f.records + Batch(run, f)[..Min(written, |Batch(run, f)|)], published := f.published)
  }

  predicate SnapshotDue(s: Sim) {
    EveryNth(s.core.feed.tick, s.snapshotEvery)
  }

  function Ticked(s: Sim): Sim
    requires ValidSim(s)
  {
    s.(core := StepCore(s.run, s.core))
  }

  /** One tick, and whether it succeeded. */
  function Step(s: Sim, io: StepIO): (Sim, bool)
    requires ValidSim(s)
  {
    match io.append
    case AppendFails(written) =>
      (s.(core := s.core.(feed := FailedAppend(s.run, s.core.feed, written))), false)
    case Appends =>
      if SnapshotDue(Ticked(s)) then Save(Ticked(s), io.save) else (Ticked(s), true)
  }

  function Staging(s: Sim, c: Controls): Sim {
    s.(core := s.core.(feed := Stage(s.core.feed, c)))
  }

  // ---- reading back ----

  datatype RestoreError = Stranded | WrongSchema | BadGarden | BadRecord | NoRunState

  datatype Rebuilt = Rebuilt(garden: Plot, snapshot: Snapshot)

  const BLANK: Snapshot :=
    Snapshot(0, "", 0, 0, 0, Controls(0, 0, 0, 0, 0, 0, 0), [], NO_COUNTS, 0, Unset, 0, 0, 0)

  /** 64-bit increment. */
  function Succ64(n: int): int {
    if n == MAX_INT64 then MIN_INT64 else n + 1
  }

  /** One past the highest organism a history mentions, zero if it mentions none. */
  function Highest(es: seq<Event>): int {
    if es == [] then 0
    else
      var h, e := Highest(es[..|es| - 1]), es[|es| - 1];
      if !IsOrganismEvent(e) then h
      else
        match Atoi(TrimPrefix(e.entityID, "org-"))
        case None => h
        case Some(n) => if Succ64(n) > h then Succ64(n) else h
  }

  function OrganismCount(es: seq<Event>): (n: int)
    ensures n >= 1
  {
    HighestNatural(es);
    if Highest(es) == 0 then 1 else Highest(es)
  }

  lemma {:induction false} HighestNatural(es: seq<Event>)
    ensures Highest(es) >= 0
  {
    if es != [] { HighestNatural(es[..|es| - 1]); }
  }

  /** By how many ticks the clock is moved for these records: from the first one's tick to past the last one's. */
  function TicksIn(es: seq<Event>): int {
    if es == [] then 0 else es[|es| - 1].occurredAt - es[0].occurredAt + 1
  }

  /** Garden and snapshot as a restart sees them: the newest snapshot with its tail folded in, or, without one, a
      garden of inferred size with the whole log folded in. */
  function Rebuild(d: Disk): Result<Rebuilt, RestoreError> {
    match d.marks.newest
    case None =>
      if !AllValid(d.records) then Failure(BadRecord)
      else
        var p := Replay(OrganismCount(d.records), d.records);
        Success(Rebuilt(p.garden, BLANK.(counters := p.counters)))
    case Some(Saved(at, st)) =>
      if at > |d.records| then Failure(Stranded)
      else if st.schemaVersion != SNAPSHOT_SCHEMA_VERSION then Failure(WrongSchema)
      else if st.organisms == [] || !Indexed(st.organisms) then Failure(BadGarden)
      else
        var tail := d.records[at..];
        if !AllValid(tail) then Failure(BadRecord)
        else
          var p := Fold(Starting(st.organisms), tail);
          Success(Rebuilt(p.garden, st.(
            tick := st.tick + TicksIn(tail), published := st.published + |tail|,
            counters := Merge(st.counters, p.counters))))
  }

  /** The simulation a restart goes on with. No snapshot records a cadence, so it has none. */
  function Resume(rng: Generator, d: Disk): Result<Sim, RestoreError> {
    match Rebuild(d)
    case Failure(e) => Failure(e)
    case Success(r) =>
      if r.snapshot.runID == "" then Failure(NoRunState)
      else if d.records != [] && !Valid(d.records[|d.records| - 1]) then Failure(BadRecord)
      else Success(ResumedSim(rng, d, r))
  }

  function ResumedSim(rng: Generator, d: Disk, r: Rebuilt): Sim
    requires d.records != [] ==> Valid(d.records[|d.records| - 1])
  {
    var st := r.snapshot;
    var feed := Feed(if d.records == [] then 0 else d.records[|d.records| - 1].sequence,
                     st.tick, st.controls, st.revision, [], st.published, d.records, |d.records|);
    Sim(Run(rng, st.runID, st.seed, |st.organisms|, st.duplicateEvery), 0, st.maxTicks, st.tickInterval,
        Core(feed, Projection(r.garden, {}, st.counters)), d.marks, d.marks.committed, st.state, 0, 0, 0)
  }

  // ---- what saving does ----

  /** The two runs of a simulation differ only in their marks and save counters. */
  ghost predicate SameSimulation(a: Sim, b: Sim) {
    a == b.(marks := a.marks, committedSeen := a.committedSeen, saves := a.saves, retries := a.retries,
            failures := a.failures)
  }

  lemma {:induction false} TrySaveSame(s: Sim, state: Snapshot, attempt: nat, inject: bool, io: SaveIO)
    requires 1 <= attempt
    ensures SameSimulation(TrySave(s, state, attempt, inject, io).0, s)
    decreases MAX_SAVE_ATTEMPTS + 1 - attempt
  {
    hide WriteSnapshot, OutcomeOf;
    if attempt <= MAX_SAVE_ATTEMPTS {
      var r := if attempt > 1 then s.(retries := s.retries + 1) else s;
      TrySaveSame(r, state, attempt + 1, inject, io);
      TrySaveSame(r.(marks := WriteSnapshot(s.marks, s.core.feed.cursor, state)), state, attempt + 1, inject, io);
    }
  }

  lemma {:induction false} TrySaveMarks(s: Sim, state: Snapshot, attempt: nat, inject: bool, io: SaveIO)
    requires 1 <= attempt
    ensures TrySave(s, state, attempt, inject, io).0.marks
            in SavePoints(s.marks, s.core.feed.cursor, state, attempt, inject, io)
    decreases MAX_SAVE_ATTEMPTS + 1 - attempt
  {
    hide WriteSnapshot, OutcomeOf;
    if attempt <= MAX_SAVE_ATTEMPTS {
      var r := if attempt > 1 then s.(retries := s.retries + 1) else s;
      TrySaveMarks(r, state, attempt + 1, inject, io);
      TrySaveMarks(r.(marks := WriteSnapshot(s.marks, s.core.feed.cursor, state)), state, attempt + 1, inject, io);
    }
  }

  function SavePointsOf(s: Sim, io: SaveIO): seq<Marks> {
    SavePoints(s.marks, s.core.feed.cursor, SnapshotOf(s), 1, Injected(s.saves + 1, s.core.feed.controls), io)
  }

  /** Marks a save can leave: untouched, with the snapshot written, or with the commit written after it. */
  predicate WrittenBy(s: Sim, m: Marks) {
    var written := WriteSnapshot(s.marks, s.core.feed.cursor, SnapshotOf(s));
    m == s.marks || m == written || m == written.(committed := s.core.feed.cursor)
  }

  lemma {:induction false} SavePointsWritten(m: Marks, at: nat, state: Snapshot, attempt: nat, inject: bool, io: SaveIO)
    requires 1 <= attempt
    ensures var written := WriteSnapshot(m, at, state);
            forall p | p in SavePoints(m, at, state, attempt, inject, io) ::
              p == m || p == written || p == written.(committed := at)
    decreases MAX_SAVE_ATTEMPTS + 1 - attempt
  {
    if attempt <= MAX_SAVE_ATTEMPTS {
      SavePointsWritten(m, at, state, attempt + 1, inject, io);
      SavePointsWritten(WriteSnapshot(m, at, state), at, state, attempt + 1, inject, io);
    }
  }

  /** Saving never touches the simulation, and leaves the marks at one of its atomic points, of which there are only
      three kinds, however often it retries. */
  lemma SaveKeeps(s: Sim, io: SaveIO)
    ensures SameSimulation(Save(s, io).0, s)
    ensures Save(s, io).0.marks in SavePointsOf(s, io)
    ensures forall m | m in SavePointsOf(s, io) :: WrittenBy(s, m)
  {
    hide Injected, TrySave, SavePoints;
    TrySaveSame(s.(saves := s.saves + 1), SnapshotOf(s), 1, Injected(s.saves + 1, s.core.feed.controls), io);
    TrySaveMarks(s.(saves := s.saves + 1), SnapshotOf(s), 1, Injected(s.saves + 1, s.core.feed.controls), io);
    SavePointsWritten(s.marks, s.core.feed.cursor, SnapshotOf(s), 1, Injected(s.saves + 1, s.core.feed.controls), io);
  }

  /** Some attempt the loop really makes, from this one on, gets both writes through. */
  predicate SomeAttemptSaves(attempt: nat, inject: bool, io: SaveIO)
    decreases MAX_SAVE_ATTEMPTS + 1 - attempt
  {
    && attempt <= MAX_SAVE_ATTEMPTS
    && ((OutcomeOf(io, attempt).Saves? && !(inject && attempt == 1)) || SomeAttemptSaves(attempt + 1, inject, io))
  }

  lemma {:induction false} TrySaveExactly(s: Sim, state: Snapshot, attempt: nat, inject: bool, io: SaveIO)
    requires 1 <= attempt
    requires s.marks.newest.Some? ==> s.marks.newest.value.at <= s.core.feed.cursor
    ensures var r, at := TrySave(s, state, attempt, inject, io), s.core.feed.cursor;
            && (r.1 <==> SomeAttemptSaves(attempt, inject, io))
            && r.0.failures == s.failures + (if r.1 then 0 else 1)
            && (r.1 ==> r.0.marks == Marks(at, Some(Saved(at, state))) && r.0.committedSeen == at)
    decreases MAX_SAVE_ATTEMPTS + 1 - attempt
  {
    if attempt <= MAX_SAVE_ATTEMPTS {
      var r := if attempt > 1 then s.(retries := s.retries + 1) else s;
      TrySaveExactly(r, state, attempt + 1, inject, io);
      TrySaveExactly(r.(marks := WriteSnapshot(s.marks, s.core.feed.cursor, state)), state, attempt + 1, inject, io);
    }
  }

  /** A save succeeds exactly when some attempt it makes does; then snapshot and commit stand at the cursor. */
  lemma SaveSucceedsExactly(s: Sim, io: SaveIO)
    requires s.marks.newest.Some? ==> s.marks.newest.value.at <= s.core.feed.cursor
    ensures var r, at := Save(s, io), s.core.feed.cursor;
            && (r.1 <==> SomeAttemptSaves(1, Injected(s.saves + 1, s.core.feed.controls), io))
            && r.0.failures == s.failures + (if r.1 then 0 else 1)
            && (r.1 ==> r.0.marks == Marks(at, Some(Saved(at, SnapshotOf(s)))) && r.0.committedSeen == at)
  {
    hide Injected, TrySave, SomeAttemptSaves;
    TrySaveExactly(s.(saves := s.saves + 1), SnapshotOf(s), 1, Injected(s.saves + 1, s.core.feed.controls), io);
  }

  /** An injected failure only ever costs one retry: with a healthy disk every save goes through. */
  lemma InjectedFailureRecovers(s: Sim)
    ensures var r := Save(s, []);
            r.1 && r.0.failures == s.failures
            && r.0.retries == s.retries + if Injected(s.saves + 1, s.core.feed.controls) then 1 else 0
  {
    var counted := s.(saves := s.saves + 1);
    assert OutcomeOf([], 1).Saves? && OutcomeOf([], 2).Saves?;
  }
}
