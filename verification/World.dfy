/** A run under crashes: any operation may be cut short between any two durable writes, any disk write may fail,
    and the process may be restarted any number of times, whatever its disk holds. */
module World {
  import opened ControlRules
  import opened Production
  import opened History
  import opened Feeds
  import opened Snapshots

  datatype Op = StageControls(controls: Controls) | Tick(step: StepIO) | SaveAs(state: Lifecycle, save: SaveIO)

  /** `CrashDuring` cuts an operation short at one of its durable points; `Recover` restarts a stopped process. */
  datatype Action = Do(op: Op) | CrashDuring(cut: Op, point: nat) | Recover

  // ---- what a restart can find ----

  /** The newest snapshot does not separate a record from its redelivery. */
  predicate NewestUnsplit(d: Disk) {
    d.marks.newest.Some? ==> Unsplit(d.records, d.marks.newest.value.at)
  }

  /** Nothing was waiting to be folded when the snapshot was taken. */
  predicate DrainedAt(sv: Saved) {
    sv.state.published == sv.at
  }

  predicate NewestDrained(d: Disk) {
    d.marks.newest.Some? ==> DrainedAt(d.marks.newest.value)
  }

  /** The newest snapshot knows of every revision the log records. */
  predicate RevisionKept(d: Disk) {
    d.marks.newest.Some? ==> LastRevision(d.records) <= d.marks.newest.value.state.revision
  }

  /** What all restarts of a run so far had in common: unsplit snapshots; unsplit ones that knew every recorded
      revision; snapshots with nothing pending. */
  datatype Past = Past(unsplit: bool, kept: bool, drained: bool)

  const UNBROKEN: Past := Past(true, true, true)

  function RestartedFrom(past: Past, d: Disk): Past {
    Past(past.unsplit && NewestUnsplit(d),
         past.kept && NewestUnsplit(d) && RevisionKept(d),
         past.drained && NewestDrained(d))
  }

  // ---- transitions ----

  /** A running process, and whether its last append failed; or a disk waiting for one. */
  datatype Process = Up(sim: Sim, failed: bool, past: Past) | Down(disk: Disk, past: Past)

  /** What is durable of a process. */
  function DiskNow(p: Process): Disk {
    if p.Up? then DiskOf(p.sim) else p.disk
  }

  /** A step that failed is the run's last. Invalid controls are refused. */
  predicate Allowed(p: Process, op: Op) {
    p.Up? && ValidSim(p.sim) &&
    match op
    case StageControls(c) => ValidControls(c)
    case Tick(_) => !p.failed
    case SaveAs(_, _) => true
  }

  function InState(s: Sim, state: Lifecycle): Sim {
    s.(state := state)
  }

  function Operate(p: Process, op: Op): Process
    requires Allowed(p, op)
  {
    match op
    case StageControls(c) => p.(sim := Staging(p.sim, c))
    case Tick(io) => p.(sim := Step(p.sim, io).0, failed := io.append.AppendFails?)
    case SaveAs(state, io) => p.(sim := Save(InState(p.sim, state), io).0)
  }

  /** Every disk a crash during the operation can leave, in order. */
  function CrashPoints(p: Process, op: Op): seq<Disk>
    requires Allowed(p, op)
  {
    match op
    case StageControls(_) => [DiskOf(p.sim)]
    case Tick(io) => TickDisks(p.sim, io)
    case SaveAs(state, io) => SaveDisks(InState(p.sim, state), io)
  }

  function AppendDisks(s: Sim): seq<Disk>
    requires ValidSim(s)
  {
    var f, b := s.core.feed, Batch(s.run, s.core.feed);
    seq(|b| + 1, k requires 0 <= k <= |b| => Disk(f.records + b[..k], s.marks))
  }

  function TickDisks(s: Sim, io: StepIO): seq<Disk>
    requires ValidSim(s)
  {
    AppendDisks(s) + if io.append.Appends? && SnapshotDue(Ticked(s)) then SaveDisks(Ticked(s), io.save) else []
  }

  function SaveDisks(s: Sim, io: SaveIO): seq<Disk> {
    var ms := SavePointsOf(s, io);
    seq(|ms|, i requires 0 <= i < |ms| => Disk(s.core.feed.records, ms[i]))
  }

  /** One transition. What is not allowed changes nothing, and a restart that fails leaves the disk as it was. */
  function Next(rng: Generator, p: Process, a: Action): Process {
    match a
    case Do(op) => if Allowed(p, op) then Operate(p, op) else p
    case CrashDuring(op, point) =>
      if Allowed(p, op) && point < |CrashPoints(p, op)| then Down(CrashPoints(p, op)[point], p.past) else p
    case Recover =>
      if p.Down? && Resume(rng, p.disk).Success? then
        Up(Resume(rng, p.disk).value, false, RestartedFrom(p.past, p.disk))
      else p
  }

  function Exec(rng: Generator, p: Process, actions: seq<Action>): Process {
    if actions == [] then p
    else Next(rng, Exec(rng, p, actions[..|actions| - 1]), actions[|actions| - 1])
  }

  lemma ExecSnoc(rng: Generator, p: Process, actions: seq<Action>, a: Action)
    ensures Exec(rng, p, actions + [a]) == Next(rng, Exec(rng, p, actions), a)
  {
    assert (actions + [a])[..|actions + [a]| - 1] == actions;
  }

  lemma {:induction false} ExecConcat(rng: Generator, p: Process, first: seq<Action>, more: seq<Action>)
    ensures Exec(rng, p, first + more) == Exec(rng, Exec(rng, p, first), more)
    decreases |more|
  {
    hide Next;
    if more == [] {
      assert first + more == first;
    } else {
      var k := |more| - 1;
      ExecConcat(rng, p, first, more[..k]);
      assert first + more == (first + more[..k]) + [more[k]];
      ExecSnoc(rng, p, first + more[..k], more[k]);
    }
  }

  function Launch(cfg: Setup): Process {
    Up(NewSim(cfg, NO_MARKS), false, UNBROKEN)
  }

  // ---- what operations and crashes leave, in terms of ticks and saves ----

  /** A simulation whose core is this one's and whose marks a save of this one left, if anything did. */
  ghost predicate SavedFrom(r: Sim, s: Sim) {
    SameSimulation(r, s) && WrittenBy(s, r.marks)
  }

  /** A tick is a failed append, or a whole tick and perhaps a save. */
  lemma StepIs(s: Sim, io: StepIO)
    requires ValidSim(s)
    ensures io.append.Appends? ==> SavedFrom(Step(s, io).0, Ticked(s))
    ensures io.append.AppendFails? ==>
              Step(s, io).0 == s.(core := s.core.(feed := FailedAppend(s.run, s.core.feed, io.append.written)))
  {
    SaveKeeps(Ticked(s), io.save);
    hide Save, Ticked, SnapshotDue, FailedAppend, SavePoints;
  }

  lemma SaveIs(s: Sim, io: SaveIO)
    ensures SavedFrom(Save(s, io).0, s)
  {
    SaveKeeps(s, io);
    hide Save, SavePoints;
  }

  /** A crash leaves part of a tick's block on the log, or the marks of a save. */
  predicate CrashDisk(s: Sim, d: Disk)
    requires ValidSim(s)
  {
    || (exists k :: 0 <= k <= |Batch(s.run, s.core.feed)| && PartlyWritten(s, k) == d)
    || (d.records == Ticked(s).core.feed.records && WrittenBy(Ticked(s), d.marks))
  }

  function PartlyWritten(s: Sim, k: nat): Disk
    requires ValidSim(s) && k <= |Batch(s.run, s.core.feed)|
  {
    Disk(s.core.feed.records + Batch(s.run, s.core.feed)[..k], s.marks)
  }

  lemma TickDisksAre(s: Sim, io: StepIO, i: nat)
    requires ValidSim(s) && i < |TickDisks(s, io)|
    ensures CrashDisk(s, TickDisks(s, io)[i])
  {
    hide Batch, Ticked, SnapshotDue, SavePoints, WrittenBy;
    if i < |AppendDisks(s)| {
      assert TickDisks(s, io)[i] == PartlyWritten(s, i);
    } else {
      SaveKeeps(Ticked(s), io.save);
      var j := i - |AppendDisks(s)|;
      assert SavePointsOf(Ticked(s), io.save)[j] in SavePointsOf(Ticked(s), io.save);
    }
  }

  lemma SaveDisksAre(s: Sim, io: SaveIO, i: nat)
    requires i < |SaveDisks(s, io)|
    ensures SaveDisks(s, io)[i].records == s.core.feed.records && WrittenBy(s, SaveDisks(s, io)[i].marks)
  {
    SaveKeeps(s, io);
    hide SavePoints, WrittenBy;
    assert SavePointsOf(s, io)[i] in SavePointsOf(s, io);
  }

  lemma ResumeNeedsSnapshot(rng: Generator, d: Disk)
    requires Resume(rng, d).Success?
    ensures d.marks.newest.Some?
  {
  }
}
