/** One simulation as an object: producer, log, processor and garden, stepped in place. Every method is proved against
    the function of the same step on values. */
module Simulations {
  import opened Identifiers
  import opened Events
  import opened ControlRules
  import opened Gardens
  import opened Processing
  import opened Production
  import opened Feeds
  import opened Snapshots
  import opened EventLogs
  import opened Wrappers

  lemma ProducedEncodable(run: Run, es: seq<Event>, emitted: nat, tick: nat)
    requires ProducedInOrder(run, es, emitted, tick)
    ensures AllEncodable(es)
  {
    forall e | e in es ensures Encodable(e) {
      var i :| 0 <= i < |es| && es[i] == e;
      assert ProducedAt(run, es[i], emitted + i + 1, tick);
    }
  }

  lemma {:induction false} RedeliveriesEncodable(every: nat, es: seq<Event>)
    requires AllEncodable(es)
    ensures AllEncodable(WithRedeliveries(every, es))
  {
    if es != [] {
      assert forall e :: e in es[..|es| - 1] ==> e in es;
      RedeliveriesEncodable(every, es[..|es| - 1]);
      assert es[|es| - 1] in es;
    }
  }

  lemma {:induction false} ControlRecordsEncodable(run: Run, tick: nat, emitted: nat, staged: seq<Staged>)
    requires ValidRun(run)
    ensures AllEncodable(ControlRecords(run, tick, emitted, staged))
  {
    if staged != [] { ControlRecordsEncodable(run, tick, emitted, staged[..|staged| - 1]); }
  }

  /** Everything a tick produces is a record the log accepts. */
  lemma BatchEncodable(run: Run, f: Feed)
    requires ValidRun(run) && ValidFeed(f)
    ensures AllEncodable(Batch(run, f))
  {
    hide Encodable, ValidControls, WithRedeliveries, ControlRecords, Draw, ProducedInOrder, AllEncodable;
    GoverningValid(f);
    var n, c := f.emitted + |f.staged|, Governing(f);
    ControlRecordsEncodable(run, f.tick, f.emitted, f.staged);
    DrawnAreProduced(run, f.tick, n, c, c.eventsPerTick);
    ProducedEncodable(run, TickEvents(run, f.tick, n, c), n, f.tick);
    RedeliveriesEncodable(run.duplicateEvery, TickEvents(run, f.tick, n, c));
    EncodableConcat(ControlRecords(run, f.tick, f.emitted, f.staged),
                    WithRedeliveries(run.duplicateEvery, TickEvents(run, f.tick, n, c)));
  }

  lemma EncodableConcat(a: seq<Event>, b: seq<Event>)
    requires AllEncodable(a) && AllEncodable(b)
    ensures AllEncodable(a + b)
  {
    hide Encodable;
  }

  lemma EncodableTail(rs: seq<Event>, k: nat, more: seq<Event>, j: nat)
    requires k <= |rs| && AllValid(rs[k..]) && AllEncodable(more) && j <= |more|
    ensures AllValid((rs + more[..j])[k..])
  {
    assert (rs + more[..j])[k..] == rs[k..] + more[..j];
    assert forall e :: e in more[..j] ==> e in more;
    hide Validate;
  }

  lemma OutOfAttempts(s: Sim, snap: Snapshot, attempt: nat, inject: bool, io: SaveIO)
    requires attempt > MAX_SAVE_ATTEMPTS
    ensures TrySave(s, snap, attempt, inject, io) == (s.(failures := s.failures + 1), false)
  {
  }

  class Simulation {
    const run: Run
    const snapshotEvery: nat
    const maxTicks: int
    const tickInterval: int
    const garden: Garden
    const prod: Producer
    const log: EventLog
    const proc: Processor

    var tick: int
    var controls: Controls
    var revision: nat
    var pending: seq<Staged>
    var published: nat
    var committed: nat
    var state: Lifecycle
    var saves: nat
    var retries: nat
    var failures: nat

    ghost predicate Valid()
      reads this, garden, garden.organisms, prod, log, proc
    {
      && proc.garden == garden && proc.Valid() && log.Valid() && prod.run == run
      && ValidRun(run) && ValidFeed(Feed())
      && AllValid(log.records[log.cursor..])
    }

    ghost function Feed(): Feed
      reads this, prod, log
    {
      Feeds.Feed(prod.emitted, tick, controls, revision, pending, published, log.records, log.cursor)
    }

    /** The whole simulation as a value. */
    ghost function View(): Sim
      reads this, garden, garden.organisms, prod, log, proc, proc.garden, proc.garden.organisms
    {
      Sim(run, snapshotEvery, maxTicks, tickInterval, Core(Feed(), proc.View()),
          log.marks, committed, state, saves, retries, failures)
    }

    /** A simulation at tick zero over whatever its log holds. */
    constructor AtTickZero(cfg: Setup, l: EventLog, g: Garden)
      requires ValidSetup(cfg) && l.Valid()
      requires g.Valid() && g.organisms[..] == FreshPlot(cfg.run.organisms)
      ensures fresh(prod) && fresh(proc) && log == l && garden == g
      ensures View() == NewSimOver(cfg, l.OnDisk(), l.cursor)
      ensures Valid() <==> AllValid(l.records[l.cursor..])
    {
      run := cfg.run;
      snapshotEvery := cfg.snapshotEvery;
      maxTicks := cfg.maxTicks;
      tickInterval := cfg.tickInterval;
      garden := g;
      prod := new Producer(cfg.run, 0);
      log := l;
      proc := new Processor(g);
      tick, controls, revision, pending, published := 0, cfg.controls, 0, [], 0;
      committed, state, saves, retries, failures := l.marks.committed, Unset, 0, 0, 0;
    }

    /** A simulation continuing from a rebuilt projection. */
    constructor Continue(rng: Generator, l: EventLog, g: Garden, rebuilt: Rebuilt)
      requires l.Valid() && l.cursor == |l.records| && g.Valid() && g.organisms[..] == rebuilt.garden
      requires rebuilt.snapshot.runID != "" && rebuilt.snapshot.organisms != []
      requires l.records != [] ==> Validate(l.records[|l.records| - 1]).None?
      ensures fresh(prod) && fresh(proc) && log == l && garden == g
      ensures View() == ResumedSim(rng, l.OnDisk(), rebuilt)
      ensures Valid() <==> ValidFeed(View().core.feed)
    {
      var st := rebuilt.snapshot;
      var r := Run(rng, st.runID, st.seed, |st.organisms|, st.duplicateEvery);
      run := r;
      snapshotEvery := 0;
      maxTicks := st.maxTicks;
      tickInterval := st.tickInterval;
      garden := g;
      prod := new Producer(r, if l.records == [] then 0 else l.records[|l.records| - 1].sequence);
      log := l;
      var p := new Processor(g);
      proc := p;
      tick, controls, revision, pending, published := st.tick, st.controls, st.revision, [], st.published;
      committed, state, saves, retries, failures := l.marks.committed, st.state, 0, 0, 0;
      new;
      p.Restore(st.counters);
    }

    method SetState(s: Lifecycle)
      requires Valid()
      modifies this`state
      ensures Valid() && View() == old(View()).(state := s)
    {
      state := s;
    }

    /** Accepts an update and numbers it, or refuses it; it takes effect at the next step. */
    method SetControls(c: Controls) returns (r: Result<nat, ControlDefect>)
      requires Valid()
      modifies this`revision, this`pending
      ensures Valid()
      ensures r.Success? <==> ValidControls(c)
      ensures View() == if ValidControls(c) then Staging(old(View()), c) else old(View())
      ensures r.Success? ==> r.value == revision
    {
      var defect := ValidateControls(c);
      if defect.Some? { return Failure(defect.value); }
      revision := revision + 1;
      pending := pending + [Staged(revision, c)];
      return Success(revision);
    }

    /** The control_changed records of the staged updates, which take force one after the other. */
    method StageRecords() returns (batch: seq<Event>)
      requires Valid()
      modifies this`controls, this`pending, prod
      ensures batch == ControlRecords(run, tick, old(prod.emitted), old(pending))
      ensures prod.emitted == old(prod.emitted) + |old(pending)|
      ensures controls == Governing(old(Feed())) && pending == []
    {
      batch := [];
      var i := 0;
      while i < |pending|
        invariant 0 <= i <= |pending| && pending == old(pending)
        invariant prod.emitted == old(prod.emitted) + i
        invariant batch == ControlRecords(run, tick, old(prod.emitted), pending[..i])
        invariant controls == if i == 0 then old(controls) else pending[i - 1].controls
      {
        var e := prod.ControlChangedEvent(tick, pending[i].revision);
        assert pending[..i + 1][..i] == pending[..i];
        batch := batch + [e];
        controls := pending[i].controls;
        i := i + 1;
      }
      assert pending[..i] == pending;
      pending := [];
    }

    method Redeliver(es: seq<Event>) returns (batch: seq<Event>)
      ensures batch == WithRedeliveries(run.duplicateEvery, es)
    {
      batch := [];
      var i := 0;
      while i < |es|
        invariant 0 <= i <= |es|
        invariant batch == WithRedeliveries(run.duplicateEvery, es[..i])
      {
        assert es[..i + 1][..i] == es[..i];
        var e := es[i];
        batch := batch + [e];
        EveryNthExactly(i + 1, run.duplicateEvery);
        if run.duplicateEvery > 0 && (i + 1) % run.duplicateEvery == 0 {
          batch := batch + [e.(attempt := e.attempt + 1)];
        }
        i := i + 1;
      }
      assert es[..i] == es;
    }

    /** Everything the coming tick appends; the producer and the controls move on. */
    method Produce() returns (batch: seq<Event>)
      requires Valid()
      modifies this`controls, this`pending, prod
      ensures batch == Batch(run, old(Feed()))
      ensures prod.emitted == old(prod.emitted) + |old(pending)| + controls.eventsPerTick
      ensures controls == Governing(old(Feed())) && pending == []
    {
      hide ValidControls, ControlRecords, WithRedeliveries, Draw, Governing;
      GoverningValid(Feed());
      var changes := StageRecords();
      var events := prod.Tick(tick, controls);
      assert events.Success?;
      var block := Redeliver(events.value);
      batch := changes + block;
    }

    /** Folds what capacity allows of the undelivered records. */
    method Deliver() returns (ok: bool)
      requires Valid()
      modifies log`cursor, proc, garden.organisms
      ensures ok && Valid()
      ensures log.cursor == ReadTo(old(log.cursor), |log.records|, Capacity(controls))
      ensures proc.View() == Fold(old(proc.View()), log.records[old(log.cursor)..log.cursor])
    {
      ghost var unread := log.records[log.cursor..];
      var es := log.UnprocessedUpTo(Capacity(controls));
      assert forall e :: e in es ==> e in unread;
      assert log.records[log.cursor..] == unread[|es|..];
      assert forall e :: e in log.records[log.cursor..] ==> e in unread;
      ok := proc.ProcessBatch(es);
    }

    /** The retry loop. */
    method TrySaving(snap: Snapshot, inject: bool, io: SaveIO) returns (ok: bool)
      requires Valid()
      modifies this`committed, this`retries, this`failures, log`marks
      ensures Valid()
      ensures (View(), ok) == TrySave(old(View()), snap, 1, inject, io)
    {
      hide ValidFeed, AllValid, WriteSnapshot, TrySave;
      var attempt := 1;
      while attempt <= MAX_SAVE_ATTEMPTS
        invariant 1 <= attempt <= MAX_SAVE_ATTEMPTS + 1
        invariant Valid() && TrySave(View(), snap, attempt, inject, io) == TrySave(old(View()), snap, 1, inject, io)
      {
        var done := Attempt(snap, attempt, inject, io);
        if done { return true; }
        attempt := attempt + 1;
      }
      OutOfAttempts(View(), snap, attempt, inject, io);
      failures := failures + 1;
      return false;
    }

    /** One attempt: it succeeds, or the remaining ones decide. */
    method Attempt(snap: Snapshot, attempt: nat, inject: bool, io: SaveIO) returns (done: bool)
      requires Valid() && 1 <= attempt <= MAX_SAVE_ATTEMPTS
      modifies this`committed, this`retries, log`marks
      ensures Valid()
      ensures TrySave(old(View()), snap, attempt, inject, io)
           == if done then (View(), true) else TrySave(View(), snap, attempt + 1, inject, io)
    {
      hide ValidFeed, AllValid, WriteSnapshot;
      if attempt > 1 { retries := retries + 1; }
      if inject && attempt == 1 { return false; }
      done := log.Save(snap, OutcomeOf(io, attempt));
      if done { committed := log.cursor; }
    }

    /** Writes a snapshot and commits, retrying a failed attempt, the first of which may be made to fail. */
    method Save(io: SaveIO) returns (ok: bool)
      requires Valid()
      modifies this`committed, this`saves, this`retries, this`failures, log`marks
      ensures Valid()
      ensures (View(), ok) == Snapshots.Save(old(View()), io)
    {
      hide TrySave, Injected, ValidFeed;
      var snap := Snapshot(SNAPSHOT_SCHEMA_VERSION, run.runID, run.seed, tick, revision, controls,
                           garden.organisms[..], proc.stats, published, state, maxTicks, tickInterval,
                           run.duplicateEvery);
      saves := saves + 1;
      ok := TrySaving(snap, Injected(saves, controls), io);
    }

    /** Puts the coming tick's block on the log. A failed write leaves the clock where it was. */
    method AppendTick(io: AppendOutcome) returns (ok: bool)
      requires Valid()
      modifies this`controls, this`pending, this`published, prod, log`records
      ensures Valid() && (ok <==> io.Appends?)
      ensures Feed() == if ok then Append(run, old(Feed())) else FailedAppend(run, old(Feed()), io.written)
    {
      ghost var f := Feed();
      GoverningValid(f);
      BatchEncodable(run, f);
      BatchAt(run, f);
      var batch := Produce();
      hide Batch, AllEncodable, AllAt, AllFirst, Governing, ValidControls;
      EncodableTail(log.records, log.cursor, batch, |batch|);
      EncodableTail(log.records, log.cursor, batch, if io.Appends? then 0 else Min(io.written, |batch|));
      assert batch[..|batch|] == batch;
      ok := log.Append(batch, io);
      if ok { published := published + |batch|; }
    }

    /** One tick: stage, produce, append, deliver, and snapshot when one is due. */
    method Step(io: StepIO) returns (ok: bool)
      requires Valid()
      modifies this, prod, log, proc, garden.organisms
      ensures Valid()
      ensures (View(), ok) == Snapshots.Step(old(View()), io)
    {
      ghost var before := View();
      hide Append, FailedAppend, Fold, Snapshots.Save;
      ok := AppendTick(io.append);
      if !ok { return false; }
      ok := Deliver();
      tick := tick + 1;
      assert View() == Ticked(before);
      EveryNthExactly(tick, snapshotEvery);
      if snapshotEvery > 0 && tick % snapshotEvery == 0 {
        ok := Save(io.save);
      }
    }
  }

  /** A simulation over a log, new or not, or null where the configuration is refused. It is ready to step when what
      the log has left to deliver is valid, as everything a log accepts is. */
  method NewSimulation(cfg: Setup, l: EventLog) returns (s: Simulation?)
    requires l.Valid()
    ensures s != null <==> ValidSetup(cfg)
    ensures s != null ==> fresh(s) && fresh(s.prod) && fresh(s.proc) && fresh(s.garden) && fresh(s.garden.organisms)
    ensures s != null ==> s.log == l && s.View() == NewSimOver(cfg, l.OnDisk(), l.cursor)
    ensures s != null ==> s.tick == 0 && s.revision == 0 && s.pending == [] && s.published == 0 && s.prod.emitted == 0
    ensures s != null ==> s.controls == cfg.controls && s.state == Unset && s.committed == l.marks.committed
    ensures s != null ==> s.saves == 0 && s.retries == 0 && s.failures == 0 && s.proc.applied == {}
    ensures s != null ==> (s.Valid() <==> AllValid(l.records[l.cursor..]))
  {
    if cfg.run.runID == "" || !ValidateControls(cfg.controls).None? { return null; }
    var g := NewGarden(cfg.run.organisms);
    if g == null { return null; }
    s := new Simulation.AtTickZero(cfg, l, g);
  }

  // ---- restarting ----

  method CountOrganisms(es: seq<Event>) returns (n: int)
    ensures n == OrganismCount(es)
  {
    var highest := 0;
    var i := 0;
    while i < |es|
      invariant 0 <= i <= |es|
      invariant highest == Highest(es[..i])
    {
      assert es[..i + 1][..i] == es[..i];
      if IsOrganismEvent(es[i]) {
        var n := Atoi(TrimPrefix(es[i].entityID, "org-"));
        if n.Some? && Succ64(n.value) > highest { highest := Succ64(n.value); }
      }
      i := i + 1;
    }
    assert es[..i] == es;
    n := if highest == 0 then 1 else highest;
  }

  /** Rebuilds a garden and the run's particulars from a log. */
  method RebuildGarden(l: EventLog) returns (g: Garden?, r: Result<Rebuilt, RestoreError>)
    ensures r == Rebuild(l.OnDisk())
    ensures r.Success? ==> g != null && fresh(g) && fresh(g.organisms) && g.Valid() && g.organisms[..] == r.value.garden
  {
    g := null;
    if l.marks.newest.None? {
      var n := CountOrganisms(l.records);
      var empty := NewGarden(n);
      var proc := new Processor(empty);
      var ok := proc.ProcessBatch(l.records);
      if !ok { return null, Failure(BadRecord); }
      return empty, Success(Rebuilt(empty.organisms[..], BLANK.(counters := proc.stats)));
    }
    var at, st := l.marks.newest.value.at, l.marks.newest.value.state;
    if at > |l.records| { return null, Failure(Stranded); }
    if st.schemaVersion != SNAPSHOT_SCHEMA_VERSION { return null, Failure(WrongSchema); }
    var restored := RestoreGarden(st.organisms);
    if restored == null { return null, Failure(BadGarden); }
    var proc := new Processor(restored);
    var ok := proc.ProcessBatch(l.records[at..]);
    if !ok { return null, Failure(BadRecord); }
    g := restored;
    r := Success(Rebuilt(restored.organisms[..], st.(
           tick := st.tick + TicksIn(l.records[at..]), published := st.published + |l.records[at..]|,
           counters := Merge(st.counters, proc.stats))));
  }

  /** The simulation a log's disk resumes to, or the error; the log's reader ends at its end. */
  method ResumeSimulation(rng: Generator, l: EventLog) returns (s: Simulation?, r: Result<Rebuilt, RestoreError>)
    requires l.Valid()
    modifies l`cursor
    ensures l.Valid()
    ensures s != null <==> Resume(rng, l.OnDisk()).Success?
    ensures s != null ==> fresh(s) && s.View() == Resume(rng, l.OnDisk()).value
                          && (s.Valid() <==> ValidFeed(s.View().core.feed))
    ensures s == null ==> r.Failure? && r.error == Resume(rng, l.OnDisk()).error
  {
    var g;
    g, r := RebuildGarden(l);
    if r.Failure? { return null, r; }
    l.MarkFolded();
    if r.value.snapshot.runID == "" { return null, Failure(NoRunState); }
    var last := l.Last();
    if last.Some? && Validate(last.value).Some? { return null, Failure(BadRecord); }
    s := new Simulation.Continue(rng, l, g, r.value);
  }
}
