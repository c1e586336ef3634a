/** When snapshots are taken and what a save costs, in remainders and counts. */
module Cadence {
  import opened ControlRules
  import opened Production
  import opened Feeds
  import opened Snapshots
  import opened World
  import opened Engine
  import opened BatchRefinement
  import opened Lifecycles

  // ---- one save ----

  /** The disk lets both writes of this attempt through; attempts nobody spoke of succeed. */
  predicate Works(io: SaveIO, attempt: nat) {
    attempt >= 1 && (attempt > |io| || io[attempt - 1].Saves?)
  }

  /** The save about to be made, counting from one, is a multiple of the configured failure count. */
  predicate FailsFirst(s: Sim) {
    var every := s.core.feed.controls.failSnapshotEvery;
    every > 0 && (s.saves + 1) % every == 0
  }

  /** A save makes three attempts at most, the first in vain exactly when this save's number is a multiple of the
      failure count. It takes as many retries as attempts before the first that works, or two. It fails exactly when
      none works, and only then commit and cached commit stay. */
  lemma SaveLaw(s: Sim, io: SaveIO)
    ensures var r := Save(s, io);
            var first := !FailsFirst(s) && Works(io, 1);
            && r.1 == (first || Works(io, 2) || Works(io, 3))
            && r.0.saves == s.saves + 1
            && r.0.retries == s.retries + (if first then 0 else if Works(io, 2) then 1 else 2)
            && r.0.failures == s.failures + (if r.1 then 0 else 1)
            && r.0.committedSeen == (if r.1 then s.core.feed.cursor else s.committedSeen)
            && r.0.marks.committed == (if r.1 then s.core.feed.cursor else s.marks.committed)
  {
    hide Injected, SnapshotOf, EveryNth, FailsFirst, TrySave, Works;
    var counted, state := s.(saves := s.saves + 1), SnapshotOf(s);
    var inject := Injected(counted.saves, s.core.feed.controls);
    InjectedExactly(s);
    FromFirst(counted, state, inject, io);
  }

  lemma InjectedExactly(s: Sim)
    ensures Injected(s.saves + 1, s.core.feed.controls) <==> FailsFirst(s)
  {
    var every := s.core.feed.controls.failSnapshotEvery;
    if every > 0 { EveryNthExactly(s.saves + 1, every); }
    hide EveryNth;
  }

  lemma NoAttemptsLeft(s: Sim, state: Snapshot, inject: bool, io: SaveIO)
    ensures TrySave(s, state, 4, inject, io) == (s.(failures := s.failures + 1), false)
  {
  }

  lemma FromThird(s: Sim, state: Snapshot, inject: bool, io: SaveIO)
    ensures var r := TrySave(s, state, 3, inject, io);
            && r.1 == Works(io, 3) && r.0.retries == s.retries + 1 && r.0.saves == s.saves
            && r.0.failures == s.failures + (if r.1 then 0 else 1)
            && r.0.committedSeen == (if r.1 then s.core.feed.cursor else s.committedSeen)
            && r.0.marks.committed == (if r.1 then s.core.feed.cursor else s.marks.committed)
  {
    var t := s.(retries := s.retries + 1);
    NoAttemptsLeft(t, state, inject, io);
    NoAttemptsLeft(t.(marks := WriteSnapshot(s.marks, s.core.feed.cursor, state)), state, inject, io);
  }

  lemma FromSecond(s: Sim, state: Snapshot, inject: bool, io: SaveIO)
    ensures var r := TrySave(s, state, 2, inject, io);
            && r.1 == (Works(io, 2) || Works(io, 3)) && r.0.saves == s.saves
            && r.0.retries == s.retries + (if Works(io, 2) then 1 else 2)
            && r.0.failures == s.failures + (if r.1 then 0 else 1)
            && r.0.committedSeen == (if r.1 then s.core.feed.cursor else s.committedSeen)
            && r.0.marks.committed == (if r.1 then s.core.feed.cursor else s.marks.committed)
  {
    var t := s.(retries := s.retries + 1);
    FromThird(t, state, inject, io);
    FromThird(t.(marks := WriteSnapshot(s.marks, s.core.feed.cursor, state)), state, inject, io);
  }

  lemma FromFirst(s: Sim, state: Snapshot, inject: bool, io: SaveIO)
    ensures var r := TrySave(s, state, 1, inject, io);
            var first := !inject && Works(io, 1);
            && r.1 == (first || Works(io, 2) || Works(io, 3)) && r.0.saves == s.saves
            && r.0.retries == s.retries + (if first then 0 else if Works(io, 2) then 1 else 2)
            && r.0.failures == s.failures + (if r.1 then 0 else 1)
            && r.0.committedSeen == (if r.1 then s.core.feed.cursor else s.committedSeen)
            && r.0.marks.committed == (if r.1 then s.core.feed.cursor else s.marks.committed)
  {
    FromSecond(s, state, inject, io);
    FromSecond(s.(marks := WriteSnapshot(s.marks, s.core.feed.cursor, state)), state, inject, io);
  }

  // ---- one step ----

  /** The tick after this one is a multiple of the cadence. */
  predicate DueAfter(s: Sim) {
    s.snapshotEvery > 0 && (s.core.feed.tick + 1) % s.snapshotEvery == 0
  }

  lemma DueExactly(s: Sim)
    requires ValidSim(s)
    ensures Ticked(s).core.feed.tick == s.core.feed.tick + 1 && SnapshotDue(Ticked(s)) <==> DueAfter(s)
    ensures Ticked(s).core.feed.tick == s.core.feed.tick + 1
  {
    StepTicks(s.run, s.core);
    EveryNthExactly(s.core.feed.tick + 1, s.snapshotEvery);
    hide StepCore, EveryNth;
  }

  /** A step succeeds exactly when its append goes through and no snapshot is due or the save works; it saves exactly
      when one is due; and marks and counts stay when none is. */
  lemma StepLaw(s: Sim, io: StepIO)
    requires ValidSim(s)
    ensures var r := Step(s, io);
            && (r.1 <==> io.append.Appends? && (!DueAfter(s) || Save(Ticked(s), io.save).1))
            && r.0.saves == s.saves + (if io.append.Appends? && DueAfter(s) then 1 else 0)
            && (io.append.AppendFails? || !DueAfter(s) ==>
                  r.0.marks == s.marks && r.0.retries == s.retries && r.0.failures == s.failures)
  {
    DueExactly(s);
    SaveLaw(Ticked(s), io.save);
    hide Save, StepCore, FailedAppend, SnapshotDue, Works;
  }

  /** A failed append leaves the producer, the controls and the staged updates as the tick would have, the log with
      some of the tick's records, and clock, cursor, published count, garden and counters as they were. */
  lemma FailedStepLaw(s: Sim, written: nat, save: SaveIO)
    requires ValidSim(s)
    ensures var bad, good := Step(s, StepIO(AppendFails(written), save)).0.core, Step(s, CLEAN).0.core;
            var f, b, g := s.core.feed, bad.feed, good.feed;
            && b.emitted == g.emitted && b.controls == g.controls
            && b.staged == [] == g.staged && b.revision == g.revision
            && f.records <= b.records <= g.records
            && (var whole := |g.records| - |f.records|;
                |b.records| == |f.records| + if written < whole then written else whole)
            && b.tick == f.tick && b.cursor == f.cursor && b.published == f.published && bad.proj == s.core.proj
  {
    StepIs(s, CLEAN);
    StepIs(s, StepIO(AppendFails(written), save));
    hide Step, Batch, ValidControls, WrittenBy;
  }

  // ---- the cadence of a run ----

  /** The newest snapshot was taken at the last multiple of the cadence; before the first one there need be none. */
  predicate OnCadence(s: Sim) {
    var n, k := s.snapshotEvery, s.core.feed.tick;
    && k >= 0
    && (s.marks.newest.Some? ==> s.marks.newest.value.at <= s.core.feed.cursor)
    && (n > 0 ==>
          && (s.marks.newest.None? ==> k < n)
          && (s.marks.newest.Some? ==> s.marks.newest.value.state.tick == k - k % n))
  }

  lemma NextRemainder(k: nat, n: nat)
    requires n > 0
    ensures (k + 1) % n == if k % n == n - 1 then 0 else k % n + 1
    ensures k < n ==> k % n == k
  {
    var q, r := k / n, k % n;
    assert k == n * q + r;
    if r == n - 1 {
      assert k + 1 == n * (q + 1) + 0;
      RemainderIs(k + 1, n, q + 1, 0);
    } else {
      RemainderIs(k + 1, n, q, r + 1);
    }
    if k < n { RemainderIs(k, n, 0, k); }
  }

  /** On a healthy disk a tick keeps the run on its cadence, and with none moves no mark. */
  lemma CleanTickOnCadence(s: Sim)
    requires ValidSim(s) && OnCadence(s)
    ensures var r := Step(s, CLEAN).0;
            && ValidSim(r) && OnCadence(r) && r.core.feed.tick == s.core.feed.tick + 1
            && r.snapshotEvery == s.snapshotEvery && (s.snapshotEvery == 0 ==> r.marks == s.marks)
  {
    hide Step, ValidSim, DueAfter, OnCadence;
    StepValid(s, CLEAN);
    if DueAfter(s) { DueTick(s); } else { IdleTick(s); }
  }

  lemma DueTick(s: Sim)
    requires ValidSim(s) && OnCadence(s) && DueAfter(s)
    ensures var r := Step(s, CLEAN).0;
            && OnCadence(r) && r.core.feed.tick == s.core.feed.tick + 1 && r.snapshotEvery == s.snapshotEvery > 0
  {
    hide Save, StepCore, ValidFeed, SnapshotDue, Batch, ValidControls, Ticked;
    DueExactly(s);
    CursorMoves(s);
    SaveOnDisk(Ticked(s));
  }

  lemma IdleTick(s: Sim)
    requires ValidSim(s) && OnCadence(s) && !DueAfter(s)
    ensures var r := Step(s, CLEAN).0;
            && OnCadence(r) && r.core.feed.tick == s.core.feed.tick + 1 && r.snapshotEvery == s.snapshotEvery
            && r.marks == s.marks
  {
    hide Save, StepCore, ValidFeed, SnapshotDue, Batch, ValidControls, Ticked;
    DueExactly(s);
    CursorMoves(s);
    if s.snapshotEvery > 0 { NextRemainder(s.core.feed.tick, s.snapshotEvery); }
  }

  lemma CursorMoves(s: Sim)
    requires ValidSim(s)
    ensures Ticked(s).core.feed.cursor >= s.core.feed.cursor && Ticked(s).marks == s.marks
    ensures Ticked(s).snapshotEvery == s.snapshotEvery
  {
    hide Batch;
  }

  /** Updates and ticks, every write of which goes through. */
  predicate CleanActions(actions: seq<Action>) {
    forall i | 0 <= i < |actions| ::
      actions[i].Do? && (actions[i].op.StageControls? || actions[i].op == Tick(CLEAN))
  }

  function TicksOf(actions: seq<Action>): nat {
    if actions == [] then 0
    else
      var a := actions[|actions| - 1];
      TicksOf(actions[..|actions| - 1]) + if a.Do? && a.op.Tick? then 1 else 0
  }

  lemma {:induction false} CleanRunOnCadence(cfg: Setup, actions: seq<Action>)
    requires ValidSetup(cfg) && CleanActions(actions)
    ensures var p := Exec(cfg.run.rng, Launch(cfg), actions);
            && p.Up? && !p.failed && ValidSim(p.sim) && OnCadence(p.sim) && p.sim.snapshotEvery == cfg.snapshotEvery
            && p.sim.core.feed.tick == TicksOf(actions)
            && (cfg.snapshotEvery == 0 ==> p.sim.marks == NO_MARKS)
            && (TicksOf(actions) < cfg.snapshotEvery ==> p.sim.marks.newest.None?)
  {
    if actions != [] {
      var k := |actions| - 1;
      CleanRunOnCadence(cfg, actions[..k]);
      var p := Exec(cfg.run.rng, Launch(cfg), actions[..k]);
      assert actions[k].Do?;
      hide Exec, OnCadence, ValidSim;
      CleanOperation(cfg.run.rng, p, actions[k].op);
      if actions[k].op.Tick? { NotYetDue(p.sim); }
    }
  }

  lemma CleanOperation(rng: Generator, p: Process, op: Op)
    requires p.Up? && !p.failed && ValidSim(p.sim) && OnCadence(p.sim)
    requires op.StageControls? || op == Tick(CLEAN)
    ensures var r := Next(rng, p, Do(op));
            && r.Up? && !r.failed && ValidSim(r.sim) && OnCadence(r.sim) && r.sim.snapshotEvery == p.sim.snapshotEvery
            && (op == Tick(CLEAN) ==> r.sim == Step(p.sim, CLEAN).0 && r.sim.core.feed.tick == p.sim.core.feed.tick + 1)
            && (op.StageControls? ==> r.sim.marks == p.sim.marks && r.sim.core.feed.tick == p.sim.core.feed.tick)
            && (p.sim.snapshotEvery == 0 ==> r.sim.marks == p.sim.marks)
  {
    if op == Tick(CLEAN) { CleanTickOnCadence(p.sim); }
    hide Step, ValidControls;
  }

  lemma NotYetDue(s: Sim)
    requires ValidSim(s)
    ensures s.core.feed.tick + 1 < s.snapshotEvery ==> Step(s, CLEAN).0.marks == s.marks
  {
    hide Step, Save, StepCore, Batch, ValidControls, Works, FailsFirst;
    StepLaw(s, CLEAN);
    var k := s.core.feed.tick + 1;
    if k < s.snapshotEvery { RemainderIs(k, s.snapshotEvery, 0, k); }
  }

  /** A fresh run on a healthy disk, whatever updates it accepts: after k ticks at cadence n its newest snapshot is that
      of tick k - k % n, once k has reached n; before that there is none; and without a cadence there never is. */
  lemma CadenceLaw(cfg: Setup, actions: seq<Action>)
    requires ValidSetup(cfg) && CleanActions(actions)
    ensures var p, n, k := Exec(cfg.run.rng, Launch(cfg), actions), cfg.snapshotEvery, TicksOf(actions);
            && p.Up? && p.sim.core.feed.tick == k
            && (n == 0 || k < n ==> p.sim.marks.newest.None?)
            && (n > 0 && k >= n ==>
                  p.sim.marks.newest.Some? && p.sim.marks.newest.value.state.tick == k - k % n)
  {
    CleanRunOnCadence(cfg, actions);
    hide Exec, ValidSim;
  }

  /** A started run has a snapshot from the first: after k clean ticks it is that of tick k - k % n, and without a
      cadence that of tick zero. */
  lemma {:induction false} StartedCadenceLaw(cfg: Setup, k: nat)
    requires ValidSetup(cfg) && cfg.maxTicks <= 0
    ensures ValidLive(Started(cfg))
    ensures var now, n := ObeyAll(Started(cfg), Clock(k)), cfg.snapshotEvery;
            && now.state == Running && !now.stopped && now.sim.core.feed.tick == k
            && now.sim.maxTicks == cfg.maxTicks && now.sim.snapshotEvery == n && OnCadence(now.sim)
            && now.sim.marks.newest.Some?
            && now.sim.marks.newest.value.state.tick == if n > 0 then k - k % n else 0
  {
    hide Started, ObeyAll, Clock, OnCadence, ValidSim, WellLinked, Obey;
    StartedValid(cfg);
    ClockIs(Started(cfg), k);
    if k == 0 {
      StartedAtTickZero(cfg);
      StartedPace(cfg);
      if cfg.snapshotEvery > 0 { NextRemainder(0, cfg.snapshotEvery); }
    } else {
      StartedCadenceLaw(cfg, k - 1);
      CadenceTick(ObeyAll(Started(cfg), Clock(k - 1)));
    }
  }

  lemma StartedPace(cfg: Setup)
    requires ValidSetup(cfg)
    ensures var s := Started(cfg).sim;
            && s.snapshotEvery == cfg.snapshotEvery && !Started(cfg).stopped && OnCadence(s)
            && s.marks.newest.Some? && s.marks.newest.value.state.tick == 0
  {
    SaveOnDisk(NewSim(cfg, NO_MARKS).(state := Running));
    if cfg.snapshotEvery > 0 { NextRemainder(0, cfg.snapshotEvery); }
    hide Save;
  }

  lemma CadenceTick(l: Live)
    requires ValidLive(l) && l.state == Running && !l.stopped && l.sim.maxTicks <= 0
    requires OnCadence(l.sim) && l.sim.marks.newest.Some?
    ensures var r, n := Obey(l, TickClock(CLEAN, [])), l.sim.snapshotEvery;
            && r.state == Running && !r.stopped && r.sim.core.feed.tick == l.sim.core.feed.tick + 1
            && r.sim.maxTicks == l.sim.maxTicks && r.sim.snapshotEvery == n && OnCadence(r.sim)
            && r.sim.marks.newest.Some?
            && var k := r.sim.core.feed.tick;
               r.sim.marks.newest.value.state.tick == if n > 0 then k - k % n else l.sim.marks.newest.value.state.tick
  {
    CleanStepSucceeds(l.sim);
    AdvanceIs(l, CLEAN, []);
    AdvanceKeepsLooping(l, CLEAN, []);
    CleanTickOnCadence(l.sim);
    StepValid(l.sim, CLEAN);
    NewestStays(l.sim);
    hide Advance, Step, SaveLive, ValidSim;
  }

  lemma NewestStays(s: Sim)
    requires ValidSim(s) && s.marks.newest.Some?
    ensures Step(s, CLEAN).0.marks.newest.Some?
  {
    StepIs(s, CLEAN);
    hide Step, Ticked, WrittenBy;
    CursorMoves(s);
    SomeWritten(Ticked(s), Step(s, CLEAN).0.marks);
  }

  lemma SomeWritten(s: Sim, m: Marks)
    requires s.marks.newest.Some? && WrittenBy(s, m)
    ensures m.newest.Some?
  {
  }
}
