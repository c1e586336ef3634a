/** What the counters of a run account for, in every state it can reach: each record once, and each change of the garden
    out of a finite potential, even where a restart applied an event twice. */
module Budget {
  import opened Gardens
  import opened Processing
  import opened Production
  import opened Feeds
  import opened Snapshots
  import opened Absorption
  import opened World

  /** The marks' newest snapshot is within the budget. */
  predicate BudgetedMarks(n: nat, m: Marks) {
    m.newest.Some? ==> Budgeted(n, Starting(m.newest.value.state.organisms, m.newest.value.state.counters))
  }

  predicate BudgetedProcess(n: nat, p: Process) {
    match p
    case Up(s, _, _) => Budgeted(n, s.core.proj) && BudgetedMarks(n, s.marks)
    case Down(d, _) => BudgetedMarks(n, d.marks)
  }

  /** What a processor remembers does not matter. */
  lemma BudgetedAlike(n: nat, p: Projection, q: Projection)
    requires Budgeted(n, p) && p.garden == q.garden && p.counters == q.counters
    ensures Budgeted(n, q)
  {
    hide AllBounded, Conserved, TotalPotential;
  }

  lemma TickedBudgeted(s: Sim, n: nat)
    requires ValidSim(s) && Budgeted(n, s.core.proj)
    ensures Budgeted(n, Ticked(s).core.proj)
  {
    hide Budgeted, StepFeed, Fold;
    var f, r := s.core.feed, StepFeed(s.run, s.core.feed);
    BudgetedOn(n, s.core.proj, r.records[f.cursor..r.cursor]);
  }

  lemma WrittenBudgeted(s: Sim, n: nat, m: Marks)
    requires Budgeted(n, s.core.proj) && BudgetedMarks(n, s.marks) && WrittenBy(s, m)
    ensures BudgetedMarks(n, m)
  {
    hide Budgeted;
    BudgetedAlike(n, s.core.proj, Starting(s.core.proj.garden, s.core.proj.counters));
  }

  lemma OperateBudgeted(n: nat, p: Process, op: Op)
    requires Allowed(p, op) && BudgetedProcess(n, p)
    ensures BudgetedProcess(n, Operate(p, op))
  {
    hide Budgeted, BudgetedMarks, ValidSim, WrittenBy;
    var s := p.sim;
    match op
    case StageControls(c) =>
    case Tick(io) =>
      StepIs(s, io);
      match io.append {
        case AppendFails(written) =>
        case Appends =>
          TickedBudgeted(s, n);
          TickedMarks(s);
          WrittenBudgeted(Ticked(s), n, Step(s, io).0.marks);
      }
      hide Step, Ticked, FailedAppend;
    case SaveAs(state, io) =>
      SaveIs(InState(s, state), io);
      WrittenBudgeted(InState(s, state), n, Save(InState(s, state), io).0.marks);
      hide Save;
  }

  lemma TickedMarks(s: Sim)
    requires ValidSim(s)
    ensures Ticked(s).marks == s.marks
  {
    hide StepCore;
  }

  lemma CrashBudgeted(n: nat, p: Process, op: Op, i: nat)
    requires Allowed(p, op) && BudgetedProcess(n, p) && i < |CrashPoints(p, op)|
    ensures BudgetedMarks(n, CrashPoints(p, op)[i].marks)
  {
    hide Budgeted, BudgetedMarks, ValidSim, WrittenBy, TickDisks, SaveDisks, Batch;
    var s := p.sim;
    match op
    case StageControls(_) =>
    case Tick(io) =>
      TickDisksAre(s, io, i);
      TickedBudgeted(s, n);
      TickedMarks(s);
      hide Ticked;
      if WrittenBy(Ticked(s), TickDisks(s, io)[i].marks) { WrittenBudgeted(Ticked(s), n, TickDisks(s, io)[i].marks); }
    case SaveAs(state, io) =>
      SaveDisksAre(InState(s, state), io, i);
      WrittenBudgeted(InState(s, state), n, SaveDisks(InState(s, state), io)[i].marks);
  }

  /** A restart goes on from the snapshot's budget, whatever its tail repeats. */
  lemma ResumedBudgeted(n: nat, rng: Generator, d: Disk)
    requires Resume(rng, d).Success? && BudgetedMarks(n, d.marks)
    ensures Budgeted(n, Resume(rng, d).value.core.proj) && Resume(rng, d).value.marks == d.marks
  {
    ResumeNeedsSnapshot(rng, d);
    hide Budgeted, Fold, Merge, TicksIn, Replay, Indexed, AllValid;
    var sv := d.marks.newest.value;
    var start, tail := Starting(sv.state.organisms, sv.state.counters), d.records[sv.at..];
    FoldWithForgottenKeys(start, tail);
    BudgetedOn(n, start, tail);
    BudgetedAlike(n, Fold(start, tail), Resume(rng, d).value.core.proj);
  }

  lemma NextBudgeted(n: nat, rng: Generator, p: Process, a: Action)
    requires BudgetedProcess(n, p)
    ensures BudgetedProcess(n, Next(rng, p, a))
  {
    hide Budgeted, BudgetedMarks, Operate, CrashPoints, Resume, ValidSim;
    match a
    case Do(op) => if Allowed(p, op) { OperateBudgeted(n, p, op); }
    case CrashDuring(op, point) =>
      if Allowed(p, op) && point < |CrashPoints(p, op)| { CrashBudgeted(n, p, op, point); }
    case Recover =>
      if p.Down? && Resume(rng, p.disk).Success? { ResumedBudgeted(n, rng, p.disk); }
  }

  lemma {:induction false} ExecBudgeted(cfg: Setup, actions: seq<Action>)
    ensures BudgetedProcess(cfg.run.organisms, Exec(cfg.run.rng, Launch(cfg), actions))
  {
    hide Next, BudgetedProcess, Launch;
    if actions == [] {
      LaunchBudgeted(cfg);
    } else {
      var k := |actions| - 1;
      ExecBudgeted(cfg, actions[..k]);
      NextBudgeted(cfg.run.organisms, cfg.run.rng, Exec(cfg.run.rng, Launch(cfg), actions[..k]), actions[k]);
    }
  }

  lemma LaunchBudgeted(cfg: Setup)
    ensures BudgetedProcess(cfg.run.organisms, Launch(cfg))
  {
    hide Budgeted, FreshPlot;
    BudgetedFresh(cfg.run.organisms);
  }

  /** Both conservation laws, and the bound on what a garden can absorb. */
  predicate AddsUp(organisms: nat, garden: Plot, c: Counters) {
    && c.received == c.applied + c.noEffect + c.duplicates + c.rejected + c.unknownEntity
    && ByTypeTotal(c.byType) == c.received - c.duplicates - c.rejected
    && c.applied + TotalPotential(garden) <= 305 * organisms && c.applied <= 305 * organisms
  }

  lemma BudgetAddsUp(organisms: nat, p: Projection)
    requires Budgeted(organisms, p)
    ensures AddsUp(organisms, p.garden, p.counters)
  {
    PotentialIsNatural(p.garden);
    hide TotalPotential, ByTypeTotal;
  }

  /** In every reachable state, split restarts included, the counters of process and newest snapshot add up, and what
      they count as applied was paid for: with the garden's remaining potential it never exceeds 305 an organism. */
  lemma EveryReachableStateIsBudgeted(cfg: Setup, actions: seq<Action>)
    ensures var p := Exec(cfg.run.rng, Launch(cfg), actions);
            && (p.Up? ==> AddsUp(cfg.run.organisms, p.sim.core.proj.garden, p.sim.core.proj.counters))
            && (DiskNow(p).marks.newest.Some? ==>
                  var st := DiskNow(p).marks.newest.value.state; AddsUp(cfg.run.organisms, st.organisms, st.counters))
  {
    ExecBudgeted(cfg, actions);
    var p := Exec(cfg.run.rng, Launch(cfg), actions);
    hide Exec, Budgeted, AddsUp;
    if p.Up? { BudgetAddsUp(cfg.run.organisms, p.sim.core.proj); }
    if DiskNow(p).marks.newest.Some? {
      var st := DiskNow(p).marks.newest.value.state;
      BudgetAddsUp(cfg.run.organisms, Starting(st.organisms, st.counters));
    }
  }
}
