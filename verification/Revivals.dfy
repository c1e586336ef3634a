/** Live runs that are stopped and revived: as long as every revival finds the run as its snapshot describes it, the
    run is still the batch of its receipts. */
module Revivals {
  import opened ControlRules
  import opened Production
  import opened Feeds
  import opened Snapshots
  import opened World
  import opened Soundness
  import opened Restart
  import opened Engine
  import opened BatchRefinement
  import opened Lifecycles

  /** A command, or the end of the process and a recovery from its disk. */
  datatype LifeTurn = Obeyed(cmd: Command) | Revival

  /** The process is gone; what recovery makes of its disk goes on with the receipts given out so far. A run that is
      skipped or cannot be recovered stays as it was. */
  function Revive(t: Trace): Trace
    requires ValidLive(t.live)
  {
    var r := RecoverOne(t.live.sim.run.rng, DiskOf(t.live.sim));
    if r.Revived? && ValidLive(r.live) then t.(live := r.live) else t
  }

  function TakeLifeTurn(t: Trace, turn: LifeTurn): Trace
    requires ValidLive(t.live)
  {
    match turn
    case Obeyed(cmd) => Follow(t, cmd)
    case Revival => Revive(t)
  }

  lemma TurnValid(t: Trace, turn: LifeTurn)
    requires ValidLive(t.live)
    ensures ValidLive(TakeLifeTurn(t, turn).live)
  {
    hide Obey, RecoverOne;
    if turn.Obeyed? { ObeyValid(t.live, turn.cmd); }
  }

  /** A run from its start through commands and revivals. */
  function LifeTrace(cfg: Setup, turns: seq<LifeTurn>): (t: Trace)
    requires ValidSetup(cfg)
    ensures ValidLive(t.live)
  {
    StartedValid(cfg);
    if turns == [] then Trace(Started(cfg), [])
    else
      var before, turn := LifeTrace(cfg, turns[..|turns| - 1]), turns[|turns| - 1];
      TurnValid(before, turn);
      TakeLifeTurn(before, turn)
  }

  /** Appends go through, and a revival finds a run that is not over and a snapshot that describes it as it is. */
  predicate SmoothLife(l: Live, turn: LifeTurn) {
    match turn
    case Obeyed(cmd) => AppendsWork(cmd)
    case Revival => l.state != Finished && l.sim.marks.newest.Some? && UpToDate(l.sim, l.sim.marks.newest.value)
  }

  predicate AllSmooth(cfg: Setup, turns: seq<LifeTurn>)
    requires ValidSetup(cfg)
  {
    turns == [] ||
    var k := |turns| - 1;
    AllSmooth(cfg, turns[..k]) && SmoothLife(LifeTrace(cfg, turns[..k]).live, turns[k])
  }

  // ---- the batch beside the run ----

  /** The batch of some receipts as a simulation of its own. */
  function BatchSim(cfg: Setup, c: Core): Sim {
    NewSim(cfg, NO_MARKS).(core := c)
  }

  /** The live run is sound and shows what the batch of its receipts shows. */
  ghost predicate Follows(cfg: Setup, t: Trace, c: Core) {
    && ValidLive(t.live) && Mirrors(cfg.run, cfg.controls, c, t.receipts)
    && (exists past: Past :: LiveSound(t.live, past))
    && SoundSim(BatchSim(cfg, c), false, UNBROKEN)
    && SameView(t.live.sim, BatchSim(cfg, c))
  }

  lemma FollowsTick(cfg: Setup, t: Trace, cmd: Command, c: Core)
    requires Follows(cfg, t, c) && cmd.TickClock? && AppendsWork(cmd) && !t.live.stopped && t.live.state == Running
    ensures ValidFeed(c.feed) && Follows(cfg, Follow(t, cmd), StepCore(cfg.run, c))
  {
    hide SoundSim, Obey, StepCore, ValidFeed, Mirrors;
    var past: Past :| LiveSound(t.live, past);
    SoundIsValid(BatchSim(cfg, c), UNBROKEN);
    ObeyCore(t.live, cmd);
    ObeyKeepsSound(t.live, cmd, past);
    ObeyValid(t.live, cmd);
    TickTogether(t.live.sim, BatchSim(cfg, c), (past, UNBROKEN));
    TickedSound(BatchSim(cfg, c), UNBROKEN);
    StepMirrors(cfg.run, cfg.controls, c, t.receipts);
  }

  lemma FollowsUpdate(cfg: Setup, t: Trace, cmd: Command, c: Core)
    requires Follows(cfg, t, c) && Accepts(t.live, cmd)
    ensures Follows(cfg, Follow(t, cmd), c.(feed := Stage(c.feed, cmd.controls)))
  {
    hide SoundSim, Obey, ValidFeed, Mirrors, ValidControls;
    var past: Past :| LiveSound(t.live, past);
    ObeyCore(t.live, cmd);
    ObeyKeepsSound(t.live, cmd, past);
    ObeyValid(t.live, cmd);
    StagedSound(BatchSim(cfg, c), false, UNBROKEN, cmd.controls);
    UpdateMirrors(cfg.run, cfg.controls, c, t.receipts, cmd.controls);
  }

  lemma FollowsOther(cfg: Setup, t: Trace, cmd: Command, c: Core)
    requires Follows(cfg, t, c) && AppendsWork(cmd) && !Accepts(t.live, cmd)
    requires !(cmd.TickClock? && !t.live.stopped && t.live.state == Running)
    ensures Follows(cfg, Follow(t, cmd), c)
  {
    hide SoundSim, Obey, ValidFeed, Mirrors, StepCore;
    var past: Past :| LiveSound(t.live, past);
    ObeyCore(t.live, cmd);
    ObeyKeepsSound(t.live, cmd, past);
    ObeyValid(t.live, cmd);
  }

  lemma FollowsRevival(cfg: Setup, t: Trace, c: Core)
    requires Follows(cfg, t, c) && SmoothLife(t.live, Revival)
    ensures Follows(cfg, Revive(t), c)
  {
    hide SoundSim, ValidFeed, Mirrors, UpToDate, RecoverOne;
    var past: Past :| LiveSound(t.live, past);
    RevivedView(t.live, past);
    var r := RecoverOne(t.live.sim.run.rng, DiskOf(t.live.sim));
    if r.Revived? { assert LiveSound(r.live, RestartedFrom(past, DiskOf(t.live.sim))); }
    hide LiveSound, DiskOf, RestartedFrom;
  }

  lemma RevivedView(l: Live, past: Past)
    requires ValidLive(l) && LiveSound(l, past) && SmoothLife(l, Revival)
    ensures var r, after := RecoverOne(l.sim.run.rng, DiskOf(l.sim)), RestartedFrom(past, DiskOf(l.sim));
            r.Revived? ==> ValidLive(r.live) && LiveSound(r.live, after) && SameView(r.live.sim, l.sim)
  {
    hide SoundSim, ValidFeed, UpToDate, RecoverOne, Resume, Recoverable, RestartedFrom;
    var d := DiskOf(l.sim);
    RestartRestoresExactly(l.sim, past);
    DiskSound(l.sim, false, past);
    RevivedSound(l.sim.run, d, past);
    if RecoverOne(l.sim.run.rng, d).Revived? { RevivedFrom(l.sim.run.rng, d); }
  }

  lemma RevivedFrom(rng: Generator, d: Disk)
    requires RecoverOne(rng, d).Revived?
    ensures Resume(rng, d).Success?
    ensures var l, r := RecoverOne(rng, d).live, Resume(rng, d).value; l.sim.core == r.core && l.sim.run == r.run
  {
    hide Resume;
  }

  lemma {:induction false} LifeFollows(cfg: Setup, turns: seq<LifeTurn>) returns (c: Core)
    requires ValidSetup(cfg) && AllSmooth(cfg, turns)
    ensures Follows(cfg, LifeTrace(cfg, turns), c)
  {
    hide Follows, LifeTrace, SmoothLife;
    LifeNext(cfg, turns);
    if turns == [] {
      c := LifeBegins(cfg);
    } else {
      var k := |turns| - 1;
      c := LifeFollows(cfg, turns[..k]);
      c := TurnFollows(cfg, LifeTrace(cfg, turns[..k]), turns[k], c);
    }
  }

  lemma LifeNext(cfg: Setup, turns: seq<LifeTurn>)
    requires ValidSetup(cfg)
    ensures turns == [] ==> LifeTrace(cfg, turns) == LifeTrace(cfg, [])
    ensures turns != [] ==>
              var k := |turns| - 1;
              LifeTrace(cfg, turns) == TakeLifeTurn(LifeTrace(cfg, turns[..k]), turns[k])
  {
    hide Follow, Revive;
  }

  lemma TurnFollows(cfg: Setup, t: Trace, turn: LifeTurn, c: Core) returns (next: Core)
    requires Follows(cfg, t, c) && SmoothLife(t.live, turn)
    ensures Follows(cfg, TakeLifeTurn(t, turn), next)
  {
    FollowsParts(cfg, t, c);
    hide Follows, Follow, Revive, StepCore, UpToDate;
    match turn {
      case Revival =>
        next := c;
        FollowsRevival(cfg, t, c);
      case Obeyed(cmd) =>
        if cmd.TickClock? && !t.live.stopped && t.live.state == Running {
          FollowsTick(cfg, t, cmd, c);
          next := StepCore(cfg.run, c);
        } else if Accepts(t.live, cmd) {
          FollowsUpdate(cfg, t, cmd, c);
          next := c.(feed := Stage(c.feed, cmd.controls));
        } else {
          FollowsOther(cfg, t, cmd, c);
          next := c;
        }
    }
  }

  lemma FollowsParts(cfg: Setup, t: Trace, c: Core)
    requires Follows(cfg, t, c)
    ensures ValidLive(t.live) && ValidRun(cfg.run)
  {
    hide SoundSim, ValidLive;
  }

  lemma LifeBegins(cfg: Setup) returns (c: Core)
    requires ValidSetup(cfg)
    ensures Follows(cfg, LifeTrace(cfg, []), c)
  {
    hide SoundSim, Started;
    StartedValid(cfg);
    StartedSound(cfg);
    FreshSound(cfg);
    c := FreshCore(cfg.run, cfg.controls);
    NothingMirrors(cfg);
    hide Mirrors;
    assert LiveSound(LifeTrace(cfg, []).live, UNBROKEN);
  }

  lemma NothingMirrors(cfg: Setup)
    requires ValidSetup(cfg)
    ensures Mirrors(cfg.run, cfg.controls, FreshCore(cfg.run, cfg.controls), [])
  {
    assert PlanOf([], 0) == [];
  }

  /** Live refines batch through any number of revivals: after any interleaving of commands and revivals that find
      the run as its snapshot describes it, log, clock, controls, garden and counters are those of the batch run
      configured with the accepted updates keyed by their effective tick, provided no two share one. */
  lemma RevivedLiveRefinesBatch(cfg: Setup, turns: seq<LifeTurn>)
    requires ValidSetup(cfg) && AllSmooth(cfg, turns)
    ensures var t := LifeTrace(cfg, turns);
            var live, ticks := t.live.sim.core, t.live.sim.core.feed.tick;
            && ticks >= 0
            && (OnePerTick(t.receipts, ticks) ==>
                  && ValidChanges(ChangesOf(t.receipts, ticks))
                  && var batch := BatchCore(cfg.run, cfg.controls, ChangesOf(t.receipts, ticks), ticks);
                     && live.feed == StageAll(batch.feed, ControlsAt(t.receipts, ticks))
                     && live.feed.records == batch.feed.records && live.feed.cursor == batch.feed.cursor
                     && live.proj.garden == batch.proj.garden && live.proj.counters == batch.proj.counters)
  {
    hide LifeTrace, SoundSim, CoreAfter, AllSmooth;
    var c := LifeFollows(cfg, turns);
    var t := LifeTrace(cfg, turns);
    var ticks := t.live.sim.core.feed.tick;
    assert c.feed == t.live.sim.core.feed;
    if OnePerTick(t.receipts, ticks) { PlanIsBatchPlan(t.receipts, ticks, ticks); }
  }
}
