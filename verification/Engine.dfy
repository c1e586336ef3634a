/** A live run as its owning loop sees it: ticks and commands, one at a time, over a simulation and its subscribers. */
module Engine {
  import opened Events
  import opened ControlRules
  import opened Gardens
  import opened Production
  import opened Feeds
  import opened Snapshots
  import opened Wrappers

  const DEFAULT_SUBSCRIBER_BUFFER: nat := 16

  /** What subscribers are shown: a garden, the tick and state it belongs to, and how much of the log it folds. */
  datatype Frame = Frame(
    sequence: nat, tick: int, revision: nat, state: Lifecycle, organisms: Plot, foldedOffset: nat)

  datatype CloseReason = RunFinished | RegistryShutdown

  /** A subscription and its channel: every frame ever put on it, how many the client has taken, and whether it is
      still open. `attachedAt` and `lost` record when it attached and how many frames were dropped for it. */
  datatype Stream = Stream(
    id: nat, buffer: nat, frames: seq<Frame>, taken: nat, open: bool, reason: CloseReason,
    attachedAt: nat, lost: nat, detached: bool)

  /** `fault` is set by what a Go program would panic on or block in: a send on a closed channel, a second close, or
      the first frame finding no room. */
  datatype Live = Live(
    sim: Sim, state: Lifecycle, failed: bool,
    streams: seq<Stream>, subs: map<nat, nat>, nextSub: nat, snapSeq: nat, sent: nat, dropped: nat,
    stopped: bool, fault: bool)

  /** Registered subscriptions point at streams that exist. */
  predicate WellLinked(l: Live) {
    forall id | id in l.subs :: l.subs[id] < |l.streams|
  }

  predicate ValidLive(l: Live) {
    ValidSim(l.sim) && WellLinked(l)
  }

  function FrameOf(l: Live): Frame {
    var f := l.sim.core.feed;
    Frame(l.snapSeq, f.tick, f.revision, l.state, l.sim.core.proj.garden, f.cursor)
  }

  // ---- channels ----

  predicate HasRoom(st: Stream) {
    |st.frames| < st.taken + st.buffer
  }

  /** A send that drops the frame when the buffer is full. */
  function Offered(st: Stream, frame: Frame): Stream {
    if HasRoom(st) then st.(frames := st.frames + [frame]) else st.(lost := st.lost + 1)
  }

  function Closed(st: Stream): Stream {
    st.(open := false)
  }

  predicate Registered(l: Live, h: nat) {
    h in l.subs.Values
  }

  /** Fans the current frame out; with nobody subscribed nothing happens, not even the count. */
  function Publish(l: Live): (r: Live)
    requires WellLinked(l)
    ensures WellLinked(r)
  {
    if l.subs == map[] then l
    else
      var counted := l.(snapSeq := l.snapSeq + 1);
      var frame := FrameOf(counted);
      counted.(
        streams := seq(|l.streams|, h requires 0 <= h < |l.streams| =>
                     if Registered(l, h) then Offered(l.streams[h], frame) else l.streams[h]),
        sent := l.sent + |set id | id in l.subs && HasRoom(l.streams[l.subs[id]])|,
        dropped := l.dropped + |set id | id in l.subs && !HasRoom(l.streams[l.subs[id]])|,
        fault := l.fault || exists id :: id in l.subs && !l.streams[l.subs[id]].open)
  }

  function RemoveSub(l: Live, id: nat): (r: Live)
    requires WellLinked(l)
    ensures WellLinked(r)
  {
    if id !in l.subs then l
    else
      var h := l.subs[id];
      l.(subs := l.subs - {id}, streams := l.streams[h := Closed(l.streams[h])], fault := l.fault || !l.streams[h].open)
  }

  function CloseSubs(l: Live, reason: CloseReason): (r: Live)
    requires WellLinked(l)
    ensures WellLinked(r)
  {
    l.(subs := map[],
       streams := seq(|l.streams|, h requires 0 <= h < |l.streams| =>
                    if Registered(l, h) then Closed(l.streams[h]).(reason := reason) else l.streams[h]),
       fault := l.fault || exists id :: id in l.subs && !l.streams[l.subs[id]].open)
  }

  /** Puts the current frame on a new channel and registers it, unless the run is over. */
  function Attach(l: Live, buffer: int): (r: Live)
    requires WellLinked(l)
    ensures WellLinked(r)
  {
    var room: nat := if buffer <= 0 then DEFAULT_SUBSCRIBER_BUFFER else buffer;
    var st := Stream(0, room, [FrameOf(l)], 0, true, RunFinished, l.snapSeq, 0, false);
    var l := l.(sent := l.sent + 1, fault := l.fault || room == 0);
    if l.state == Finished then l.(streams := l.streams + [Closed(st)])
    else
      l.(streams := l.streams + [st.(id := l.nextSub + 1)], nextSub := l.nextSub + 1,
         subs := l.subs[l.nextSub + 1 := |l.streams|])
  }

  // ---- lifecycle ----

  function WithState(l: Live, state: Lifecycle): Live {
    l.(state := state, sim := l.sim.(state := state))
  }

  /** Saves the simulation; a failed write is remembered, never fatal here. */
  function SaveLive(l: Live, io: SaveIO): Live {
    var r := Save(l.sim, io);
    l.(sim := r.0, failed := l.failed || !r.1)
  }

  function Finish(l: Live, io: SaveIO): Live
    requires WellLinked(l)
  {
    if l.state == Finished then l
    else CloseSubs(Publish(SaveLive(WithState(l, Finished), io)), RunFinished)
  }

  /** One tick of the clock. */
  function Advance(l: Live, step: StepIO, final: SaveIO): Live
    requires ValidLive(l)
  {
    if l.state != Running then l
    else
      var r := Step(l.sim, step);
      if !r.1 then Finish(l.(sim := r.0, failed := true), final)
      else
        var published := Publish(l.(sim := r.0));
        if l.sim.maxTicks > 0 && r.0.core.feed.tick >= l.sim.maxTicks then Finish(published, final) else published
  }

  function SetPaused(l: Live, paused: bool, io: SaveIO): Live
    requires WellLinked(l)
  {
    if l.state == Finished then l
    else Publish(SaveLive(WithState(l, if paused then Paused else Running), io))
  }

  function UpdateControls(l: Live, c: Controls): Live {
    if l.state == Finished || !ValidControls(c) then l else l.(sim := Staging(l.sim, c))
  }

  /** The records a reconnecting client asks for can be served. */
  predicate Serves(l: Live, from: int) {
    0 <= from <= |l.sim.core.feed.records|
  }

  function Missed(l: Live, from: int): seq<Event>
    requires Serves(l, from)
  {
    l.sim.core.feed.records[from..]
  }

  /** A subscription is detached once; an unregistered one has nothing to detach. */
  function CloseStream(l: Live, h: nat): Live
    requires WellLinked(l)
  {
    if h >= |l.streams| || l.streams[h].detached then l
    else RemoveSub(l.(streams := l.streams[h := l.streams[h].(detached := true)]), l.streams[h].id)
  }

  function Receive(l: Live, h: nat): Live {
    if h < |l.streams| && l.streams[h].taken < |l.streams[h].frames| then
      l.(streams := l.streams[h := l.streams[h].(taken := l.streams[h].taken + 1)])
    else l
  }

  // ---- the loop ----

  datatype Command =
    | TickClock(step: StepIO, final: SaveIO)
    | Update(controls: Controls)
    | Pause(io: SaveIO) | Unpause(io: SaveIO) | FinishRun(io: SaveIO)
    | Query
    | Subscribe(buffer: int) | CatchUp(buffer: int, from: int)
    | Close(handle: nat) | Take(handle: nat)
    | Quit

  /** One turn of the run's loop. Once it has quit only what was put on the channels can still be taken. */
  function Obey(l: Live, cmd: Command): Live
    requires ValidLive(l)
  {
    if cmd.Take? then Receive(l, cmd.handle)
    else if l.stopped then l
    else
      match cmd
      case TickClock(step, final) => Advance(l, step, final)
      case Update(c) => UpdateControls(l, c)
      case Pause(io) => SetPaused(l, true, io)
      case Unpause(io) => SetPaused(l, false, io)
      case FinishRun(io) => Finish(l, io)
      case Query => l
      case Subscribe(buffer) => Attach(l, buffer)
      case CatchUp(buffer, from) => if Serves(l, from) then Attach(l, buffer) else l
      case Close(h) => CloseStream(l, h)
      case Take(h) => l
      case Quit => CloseSubs(l, RegistryShutdown).(stopped := true)
  }

  /** Publishing and closing touch the subscriptions only. */
  lemma PublishKeeps(l: Live)
    requires WellLinked(l)
    ensures var r := Publish(l);
            r.sim == l.sim && r.state == l.state && r.failed == l.failed && r.stopped == l.stopped && WellLinked(r)
  {
    hide FrameOf, Offered, HasRoom;
  }

  lemma CloseSubsKeeps(l: Live, reason: CloseReason)
    requires WellLinked(l)
    ensures var r := CloseSubs(l, reason);
            r.sim == l.sim && r.state == l.state && r.failed == l.failed && r.stopped == l.stopped && WellLinked(r)
  {
  }

  predicate ConcernsTheRun(cmd: Command) {
    cmd.TickClock? || cmd.Update? || cmd.Pause? || cmd.Unpause? || cmd.FinishRun?
  }

  /** The other commands leave the run itself alone. */
  lemma OthersKeepTheRun(l: Live, cmd: Command)
    requires ValidLive(l) && !ConcernsTheRun(cmd)
    ensures var r := Obey(l, cmd); r.sim == l.sim && r.state == l.state && WellLinked(r)
  {
    hide FrameOf, ValidSim;
    if cmd.Quit? { CloseSubsKeeps(l, RegistryShutdown); }
    hide CloseSubs;
  }

  /** What finishing does: the state is recorded, whether or not the save succeeds. */
  lemma FinishIs(l: Live, io: SaveIO)
    requires WellLinked(l)
    ensures var r := Finish(l, io);
            && WellLinked(r) && r.state == Finished
            && r.sim == if l.state == Finished then l.sim else SaveLive(WithState(l, Finished), io).sim
  {
    hide Publish, CloseSubs, SaveLive;
    if l.state != Finished {
      var saved := SaveLive(WithState(l, Finished), io);
      SaveLiveState(l, Finished, io);
      PublishKeeps(saved);
      CloseSubsKeeps(Publish(saved), RunFinished);
    }
  }

  lemma SaveLiveState(l: Live, state: Lifecycle, io: SaveIO)
    ensures var r := SaveLive(WithState(l, state), io);
            r.state == state && r.subs == l.subs && r.streams == l.streams && r.stopped == l.stopped
            && r.sim == Save(WithState(l, state).sim, io).0
  {
    hide Save;
  }

  lemma SetPausedIs(l: Live, paused: bool, io: SaveIO)
    requires WellLinked(l) && l.state != Finished
    ensures var r, state := SetPaused(l, paused, io), if paused then Paused else Running;
            && WellLinked(r) && r.state == state && r.sim == SaveLive(WithState(l, state), io).sim
            && r.stopped == l.stopped
  {
    hide Publish, SaveLive;
    var state := if paused then Paused else Running;
    SaveLiveState(l, state, io);
    PublishKeeps(SaveLive(WithState(l, state), io));
  }

  /** A tick of the clock steps a running simulation and nothing else, and finishes it when the step failed or the
      limit is reached. */
  lemma AdvanceIs(l: Live, step: StepIO, final: SaveIO)
    requires ValidLive(l)
    ensures var r, s := Advance(l, step, final), Step(l.sim, step);
            && WellLinked(r)
            && (l.state != Running ==> r == l)
            && (l.state == Running ==>
                  var over := !s.1 || (l.sim.maxTicks > 0 && s.0.core.feed.tick >= l.sim.maxTicks);
                  && r.state == (if over then Finished else Running)
                  && r.sim == if over then SaveLive(WithState(l.(sim := s.0), Finished), final).sim else s.0)
  {
    hide Publish, Finish, SaveLive, Step, ValidSim;
    if l.state == Running {
      var s := Step(l.sim, step);
      if !s.1 {
        FinishIs(l.(sim := s.0, failed := true), final);
        SaveLiveState(l.(sim := s.0), Finished, final);
        SaveLiveState(l.(sim := s.0, failed := true), Finished, final);
      } else {
        PublishKeeps(l.(sim := s.0));
        FinishIs(Publish(l.(sim := s.0)), final);
        SaveLiveState(l.(sim := s.0), Finished, final);
        SaveLiveState(Publish(l.(sim := s.0)), Finished, final);
      }
    }
  }

  lemma SaveLiveKeeps(l: Live, state: Lifecycle, io: SaveIO)
    ensures var r := SaveLive(WithState(l, state), io);
            && r.sim.core == l.sim.core && r.sim.run == l.sim.run && r.sim.maxTicks == l.sim.maxTicks
            && r.sim.snapshotEvery == l.sim.snapshotEvery
  {
    SaveKeeps(WithState(l, state).sim, io);
    hide Save;
  }

  lemma StepValid(s: Sim, io: StepIO)
    requires ValidSim(s)
    ensures var r := Step(s, io).0;
            ValidSim(r) && r.run == s.run && r.maxTicks == s.maxTicks && r.state == s.state
    ensures io.append.Appends? ==> Step(s, io).0.core == StepCore(s.run, s.core)
  {
    SaveKeeps(Ticked(s), io.save);
    hide Save, StepFeed, FailedAppend, SnapshotDue;
  }

  lemma FinishValid(l: Live, io: SaveIO)
    requires ValidLive(l)
    ensures ValidLive(Finish(l, io)) && Finish(l, io).state == Finished
    ensures var s := Finish(l, io).sim;
            s.core == l.sim.core && s.run == l.sim.run && s.maxTicks == l.sim.maxTicks
  {
    hide Finish, SaveLive, ValidFeed, ValidRun;
    FinishIs(l, io);
    SaveLiveKeeps(l, Finished, io);
  }

  lemma AdvanceValid(l: Live, step: StepIO, final: SaveIO)
    requires ValidLive(l)
    ensures ValidLive(Advance(l, step, final))
  {
    hide Advance, SaveLive, Step, ValidFeed, ValidRun;
    AdvanceIs(l, step, final);
    StepValid(l.sim, step);
    SaveLiveKeeps(l.(sim := Step(l.sim, step).0), Finished, final);
  }

  lemma ObeyValid(l: Live, cmd: Command)
    requires ValidLive(l)
    ensures ValidLive(Obey(l, cmd))
  {
    hide Advance, Finish, SetPaused, SaveLive, ValidFeed, ValidRun;
    match cmd
    case TickClock(step, final) => AdvanceValid(l, step, final);
    case Update(c) => if ValidControls(c) { StagingValid(l.sim, c); }
    case Pause(io) =>
      SaveLiveKeeps(l, Paused, io);
      if l.state != Finished { SetPausedIs(l, true, io); } else { FinishedStays(l, true, io); }
    case Unpause(io) =>
      SaveLiveKeeps(l, Running, io);
      if l.state != Finished { SetPausedIs(l, false, io); } else { FinishedStays(l, false, io); }
    case FinishRun(io) => FinishValid(l, io);
    case _ => OthersKeepTheRun(l, cmd);
  }

  lemma FinishedStays(l: Live, paused: bool, io: SaveIO)
    requires WellLinked(l) && l.state == Finished
    ensures SetPaused(l, paused, io) == l
  {
  }

  lemma StagingValid(s: Sim, c: Controls)
    requires ValidSim(s) && ValidControls(c)
    ensures ValidSim(Staging(s, c))
  {
  }

  // ---- starting and recovering ----

  datatype StartError = RunHasHistory | NotRecorded

  function LiveOver(s: Sim): Live {
    Live(s, s.state, false, [], map[], 0, 0, 0, 0, false, false)
  }

  /** A run is started on an empty log only, and recorded before it does anything. */
  function StartRun(cfg: Setup, d: Disk, io: SaveIO): Result<Live, StartError> {
    if d.records != [] then Failure(RunHasHistory)
    else
      var r := Save(NewSim(cfg, d.marks).(state := Running), io);
      if r.1 then Success(LiveOver(r.0)) else Failure(NotRecorded)
  }

  datatype Recovered = Skipped | Revived(live: Live) | Unrecoverable(error: RestoreError)

  /** A finished run is left alone; a paused one comes back paused; anything else runs. */
  function RecoverOne(rng: Generator, d: Disk): Recovered {
    match Resume(rng, d)
    case Failure(e) => Unrecoverable(e)
    case Success(s) =>
      if s.state == Finished then Skipped
      else Revived(LiveOver(s.(state := if s.state == Paused then Paused else Running)))
  }

  function ObeyAll(l: Live, cmds: seq<Command>): (r: Live)
    requires ValidLive(l)
    ensures ValidLive(r)
  {
    if cmds == [] then l
    else
      var before := ObeyAll(l, cmds[..|cmds| - 1]);
      ObeyValid(before, cmds[|cmds| - 1]);
      Obey(before, cmds[|cmds| - 1])
  }
}
