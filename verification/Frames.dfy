/** What each turn of a live run's loop puts on its subscribers' streams, and what its counters say about it. */
module Frames {
  import opened Snapshots
  import opened Engine
  import opened Streams

  predicate SomeoneListens(l: Live) {
    exists h :: 0 <= h < |l.streams| && l.streams[h].open
  }

  /** The stream gained one frame, showing this run as it stands; or, its buffer being full, lost one. */
  predicate Received(before: Stream, after: Stream, now: Live) {
    var f := now.sim.core.feed;
    var frame := Frame(now.snapSeq, f.tick, f.revision, now.state, now.sim.core.proj.garden, f.cursor);
    after.(open := before.open, reason := before.reason)
    == if |before.frames| < before.taken + before.buffer
       then before.(frames := before.frames + [frame]) else before.(lost := before.lost + 1)
  }

  /** Every open stream received one frame of the run as it is afterwards, counted once if anyone listened; the others
      are as they were. */
  predicate Shown(before: Live, after: Live) {
    && |after.streams| == |before.streams|
    && after.snapSeq == before.snapSeq + (if SomeoneListens(before) then 1 else 0)
    && forall h | 0 <= h < |before.streams| ::
         if before.streams[h].open then Received(before.streams[h], after.streams[h], after)
         else after.streams[h] == before.streams[h]
  }

  predicate StaysOpen(before: Live, after: Live) {
    && |after.streams| == |before.streams|
    && forall h | 0 <= h < |before.streams| ::
         after.streams[h].open == before.streams[h].open && after.streams[h].reason == before.streams[h].reason
  }

  /** Every stream that was open is closed, and tells this reason. */
  predicate Ended(before: Live, after: Live, reason: CloseReason) {
    && |after.streams| == |before.streams| && after.subs == map[]
    && forall h | 0 <= h < |before.streams| ::
         && !after.streams[h].open
         && after.streams[h].reason == if before.streams[h].open then reason else before.streams[h].reason
  }

  lemma ListenersAreRegistered(l: Live)
    requires StreamsSound(l)
    ensures SomeoneListens(l) <==> l.subs != map[]
  {
    if SomeoneListens(l) {
      var h :| 0 <= h < |l.streams| && l.streams[h].open;
      assert Linked(l, h);
    }
    if l.subs != map[] {
      var id :| id in l.subs;
      assert l.streams[l.subs[id]].open;
    }
    hide StreamSound, IDsDistinct;
  }

  lemma PublishShows(l: Live)
    requires StreamsSound(l) && WellLinked(l)
    ensures var r := Publish(l);
            && Shown(l, r) && StaysOpen(l, r) && StreamsSound(r) && WellLinked(r)
            && r.sim == l.sim && r.state == l.state && r.failed == l.failed && r.stopped == l.stopped
  {
    hide StreamsSound, Registered, Linked;
    ListenersAreRegistered(l);
    PublishKeeps(l);
    PublishSound(l);
    if l.subs == map[] {
      NobodySubscribed(l);
      hide Publish;
    } else {
      hide Publish;
      var r := Publish(l);
      PublishLength(l);
      forall h | 0 <= h < |l.streams|
        ensures if l.streams[h].open then Received(l.streams[h], r.streams[h], r) else r.streams[h] == l.streams[h]
        ensures r.streams[h].open == l.streams[h].open && r.streams[h].reason == l.streams[h].reason
      {
        PublishedAt(l, h);
        OpenExactlyWhenRegistered(l, h);
      }
    }
  }

  lemma PublishLength(l: Live)
    requires WellLinked(l) && l.subs != map[]
    ensures |Publish(l).streams| == |l.streams| && Publish(l).snapSeq == l.snapSeq + 1
  {
  }

  lemma CloseSubsEnds(l: Live, reason: CloseReason)
    requires StreamsSound(l) && WellLinked(l)
    ensures var r := CloseSubs(l, reason);
            && Ended(l, r, reason) && r.snapSeq == l.snapSeq
            && forall h | 0 <= h < |l.streams| ::
                 r.streams[h].(open := l.streams[h].open, reason := l.streams[h].reason) == l.streams[h]
                 && (!l.streams[h].open ==> r.streams[h] == l.streams[h])
  {
    var r := CloseSubs(l, reason);
    forall h | 0 <= h < |l.streams| ensures Registered(l, h) <==> l.streams[h].open { OpenExactlyWhenRegistered(l, h); }
    hide StreamsSound, Registered;
  }

  /** A frame shown before the streams were closed was shown. */
  lemma ShownThenEnded(before: Live, shown: Live, after: Live, reason: CloseReason)
    requires Shown(before, shown) && StaysOpen(before, shown) && Ended(shown, after, reason)
    requires after.snapSeq == shown.snapSeq && after.sim == shown.sim && after.state == shown.state
    requires forall h | 0 <= h < |shown.streams| ::
               after.streams[h].(open := shown.streams[h].open, reason := shown.streams[h].reason) == shown.streams[h]
               && (!shown.streams[h].open ==> after.streams[h] == shown.streams[h])
    ensures Shown(before, after) && Ended(before, after, reason)
  {
    hide SomeoneListens;
  }

  // ---- the loop's turns ----

  lemma ShownFrom(a: Live, b: Live, after: Live)
    requires a.streams == b.streams && a.snapSeq == b.snapSeq
    ensures Shown(a, after) <==> Shown(b, after)
    ensures StaysOpen(a, after) <==> StaysOpen(b, after)
  {
  }

  lemma FinishShows(l: Live, io: SaveIO)
    requires StreamsSound(l) && WellLinked(l) && l.state != Finished
    ensures var r := Finish(l, io);
            Shown(l, r) && Ended(l, r, RunFinished) && r.state == Finished
  {
    var saved := SaveLive(WithState(l, Finished), io);
    SaveLiveSound(l, Finished, io);
    SaveLiveStreams(l, Finished, io);
    hide SaveLive, StreamsSound, Shown, StaysOpen, Ended, Publish, CloseSubs;
    PublishShows(saved);
    var shown := Publish(saved);
    CloseSubsEnds(shown, RunFinished);
    CloseSubsKeeps(shown, RunFinished);
    ShownThenEnded(saved, shown, CloseSubs(shown, RunFinished), RunFinished);
    ShownFrom(saved, l, CloseSubs(shown, RunFinished));
    EndedFrom(saved, l, CloseSubs(shown, RunFinished), RunFinished);
  }

  lemma EndedFrom(a: Live, b: Live, after: Live, reason: CloseReason)
    requires a.streams == b.streams
    ensures Ended(a, after, reason) <==> Ended(b, after, reason)
  {
  }

  lemma SaveLiveStreams(l: Live, state: Lifecycle, io: SaveIO)
    ensures var r := SaveLive(WithState(l, state), io);
            && r.streams == l.streams && r.subs == l.subs && r.snapSeq == l.snapSeq && r.state == state
            && r.stopped == l.stopped && r.sim.core == l.sim.core
            && (r.failed <==> l.failed || !Save(WithState(l, state).sim, io).1)
  {
    SaveKeeps(WithState(l, state).sim, io);
    hide Save;
  }

  lemma PauseShows(l: Live, paused: bool, io: SaveIO)
    requires StreamsSound(l) && WellLinked(l) && l.state != Finished
    ensures var r := SetPaused(l, paused, io);
            && Shown(l, r) && StaysOpen(l, r) && r.state == (if paused then Paused else Running)
            && r.sim.core == l.sim.core
  {
    var state := if paused then Paused else Running;
    var saved := SaveLive(WithState(l, state), io);
    SaveLiveSound(l, state, io);
    SaveLiveStreams(l, state, io);
    hide SaveLive, StreamsSound, Shown, StaysOpen, Publish;
    PublishShows(saved);
    ShownFrom(saved, l, Publish(saved));
  }

  lemma StepSoundStreams(l: Live, s: Sim, failed: bool, step: StepIO)
    requires ValidLive(l) && StreamsSound(l) && s == Step(l.sim, step).0
    ensures StreamsSound(l.(sim := s, failed := failed)) && WellLinked(l.(sim := s, failed := failed))
  {
    StepMovesOn(l.sim, step);
    hide Step, StreamsSound, ValidSim;
    SimSound(l, s, l.state, failed);
    assert l.(sim := s, state := l.state, failed := failed) == l.(sim := s, failed := failed);
  }

  /** A tick that succeeds below the limit shows every listener one frame of the run after it. One that reaches the
      limit shows that frame and then the final one; one that fails, only the final one; and both of these close every
      stream, telling that the run is finished. */
  lemma TickShows(l: Live, step: StepIO, final: SaveIO)
    requires ValidLive(l) && StreamsSound(l) && l.state == Running && !l.stopped
    ensures var after, s := Obey(l, TickClock(step, final)), Step(l.sim, step);
            var over := l.sim.maxTicks > 0 && s.0.core.feed.tick >= l.sim.maxTicks;
            && (s.1 && !over ==>
                  Shown(l, after) && StaysOpen(l, after) && after.sim == s.0 && after.state == Running)
            && (s.1 && over ==>
                  after.state == Finished &&
                  exists mid: Live ::
                    && mid.sim == s.0 && mid.state == Running && Shown(l, mid) && StaysOpen(l, mid)
                    && Shown(mid, after) && Ended(mid, after, RunFinished))
            && (!s.1 ==> after.state == Finished && after.failed && Shown(l, after) && Ended(l, after, RunFinished))
  {
    var s := Step(l.sim, step);
    hide Step, StreamsSound, ValidSim, Shown, StaysOpen, Ended, Publish, Finish;
    StepSoundStreams(l, s.0, !s.1 || l.failed, step);
    if s.1 {
      StepSoundStreams(l, s.0, l.failed, step);
      var stepped := l.(sim := s.0);
      PublishShows(stepped);
      ShownFrom(stepped, l, Publish(stepped));
      if l.sim.maxTicks > 0 && s.0.core.feed.tick >= l.sim.maxTicks { FinishShows(Publish(stepped), final); }
    } else {
      var stepped := l.(sim := s.0, failed := true);
      FinishShows(stepped, final);
      ShownFrom(stepped, l, Finish(stepped, final));
      EndedFrom(stepped, l, Finish(stepped, final), RunFinished);
      FinishRemembersFailure(stepped, final);
    }
  }

  lemma FinishRemembersFailure(l: Live, io: SaveIO)
    requires WellLinked(l) && l.failed
    ensures Finish(l, io).failed
  {
    if l.state != Finished {
      SaveLiveStreams(l, Finished, io);
      hide SaveLive, Publish, CloseSubs;
      PublishKeeps(SaveLive(WithState(l, Finished), io));
      CloseSubsKeeps(Publish(SaveLive(WithState(l, Finished), io)), RunFinished);
    }
  }

  /** Pausing, unpausing and finishing show one frame of the new state; finishing and quitting close every stream, each
      telling why; every other command shows nothing to those already listening. */
  lemma CommandsShow(l: Live, cmd: Command)
    requires ValidLive(l) && StreamsSound(l) && !l.stopped
    ensures var after := Obey(l, cmd);
            && (cmd.Pause? && l.state != Finished ==> Shown(l, after) && StaysOpen(l, after) && after.state == Paused)
            && (cmd.Unpause? && l.state != Finished ==>
                  Shown(l, after) && StaysOpen(l, after) && after.state == Running)
            && (cmd.FinishRun? && l.state != Finished ==>
                  Shown(l, after) && Ended(l, after, RunFinished) && after.state == Finished)
            && (cmd.Quit? ==> Ended(l, after, RegistryShutdown) && after.snapSeq == l.snapSeq && after.stopped)
            && (cmd.Update? || cmd.Query? ==> after.streams == l.streams && after.snapSeq == l.snapSeq)
  {
    hide StreamsSound, Shown, StaysOpen, Ended, SetPaused, Finish, CloseSubs, ValidSim;
    match cmd
    case Pause(io) => if l.state != Finished { PauseShows(l, true, io); }
    case Unpause(io) => if l.state != Finished { PauseShows(l, false, io); }
    case FinishRun(io) => if l.state != Finished { FinishShows(l, io); }
    case Quit =>
      CloseSubsEnds(l, RegistryShutdown);
      EndedStopped(l, CloseSubs(l, RegistryShutdown), RegistryShutdown);
    case _ =>
  }

  /** Pausing, unpausing and finishing save the run in its new state, and remember a save that failed. */
  lemma CommandsSave(l: Live, cmd: Command)
    requires ValidLive(l) && !l.stopped && l.state != Finished && (cmd.Pause? || cmd.Unpause? || cmd.FinishRun?)
    ensures var state := if cmd.Pause? then Paused else if cmd.Unpause? then Running else Finished;
            var after, s := Obey(l, cmd), Save(l.sim.(state := state), cmd.io);
            && after.sim == s.0 && after.state == state && after.stopped == l.stopped
            && (after.failed <==> l.failed || !s.1)
  {
    hide Save, Publish, CloseSubs, ValidSim;
    var state := if cmd.Pause? then Paused else if cmd.Unpause? then Running else Finished;
    var saved := SaveLive(WithState(l, state), cmd.io);
    assert WellLinked(saved);
    PublishKeeps(saved);
    CloseSubsKeeps(Publish(saved), RunFinished);
  }

  lemma EndedStopped(l: Live, r: Live, reason: CloseReason)
    requires Ended(l, r, reason)
    ensures Ended(l, r.(stopped := true), reason)
  {
  }

  /** A subscriber begins with one frame, the run as it stands, in a buffer of the size it asked for or 16; it is given
      the next identifier and stays open, unless the run is over. */
  lemma SubscribeLaw(l: Live, buffer: int)
    requires ValidLive(l) && !l.stopped
    ensures var after, n, f := Obey(l, Subscribe(buffer)), |l.streams|, l.sim.core.feed;
            && |after.streams| == n + 1 && after.streams[..n] == l.streams && after.sim == l.sim
            && after.snapSeq == l.snapSeq && after.sent == l.sent + 1 && after.dropped == l.dropped
            && var st := after.streams[n];
               && st.frames == [Frame(l.snapSeq, f.tick, f.revision, l.state, l.sim.core.proj.garden, f.cursor)]
               && st.buffer == (if buffer <= 0 then 16 else buffer) && st.taken == 0 && st.lost == 0
               && (st.open <==> l.state != Finished)
               && st.id == (if l.state == Finished then 0 else l.nextSub + 1)
               && after.nextSub == (if l.state == Finished then l.nextSub else l.nextSub + 1)
               && after.subs == if l.state == Finished then l.subs else l.subs[l.nextSub + 1 := n]
  {
    hide ValidSim;
  }

  /** A client takes the next frame it was sent, if there is one, and nobody else notices; that makes room for one. */
  lemma TakeLaw(l: Live, h: nat)
    requires ValidLive(l)
    ensures var after := Obey(l, Take(h));
            after == if h < |l.streams| && l.streams[h].taken < |l.streams[h].frames|
                     then l.(streams := l.streams[h := l.streams[h].(taken := l.streams[h].taken + 1)]) else l
  {
    hide ValidSim;
  }

  // ---- what the counters say ----

  function FramesOn(streams: seq<Stream>): nat {
    if streams == [] then 0 else FramesOn(streams[..|streams| - 1]) + |streams[|streams| - 1].frames|
  }

  function LostBy(streams: seq<Stream>): nat {
    if streams == [] then 0 else LostBy(streams[..|streams| - 1]) + streams[|streams| - 1].lost
  }

  /** Every frame sent is on some stream, and every one dropped was lost by one. */
  predicate Balanced(l: Live) {
    l.sent == FramesOn(l.streams) && l.dropped == LostBy(l.streams)
  }

  /** Subscriptions to the first `k` streams, with or without room. */
  function ServedBelow(l: Live, k: nat, room: bool): set<nat>
    requires WellLinked(l)
  {
    set id | id in l.subs && l.subs[id] < k && HasRoom(l.streams[l.subs[id]]) == room
  }

  lemma OneMoreServed(l: Live, k: nat, room: bool)
    requires StreamsSound(l) && WellLinked(l) && k < |l.streams|
    ensures |ServedBelow(l, k + 1, room)|
         == |ServedBelow(l, k, room)| + if l.streams[k].open && HasRoom(l.streams[k]) == room then 1 else 0
  {
    hide StreamsSound, HasRoom;
    SubscribedAt(l, k);
    var less, more, id := ServedBelow(l, k, room), ServedBelow(l, k + 1, room), l.streams[k].id;
    if l.streams[k].open && HasRoom(l.streams[k]) == room {
      assert more == less + {id} && id !in less;
    } else {
      assert more == less;
    }
  }

  lemma SubscribedAt(l: Live, k: nat)
    requires StreamsSound(l) && k < |l.streams|
    ensures forall id | id in l.subs && l.subs[id] == k :: id == l.streams[k].id && l.streams[k].open
    ensures l.streams[k].open ==> l.streams[k].id in l.subs && l.subs[l.streams[k].id] == k
  {
    assert Linked(l, k);
    hide StreamSound, IDsDistinct;
  }

  /** What publishing adds to the streams up to `k`. */
  lemma {:induction false} PublishAdds(l: Live, r: Live, k: nat)
    requires StreamsSound(l) && WellLinked(l) && Shown(l, r) && k <= |l.streams|
    ensures |r.streams| == |l.streams|
    ensures FramesOn(r.streams[..k]) == FramesOn(l.streams[..k]) + |ServedBelow(l, k, true)|
    ensures LostBy(r.streams[..k]) == LostBy(l.streams[..k]) + |ServedBelow(l, k, false)|
  {
    hide StreamsSound, ServedBelow, SomeoneListens;
    if k == 0 {
      NobodyBelow(l);
    } else {
      PublishAdds(l, r, k - 1);
      OneMoreServed(l, k - 1, true);
      OneMoreServed(l, k - 1, false);
      assert l.streams[..k][..k - 1] == l.streams[..k - 1] && r.streams[..k][..k - 1] == r.streams[..k - 1];
      ReceivedAdds(l.streams[k - 1], r.streams[k - 1], r);
    }
  }

  lemma ReceivedAdds(before: Stream, after: Stream, now: Live)
    ensures Received(before, after, now) ==>
              && |after.frames| == |before.frames| + (if HasRoom(before) then 1 else 0)
              && after.lost == before.lost + (if HasRoom(before) then 0 else 1)
  {
  }

  lemma NobodyBelow(l: Live)
    requires WellLinked(l)
    ensures ServedBelow(l, 0, true) == {} == ServedBelow(l, 0, false)
  {
  }

  lemma AllServed(l: Live)
    requires WellLinked(l)
    ensures var n := |l.streams|;
            && Publish(l).sent == l.sent + |ServedBelow(l, n, true)|
            && Publish(l).dropped == l.dropped + |ServedBelow(l, n, false)|
  {
    var n := |l.streams|;
    assert ServedBelow(l, n, true) == set id | id in l.subs && HasRoom(l.streams[l.subs[id]]);
    assert ServedBelow(l, n, false) == set id | id in l.subs && !HasRoom(l.streams[l.subs[id]]);
    hide HasRoom, FrameOf, Offered;
  }

  lemma PublishBalanced(l: Live)
    requires StreamsSound(l) && WellLinked(l) && Balanced(l)
    ensures Balanced(Publish(l))
  {
    hide StreamsSound, Publish, ServedBelow, Shown;
    PublishShows(l);
    var n, r := |l.streams|, Publish(l);
    PublishAdds(l, r, n);
    AllServed(l);
    assert l.streams[..n] == l.streams && r.streams[..n] == r.streams;
  }

  /** Streams that differ in nothing counted. */
  predicate CountedAlike(a: seq<Stream>, b: seq<Stream>) {
    |a| == |b| && forall h | 0 <= h < |a| :: a[h].frames == b[h].frames && a[h].lost == b[h].lost
  }

  lemma {:induction false} AlikeBalances(a: seq<Stream>, b: seq<Stream>)
    requires CountedAlike(a, b)
    ensures FramesOn(a) == FramesOn(b) && LostBy(a) == LostBy(b)
  {
    if a != [] { AlikeBalances(a[..|a| - 1], b[..|b| - 1]); }
  }

  lemma CloseSubsBalanced(l: Live, reason: CloseReason)
    requires WellLinked(l) && Balanced(l)
    ensures Balanced(CloseSubs(l, reason))
  {
    AlikeBalances(l.streams, CloseSubs(l, reason).streams);
    hide FramesOn, LostBy, Registered;
  }

  lemma FinishBalanced(l: Live, io: SaveIO)
    requires StreamsSound(l) && WellLinked(l) && Balanced(l)
    ensures Balanced(Finish(l, io))
  {
    if l.state != Finished {
      SaveLiveSound(l, Finished, io);
      SaveLiveBalanced(l, Finished, io);
      var saved := SaveLive(WithState(l, Finished), io);
      hide StreamsSound, SaveLive, Publish, CloseSubs, Balanced;
      PublishBalanced(saved);
      CloseSubsBalanced(Publish(saved), RunFinished);
    }
  }

  lemma SaveLiveBalanced(l: Live, state: Lifecycle, io: SaveIO)
    requires Balanced(l) && WellLinked(l)
    ensures Balanced(SaveLive(WithState(l, state), io)) && WellLinked(SaveLive(WithState(l, state), io))
  {
    hide Save;
  }

  lemma AdvanceBalanced(l: Live, step: StepIO, final: SaveIO)
    requires ValidLive(l) && StreamsSound(l) && Balanced(l)
    ensures Balanced(Advance(l, step, final))
  {
    if l.state == Running {
      var s := Step(l.sim, step);
      StepSoundStreams(l, s.0, true, step);
      StepSoundStreams(l, s.0, l.failed, step);
      BalancedSim(l, s.0, true);
      BalancedSim(l, s.0, l.failed);
      hide Step, StreamsSound, Publish, Finish, Balanced, ValidSim;
      if !s.1 {
        FinishBalanced(l.(sim := s.0, failed := true), final);
      } else {
        PublishBalanced(l.(sim := s.0));
        PublishShows(l.(sim := s.0));
        FinishBalanced(Publish(l.(sim := s.0)), final);
      }
    }
  }

  lemma BalancedSim(l: Live, s: Sim, failed: bool)
    requires Balanced(l)
    ensures Balanced(l.(sim := s, failed := failed))
  {
  }

  lemma PauseBalanced(l: Live, paused: bool, io: SaveIO)
    requires StreamsSound(l) && WellLinked(l) && Balanced(l)
    ensures Balanced(SetPaused(l, paused, io))
  {
    if l.state != Finished {
      var state := if paused then Paused else Running;
      SaveLiveSound(l, state, io);
      SaveLiveBalanced(l, state, io);
      hide StreamsSound, SaveLive, Publish, Balanced;
      PublishBalanced(SaveLive(WithState(l, state), io));
    }
  }

  lemma AttachBalanced(l: Live, buffer: int)
    requires WellLinked(l) && Balanced(l)
    ensures Balanced(Attach(l, buffer))
  {
    var r, n := Attach(l, buffer), |l.streams|;
    assert r.streams[..n] == l.streams;
  }

  lemma TouchBalanced(l: Live, r: Live)
    requires Balanced(l) && CountedAlike(l.streams, r.streams) && r.sent == l.sent && r.dropped == l.dropped
    ensures Balanced(r)
  {
    AlikeBalances(l.streams, r.streams);
    hide FramesOn, LostBy;
  }

  lemma ObeyBalanced(l: Live, cmd: Command)
    requires ValidLive(l) && StreamsSound(l) && Balanced(l)
    ensures Balanced(Obey(l, cmd))
  {
    hide StreamsSound, Balanced, Advance, SetPaused, Finish, CloseSubs, Attach, CloseStream, Receive, ValidSim;
    match cmd
    case TickClock(step, final) => AdvanceBalanced(l, step, final);
    case Pause(io) => PauseBalanced(l, true, io);
    case Unpause(io) => PauseBalanced(l, false, io);
    case FinishRun(io) => FinishBalanced(l, io);
    case Subscribe(buffer) => AttachBalanced(l, buffer);
    case CatchUp(buffer, _) => AttachBalanced(l, buffer);
    case Quit =>
      CloseSubsBalanced(l, RegistryShutdown);
      TouchBalanced(CloseSubs(l, RegistryShutdown), CloseSubs(l, RegistryShutdown).(stopped := true));
    case Close(h) => CloseTouches(l, h); TouchBalanced(l, CloseStream(l, h));
    case Take(h) => TakeTouches(l, h); TouchBalanced(l, Receive(l, h));
    case Update(c) => TouchBalanced(l, UpdateControls(l, c));
    case Query =>
  }

  lemma CloseTouches(l: Live, h: nat)
    requires WellLinked(l)
    ensures var r := CloseStream(l, h);
            CountedAlike(l.streams, r.streams) && r.sent == l.sent && r.dropped == l.dropped
  {
  }

  lemma TakeTouches(l: Live, h: nat)
    ensures var r := Receive(l, h);
            CountedAlike(l.streams, r.streams) && r.sent == l.sent && r.dropped == l.dropped
  {
  }

  /** In every run, started or revived, the sent counter is the number of frames ever put on its streams and the dropped
      counter the number lost for want of room. */
  lemma {:induction false} CountersBalance(s: Sim, cmds: seq<Command>)
    requires ValidSim(s)
    ensures Balanced(ObeyAll(LiveOver(s), cmds))
  {
    hide Balanced, Obey, ValidSim, StreamsSound;
    if cmds == [] {
      NothingSent(s);
    } else {
      var k := |cmds| - 1;
      CountersBalance(s, cmds[..k]);
      StreamsAlwaysSound(s, cmds[..k]);
      ObeyBalanced(ObeyAll(LiveOver(s), cmds[..k]), cmds[k]);
    }
  }

  lemma NothingSent(s: Sim)
    ensures Balanced(LiveOver(s))
  {
  }
}
