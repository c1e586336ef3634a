/** Projection streams: the order of what a subscriber sees, and why no channel is ever misused. */
module Streams {
  import opened ControlRules
  import opened Feeds
  import opened Snapshots
  import opened Engine

  /** Later frames have a higher sequence, and never an earlier tick or offset. */
  predicate Follows(a: Frame, b: Frame) {
    a.sequence < b.sequence && a.tick <= b.tick && a.foldedOffset <= b.foldedOffset
  }

  predicate Ordered(frames: seq<Frame>) {
    forall i, j | 0 <= i < j < |frames| :: Follows(frames[i], frames[j])
  }

  /** The run has reached at least what this frame shows. */
  predicate Reached(frame: Frame, snapSeq: nat, tick: int, cursor: nat) {
    frame.sequence <= snapSeq && frame.tick <= tick && frame.foldedOffset <= cursor
  }

  predicate StreamSound(st: Stream, snapSeq: nat, tick: int, cursor: nat) {
    && st.buffer >= 1 && st.frames != [] && st.taken <= |st.frames| <= st.taken + st.buffer
    && Ordered(st.frames) && Reached(st.frames[|st.frames| - 1], snapSeq, tick, cursor)
    && st.frames[0].sequence == st.attachedAt
    && |st.frames| - 1 + st.lost <= snapSeq - st.attachedAt
  }

  /** An open stream is registered under its own identifier and has been offered every frame since it attached. */
  predicate Linked(l: Live, h: nat)
    requires h < |l.streams|
  {
    var st := l.streams[h];
    && st.id <= l.nextSub
    && (st.open ==> st.id in l.subs && l.subs[st.id] == h && |st.frames| - 1 + st.lost == l.snapSeq - st.attachedAt)
  }

  predicate IDsDistinct(streams: seq<Stream>) {
    forall h, k | 0 <= h < k < |streams| && streams[h].id != 0 :: streams[h].id != streams[k].id
  }

  /** What holds of a run's subscriptions at every turn of its loop. */
  predicate StreamsSound(l: Live) {
    && !l.fault
    && (forall h | 0 <= h < |l.streams| ::
          StreamSound(l.streams[h], l.snapSeq, l.sim.core.feed.tick, l.sim.core.feed.cursor) && Linked(l, h))
    && IDsDistinct(l.streams)
    && (forall id | id in l.subs ::
          && 1 <= id <= l.nextSub && l.subs[id] < |l.streams|
          && l.streams[l.subs[id]].open && l.streams[l.subs[id]].id == id)
  }

  // ---- one stream ----

  lemma OfferedSound(st: Stream, frame: Frame, snapSeq: nat, tick: int, cursor: nat)
    requires StreamSound(st, snapSeq, tick, cursor)
    requires frame.sequence == snapSeq + 1 && frame.tick == tick && frame.foldedOffset == cursor
    ensures StreamSound(Offered(st, frame), snapSeq + 1, tick, cursor)
    ensures |Offered(st, frame).frames| + Offered(st, frame).lost == |st.frames| + st.lost + 1
  {
    if HasRoom(st) {
      var longer, n := st.frames + [frame], |st.frames|;
      forall i, j | 0 <= i < j < |longer| ensures Follows(longer[i], longer[j]) {
        if j < n {
          assert Follows(st.frames[i], st.frames[j]);
        } else if i < n - 1 {
          assert Follows(st.frames[i], st.frames[n - 1]);
        }
      }
    }
  }

  lemma SoundLater(st: Stream, snapSeq: nat, tick: int, cursor: nat, snapSeq': nat, tick': int, cursor': nat)
    requires StreamSound(st, snapSeq, tick, cursor) && snapSeq <= snapSeq' && tick <= tick' && cursor <= cursor'
    ensures StreamSound(st, snapSeq', tick', cursor')
  {
  }

  // ---- the loop's operations ----

  lemma PublishSound(l: Live)
    requires StreamsSound(l)
    ensures WellLinked(l) && StreamsSound(Publish(l))
  {
    hide Publish, StreamSound, Linked;
    if l.subs == map[] {
      NobodySubscribed(l);
    } else {
      var r, f := Publish(l), l.sim.core.feed;
      PublishKeepsLinks(l);
      forall h | 0 <= h < |l.streams|
        ensures StreamSound(r.streams[h], r.snapSeq, f.tick, f.cursor) && Linked(r, h)
        ensures r.streams[h].id == l.streams[h].id && r.streams[h].open == l.streams[h].open
      {
        PublishedStream(l, h);
        PublishedAt(l, h);
      }
    }
  }

  lemma NobodySubscribed(l: Live)
    requires l.subs == map[] && WellLinked(l)
    ensures Publish(l) == l
  {
  }

  lemma PublishKeepsLinks(l: Live)
    requires StreamsSound(l) && WellLinked(l)
    ensures var r := Publish(l);
            !r.fault && r.sim == l.sim && r.subs == l.subs && r.nextSub == l.nextSub && |r.streams| == |l.streams|
  {
    hide StreamSound, Linked, IDsDistinct;
  }

  lemma OpenExactlyWhenRegistered(l: Live, h: nat)
    requires StreamsSound(l) && h < |l.streams|
    ensures Registered(l, h) <==> l.streams[h].open
  {
    assert Linked(l, h);
    if l.streams[h].open { assert l.streams[h].id in l.subs.Keys; }
    hide StreamSound, IDsDistinct;
  }

  lemma PublishedAt(l: Live, h: nat)
    requires WellLinked(l) && l.subs != map[] && h < |l.streams|
    ensures var r := Publish(l);
            && r.snapSeq == l.snapSeq + 1 && r.subs == l.subs && r.nextSub == l.nextSub && |r.streams| == |l.streams|
            && r.streams[h] == if Registered(l, h)
                               then Offered(l.streams[h], FrameOf(l.(snapSeq := l.snapSeq + 1))) else l.streams[h]
  {
  }

  lemma PublishedStream(l: Live, h: nat)
    requires StreamsSound(l) && WellLinked(l) && l.subs != map[] && h < |l.streams|
    ensures var r := Publish(l);
            && |r.streams| == |l.streams|
            && StreamSound(r.streams[h], r.snapSeq, l.sim.core.feed.tick, l.sim.core.feed.cursor) && Linked(r, h)
  {
    var frame, f := FrameOf(l.(snapSeq := l.snapSeq + 1)), l.sim.core.feed;
    assert Linked(l, h) && StreamSound(l.streams[h], l.snapSeq, f.tick, f.cursor);
    OpenExactlyWhenRegistered(l, h);
    PublishedAt(l, h);
    hide StreamsSound, StreamSound, Publish, Registered;
    if l.streams[h].open {
      OfferedSound(l.streams[h], frame, l.snapSeq, f.tick, f.cursor);
    } else {
      SoundLater(l.streams[h], l.snapSeq, f.tick, f.cursor, l.snapSeq + 1, f.tick, f.cursor);
    }
  }

  lemma RemoveSubSound(l: Live, id: nat)
    requires StreamsSound(l)
    ensures WellLinked(l) && StreamsSound(RemoveSub(l, id))
  {
    if id in l.subs {
      var r, f := RemoveSub(l, id), l.sim.core.feed;
      forall h | 0 <= h < |r.streams| ensures StreamSound(r.streams[h], r.snapSeq, f.tick, f.cursor) && Linked(r, h) {
        assert StreamSound(l.streams[h], l.snapSeq, f.tick, f.cursor) && Linked(l, h);
      }
    }
  }

  lemma CloseSubsSound(l: Live, reason: CloseReason)
    requires StreamsSound(l)
    ensures WellLinked(l) && StreamsSound(CloseSubs(l, reason))
  {
    hide Ordered, Reached;
    var r, f := CloseSubs(l, reason), l.sim.core.feed;
    forall h | 0 <= h < |r.streams| ensures StreamSound(r.streams[h], r.snapSeq, f.tick, f.cursor) && Linked(r, h) {
      assert StreamSound(l.streams[h], l.snapSeq, f.tick, f.cursor) && Linked(l, h);
      if l.streams[h].open { assert l.streams[h].id in l.subs.Keys; }
    }
  }

  lemma AttachSound(l: Live, buffer: int)
    requires StreamsSound(l)
    ensures WellLinked(l) && StreamsSound(Attach(l, buffer))
  {
    var r, f, n := Attach(l, buffer), l.sim.core.feed, |l.streams|;
    forall h | 0 <= h < |r.streams| ensures StreamSound(r.streams[h], r.snapSeq, f.tick, f.cursor) && Linked(r, h) {
      if h < n { AttachKeeps(l, buffer, h); } else { AttachAdds(l, buffer); }
    }
    AttachIDs(l, buffer);
    AttachSubs(l, buffer);
    hide Attach, StreamSound, Linked, IDsDistinct;
  }

  lemma AttachKeeps(l: Live, buffer: int, h: nat)
    requires StreamsSound(l) && WellLinked(l) && h < |l.streams|
    ensures var r := Attach(l, buffer);
            StreamSound(r.streams[h], r.snapSeq, l.sim.core.feed.tick, l.sim.core.feed.cursor) && Linked(r, h)
  {
    assert StreamSound(l.streams[h], l.snapSeq, l.sim.core.feed.tick, l.sim.core.feed.cursor) && Linked(l, h);
    hide StreamSound;
  }

  lemma AttachAdds(l: Live, buffer: int)
    requires WellLinked(l)
    ensures var r, n := Attach(l, buffer), |l.streams|;
            && |r.streams| == n + 1
            && StreamSound(r.streams[n], r.snapSeq, l.sim.core.feed.tick, l.sim.core.feed.cursor) && Linked(r, n)
  {
  }

  lemma AttachIDs(l: Live, buffer: int)
    requires StreamsSound(l) && WellLinked(l)
    ensures IDsDistinct(Attach(l, buffer).streams)
  {
    var r := Attach(l, buffer);
    forall h, k | 0 <= h < k < |r.streams| && r.streams[h].id != 0 ensures r.streams[h].id != r.streams[k].id {
      assert Linked(l, h);
    }
  }

  lemma AttachSubs(l: Live, buffer: int)
    requires StreamsSound(l) && WellLinked(l)
    ensures var r := Attach(l, buffer);
            && !r.fault && r.sim == l.sim
            && forall id | id in r.subs ::
                 && 1 <= id <= r.nextSub && r.subs[id] < |r.streams|
                 && r.streams[r.subs[id]].open && r.streams[r.subs[id]].id == id
  {
    hide StreamSound, Linked, IDsDistinct;
  }

  lemma ReceiveSound(l: Live, h: nat)
    requires StreamsSound(l)
    ensures StreamsSound(Receive(l, h))
  {
    hide Ordered, Reached;
    var r, f := Receive(l, h), l.sim.core.feed;
    forall k | 0 <= k < |r.streams| ensures StreamSound(r.streams[k], r.snapSeq, f.tick, f.cursor) && Linked(r, k) {
      assert StreamSound(l.streams[k], l.snapSeq, f.tick, f.cursor) && Linked(l, k);
    }
  }

  lemma CloseStreamSound(l: Live, h: nat)
    requires StreamsSound(l)
    ensures WellLinked(l) && StreamsSound(CloseStream(l, h))
  {
    if h < |l.streams| && !l.streams[h].detached {
      MarkDetachedSound(l, h);
      RemoveSubSound(l.(streams := l.streams[h := l.streams[h].(detached := true)]), l.streams[h].id);
    }
  }

  lemma MarkDetachedSound(l: Live, h: nat)
    requires StreamsSound(l) && h < |l.streams|
    ensures StreamsSound(l.(streams := l.streams[h := l.streams[h].(detached := true)]))
  {
    var marked, f := l.(streams := l.streams[h := l.streams[h].(detached := true)]), l.sim.core.feed;
    forall k | 0 <= k < |l.streams|
      ensures StreamSound(marked.streams[k], l.snapSeq, f.tick, f.cursor) && Linked(marked, k)
    {
      assert StreamSound(l.streams[k], l.snapSeq, f.tick, f.cursor) && Linked(l, k);
    }
  }

  /** The simulation moving on leaves every stream as it was. */
  lemma SimSound(l: Live, s: Sim, state: Lifecycle, failed: bool)
    requires StreamsSound(l)
    requires l.sim.core.feed.tick <= s.core.feed.tick && l.sim.core.feed.cursor <= s.core.feed.cursor
    ensures StreamsSound(l.(sim := s, state := state, failed := failed))
  {
    var r, f, g := l.(sim := s, state := state, failed := failed), l.sim.core.feed, s.core.feed;
    forall h | 0 <= h < |r.streams| ensures StreamSound(r.streams[h], r.snapSeq, g.tick, g.cursor) && Linked(r, h) {
      assert StreamSound(l.streams[h], l.snapSeq, f.tick, f.cursor) && Linked(l, h);
      SoundLater(l.streams[h], l.snapSeq, f.tick, f.cursor, l.snapSeq, g.tick, g.cursor);
    }
  }

  lemma SaveLiveSound(l: Live, state: Lifecycle, io: SaveIO)
    requires StreamsSound(l)
    ensures StreamsSound(SaveLive(WithState(l, state), io))
  {
    var s := l.sim.(state := state);
    SaveKeeps(s, io);
    var r := Save(s, io);
    hide Save, StreamsSound;
    SimSound(l, r.0, state, l.failed || !r.1);
  }

  lemma FinishSound(l: Live, io: SaveIO)
    requires StreamsSound(l)
    ensures WellLinked(l) && StreamsSound(Finish(l, io))
  {
    SaveLiveSound(l, Finished, io);
    var saved := SaveLive(WithState(l, Finished), io);
    PublishSound(saved);
    CloseSubsSound(Publish(saved), RunFinished);
    hide SaveLive, Publish, CloseSubs;
  }

  lemma StepMovesOn(s: Sim, io: StepIO)
    requires ValidSim(s)
    ensures s.core.feed.tick <= Step(s, io).0.core.feed.tick && s.core.feed.cursor <= Step(s, io).0.core.feed.cursor
  {
    SaveKeeps(Ticked(s), io.save);
    hide Save, Batch, SnapshotDue;
  }

  lemma AdvanceSound(l: Live, step: StepIO, final: SaveIO)
    requires ValidLive(l) && StreamsSound(l)
    ensures StreamsSound(Advance(l, step, final))
  {
    if l.state == Running {
      StepMovesOn(l.sim, step);
      var r := Step(l.sim, step);
      hide Step, StreamsSound, Publish, Finish;
      if !r.1 {
        SimSound(l, r.0, l.state, true);
        FinishSound(l.(sim := r.0, failed := true), final);
      } else {
        SimSound(l, r.0, l.state, l.failed);
        PublishSound(l.(sim := r.0));
        FinishSound(Publish(l.(sim := r.0)), final);
      }
    }
  }

  lemma SetPausedSound(l: Live, paused: bool, io: SaveIO)
    requires ValidLive(l) && StreamsSound(l)
    ensures StreamsSound(SetPaused(l, paused, io))
  {
    if l.state != Finished {
      SaveLiveSound(l, if paused then Paused else Running, io);
      PublishSound(SaveLive(WithState(l, if paused then Paused else Running), io));
      hide SaveLive, Publish, StreamsSound;
    }
  }

  lemma UpdateSound(l: Live, c: Controls)
    requires StreamsSound(l)
    ensures StreamsSound(UpdateControls(l, c))
  {
    SimSound(l, Staging(l.sim, c), l.state, l.failed);
    hide StreamsSound;
  }

  lemma ObeySound(l: Live, cmd: Command)
    requires ValidLive(l) && StreamsSound(l)
    ensures StreamsSound(Obey(l, cmd))
  {
    match cmd
    case TickClock(step, final) => AdvanceSound(l, step, final); hide StreamsSound, Advance;
    case Pause(io) => SetPausedSound(l, true, io); hide StreamsSound, SetPaused;
    case Unpause(io) => SetPausedSound(l, false, io); hide StreamsSound, SetPaused;
    case FinishRun(io) => FinishSound(l, io); hide StreamsSound, Finish;
    case Update(c) => UpdateSound(l, c); hide StreamsSound, UpdateControls;
    case Quit =>
      CloseSubsSound(l, RegistryShutdown);
      QuitSound(CloseSubs(l, RegistryShutdown));
      hide StreamsSound, CloseSubs;
    case Close(h) => CloseStreamSound(l, h); hide StreamsSound, CloseStream;
    case Take(h) => ReceiveSound(l, h); hide StreamsSound, Receive;
    case Subscribe(buffer) => AttachSound(l, buffer); hide StreamsSound, Attach;
    case CatchUp(buffer, from) => AttachSound(l, buffer); hide StreamsSound, Attach;
    case Query =>
  }

  lemma QuitSound(l: Live)
    requires StreamsSound(l)
    ensures StreamsSound(l.(stopped := true))
  {
    var r, f := l.(stopped := true), l.sim.core.feed;
    forall h | 0 <= h < |r.streams| ensures StreamSound(r.streams[h], r.snapSeq, f.tick, f.cursor) && Linked(r, h) {
      assert StreamSound(l.streams[h], l.snapSeq, f.tick, f.cursor) && Linked(l, h);
    }
  }

  // ---- every run ----

  /** In every run of subscribing, publishing, closing, finishing and shutting down, whatever the disk does: no closed
      channel is sent to or closed again and no first frame blocks; identifiers are never reused; each stream's
      frames have strictly increasing sequence and non-decreasing tick and offset; and while a stream is open, the
      frames put on it after the first plus those dropped for it are all the frames published since it attached. */
  lemma {:induction false} StreamsStaySound(l: Live, cmds: seq<Command>)
    requires ValidLive(l) && StreamsSound(l)
    ensures StreamsSound(ObeyAll(l, cmds))
  {
    if cmds != [] {
      StreamsStaySound(l, cmds[..|cmds| - 1]);
      hide StreamsSound, Obey;
      ObeySound(ObeyAll(l, cmds[..|cmds| - 1]), cmds[|cmds| - 1]);
    }
  }

  /** It holds of every run there is: over any simulation, started or revived, whatever its disk holds. */
  lemma StreamsAlwaysSound(s: Sim, cmds: seq<Command>)
    requires ValidSim(s)
    ensures StreamsSound(ObeyAll(LiveOver(s), cmds))
  {
    StreamsStaySound(LiveOver(s), cmds);
    hide ObeyAll;
  }

  /** Closing a subscription that was never registered detaches nobody. */
  lemma CloseUnregisteredIsHarmless(l: Live, h: nat)
    requires ValidLive(l) && StreamsSound(l) && h < |l.streams| && l.streams[h].id == 0
    ensures var r := CloseStream(l, h);
            && r.subs == l.subs && |r.streams| == |l.streams|
            && forall k | 0 <= k < |l.streams| && k != h :: r.streams[k] == l.streams[k]
  {
  }

  /** Closing twice is closing once, and closing one stream leaves every other open or closed as it was. */
  lemma CloseOnlyDetachesItself(l: Live, h: nat)
    requires ValidLive(l) && StreamsSound(l) && h < |l.streams|
    ensures var r := CloseStream(l, h);
            && |r.streams| == |l.streams| && WellLinked(r) && CloseStream(r, h) == r
            && (!l.streams[h].detached ==> !r.streams[h].open)
            && forall k | 0 <= k < |l.streams| && k != h :: r.streams[k] == l.streams[k]
  {
    assert Linked(l, h);
    if l.streams[h].id in l.subs {
      var k := l.subs[l.streams[h].id];
      assert l.streams[k].id == l.streams[h].id;
    }
  }
}
