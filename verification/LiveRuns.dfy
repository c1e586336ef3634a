/** A live run as an object: its loop's commands change the simulation, the lifecycle and the subscriptions in place.
    That the streams are sound is part of its invariant, so no channel operation here can fault. */
module LiveRuns {
  import opened Events
  import opened ControlRules
  import opened Processing
  import opened Feeds
  import opened Snapshots
  import opened Simulations
  import opened Engine
  import opened Streams
  import opened Wrappers

  /** Every registered subscription names an open channel that carries its identifier. */
  predicate AllOpen(subs: map<nat, nat>, streams: seq<Stream>) {
    forall id | id in subs :: subs[id] < |streams| && streams[subs[id]].id == id && streams[subs[id]].open
  }

  /** Each registered channel was offered the frame, and no other was touched. */
  predicate FannedOut(subs: map<nat, nat>, before: seq<Stream>, after: seq<Stream>, frame: Frame) {
    && |after| == |before|
    && forall h | 0 <= h < |before| :: after[h] == if h in subs.Values then Offered(before[h], frame) else before[h]
  }

  /** The subscriptions served so far in one fan-out, with and without room. */
  function Served(subs: map<nat, nat>, streams: seq<Stream>, todo: set<nat>, room: bool): set<nat>
    requires AllOpen(subs, streams)
  {
    set id | id in subs && id !in todo && HasRoom(streams[subs[id]]) == room
  }

  lemma ServedGrows(subs: map<nat, nat>, streams: seq<Stream>, todo: set<nat>, id: nat, room: bool)
    requires AllOpen(subs, streams)
    requires id in todo && id in subs
    ensures |Served(subs, streams, todo - {id}, room)|
         == |Served(subs, streams, todo, room)| + if HasRoom(streams[subs[id]]) == room then 1 else 0
  {
    var before, after := Served(subs, streams, todo, room), Served(subs, streams, todo - {id}, room);
    if HasRoom(streams[subs[id]]) == room {
      assert after == before + {id};
    } else {
      assert after == before;
    }
  }

  /** The same, for the channels of the subscriptions not still to do. */
  predicate PartlyFannedOut(subs: map<nat, nat>, before: seq<Stream>, after: seq<Stream>, todo: set<nat>,
                            frame: Frame) {
    && |after| == |before|
    && forall h | 0 <= h < |before| ::
         after[h] == if before[h].id in subs && subs[before[h].id] == h && before[h].id !in todo
                     then Offered(before[h], frame) else before[h]
  }

  lemma FanOutStarts(subs: map<nat, nat>, streams: seq<Stream>, frame: Frame)
    requires AllOpen(subs, streams)
    ensures PartlyFannedOut(subs, streams, streams, subs.Keys, frame)
    ensures Served(subs, streams, subs.Keys, true) == {} && Served(subs, streams, subs.Keys, false) == {}
  {
  }

  lemma FanOutStep(subs: map<nat, nat>, before: seq<Stream>, after: seq<Stream>, todo: set<nat>, id: nat, frame: Frame)
    requires AllOpen(subs, before) && PartlyFannedOut(subs, before, after, todo, frame) && id in todo && id in subs
    ensures subs[id] < |after| && after[subs[id]] == before[subs[id]] && after[subs[id]].open
    ensures PartlyFannedOut(subs, before, after[subs[id] := Offered(after[subs[id]], frame)], todo - {id}, frame)
    ensures var room := HasRoom(after[subs[id]]);
            && |Served(subs, before, todo - {id}, true)| == |Served(subs, before, todo, true)| + (if room then 1 else 0)
            && |Served(subs, before, todo - {id}, false)|
               == |Served(subs, before, todo, false)| + (if room then 0 else 1)
  {
    ServedGrows(subs, before, todo, id, true);
    ServedGrows(subs, before, todo, id, false);
    hide Served, Offered, HasRoom;
  }

  lemma FanOutEnds(subs: map<nat, nat>, before: seq<Stream>, after: seq<Stream>, frame: Frame)
    requires AllOpen(subs, before) && PartlyFannedOut(subs, before, after, {}, frame)
    ensures FannedOut(subs, before, after, frame)
  {
    hide Offered;
    forall h | 0 <= h < |before| ensures h in subs.Values <==> before[h].id in subs && subs[before[h].id] == h {
      if h in subs.Values {
        var id :| id in subs && subs[id] == h;
      }
    }
  }

  class LiveRun {
    const sim: Simulation
    var state: Lifecycle
    var failed: bool
    var streams: seq<Stream>
    var subs: map<nat, nat>
    var nextSub: nat
    var snapSeq: nat
    var sent: nat
    var dropped: nat
    var stopped: bool

    ghost function View(): Live
      reads this, sim, sim.garden, sim.garden.organisms, sim.prod, sim.log, sim.proc, sim.proc.garden,
            sim.proc.garden.organisms
    {
      Live(sim.View(), state, failed, streams, subs, nextSub, snapSeq, sent, dropped, stopped, false)
    }

    ghost predicate Valid()
      reads this, sim, sim.garden, sim.garden.organisms, sim.prod, sim.log, sim.proc, sim.proc.garden,
            sim.proc.garden.organisms
    {
      sim.Valid() && StreamsSound(View())
    }

    constructor (s: Simulation)
      requires s.Valid()
      ensures Valid() && sim == s && View() == LiveOver(s.View())
    {
      sim := s;
      state := s.state;
      failed, streams, subs, nextSub := false, [], map[], 0;
      snapSeq, sent, dropped, stopped := 0, 0, 0, false;
    }

    /** Offers the current frame to every subscription; whoever has no room loses it. */
    method Publish()
      requires Valid()
      modifies this`streams, this`snapSeq, this`sent, this`dropped
      ensures Valid() && View() == Engine.Publish(old(View()))
    {
      hide StreamsSound, AllOpen, Served, FannedOut, Engine.Publish, ValidFeed, AllValid;
      ghost var l := View();
      PublishSound(l);
      OpenSubs(l);
      NothingToPublish(l);
      if subs == map[] { return; }
      snapSeq := snapSeq + 1;
      var frame := Frame(snapSeq, sim.tick, sim.revision, state, sim.garden.organisms[..], sim.log.cursor);
      FanOut(frame);
      PublishIs(l, frame, streams, sent, dropped);
    }

    /** Offers the frame to every subscription, in no particular order. */
    method FanOut(frame: Frame)
      requires AllOpen(subs, streams)
      modifies this`streams, this`sent, this`dropped
      ensures FannedOut(subs, old(streams), streams, frame)
      ensures sent == old(sent) + |Served(subs, old(streams), {}, true)|
      ensures dropped == old(dropped) + |Served(subs, old(streams), {}, false)|
    {
      var todo := subs.Keys;
      ghost var before := streams;
      FanOutStarts(subs, streams, frame);
      hide AllOpen, FannedOut, PartlyFannedOut, Served;
      while todo != {}
        invariant todo <= subs.Keys
        invariant PartlyFannedOut(subs, before, streams, todo, frame)
        invariant sent == old(sent) + |Served(subs, before, todo, true)|
        invariant dropped == old(dropped) + |Served(subs, before, todo, false)|
        decreases todo
      {
        var id :| id in todo;
        FanOutStep(subs, before, streams, todo, id, frame);
        var h := subs[id];
        assert streams[h].open;
        if HasRoom(streams[h]) {
          streams := streams[h := streams[h].(frames := streams[h].frames + [frame])];
          sent := sent + 1;
        } else {
          streams := streams[h := streams[h].(lost := streams[h].lost + 1)];
          dropped := dropped + 1;
        }
        todo := todo - {id};
      }
      FanOutEnds(subs, before, streams, frame);
    }

    /** Detaches one subscription and closes its channel, if it is registered. */
    method RemoveSub(id: nat)
      requires Valid()
      modifies this`streams, this`subs
      ensures Valid() && View() == Engine.RemoveSub(old(View()), id)
    {
      RemoveSubSound(View(), id);
      if id !in subs { return; }
      var h := subs[id];
      assert streams[h].open;
      subs := subs - {id};
      streams := streams[h := Closed(streams[h])];
    }

    /** Detaches every subscription, telling each why. */
    method CloseSubs(reason: CloseReason)
      requires Valid()
      modifies this`streams, this`subs
      ensures Valid() && View() == Engine.CloseSubs(old(View()), reason)
    {
      CloseSubsSound(View(), reason);
      OpenSubs(View());
      hide StreamsSound;
      CloseAll(reason);
      assert streams == Engine.CloseSubs(old(View()), reason).streams;
    }

    method CloseAll(reason: CloseReason)
      requires AllOpen(subs, streams)
      modifies this`streams, this`subs
      ensures subs == map[] && |streams| == |old(streams)|
      ensures forall h | 0 <= h < |streams| ::
                streams[h] == if h in old(subs).Values
                              then Closed(old(streams)[h]).(reason := reason) else old(streams)[h]
    {
      while subs != map[]
        invariant forall id | id in subs :: id in old(subs) && subs[id] == old(subs)[id]
        invariant |streams| == |old(streams)|
        invariant forall h | 0 <= h < |streams| ::
                    streams[h] == if old(streams)[h].id in old(subs) && old(subs)[old(streams)[h].id] == h
                                     && old(streams)[h].id !in subs
                                  then Closed(old(streams)[h]).(reason := reason) else old(streams)[h]
        decreases subs.Keys
      {
        var id :| id in subs;
        var h := subs[id];
        assert streams[h].open;
        subs := subs - {id};
        streams := streams[h := Closed(streams[h]).(reason := reason)];
      }
      forall h | 0 <= h < |streams|
        ensures h in old(subs).Values <==> old(streams)[h].id in old(subs) && old(subs)[old(streams)[h].id] == h
      {
        if h in old(subs).Values {
          var id :| id in old(subs) && old(subs)[id] == h;
        }
      }
    }

    /** Attaches a stream holding the current frame; a finished run's is closed at once. */
    method Attach(buffer: int)
      requires Valid()
      modifies this`streams, this`subs, this`nextSub, this`sent
      ensures Valid() && View() == Engine.Attach(old(View()), buffer)
    {
      hide StreamsSound, ValidFeed, AllValid;
      AttachSound(View(), buffer);
      var room: nat := if buffer <= 0 then DEFAULT_SUBSCRIBER_BUFFER else buffer;
      var frame := Frame(snapSeq, sim.tick, sim.revision, state, sim.garden.organisms[..], sim.log.cursor);
      var st := Stream(0, room, [frame], 0, true, RunFinished, snapSeq, 0, false);
      sent := sent + 1;
      if state == Finished {
        streams := streams + [Closed(st)];
      } else {
        nextSub := nextSub + 1;
        subs := subs[nextSub := |streams|];
        streams := streams + [st.(id := nextSub)];
      }
      assert View() == Engine.Attach(old(View()), buffer);
      hide Engine.Attach;
    }

    /** Attaches a reconnecting client and hands it what it missed, or refuses an offset the log cannot serve. */
    method Resume(buffer: int, from: int) returns (missed: Option<seq<Event>>)
      requires Valid() && !stopped
      modifies this`streams, this`subs, this`nextSub, this`sent
      ensures Valid() && View() == Obey(old(View()), CatchUp(buffer, from))
      ensures missed.Some? <==> 0 <= from <= |sim.log.records|
      ensures missed.Some? ==> missed.value == sim.log.records[from..]
      ensures missed.None? ==> View() == old(View())
    {
      missed := sim.log.Since(from);
      if missed.Some? { Attach(buffer); }
    }

    /** Detaches a subscription, once. */
    method Close(h: nat)
      requires Valid()
      modifies this`streams, this`subs
      ensures Valid() && View() == CloseStream(old(View()), h)
    {
      hide Engine.RemoveSub, ValidFeed, AllValid;
      if h >= |streams| || streams[h].detached { return; }
      MarkDetachedSound(View(), h);
      var id := streams[h].id;
      hide StreamsSound;
      streams := streams[h := streams[h].(detached := true)];
      RemoveSub(id);
    }

    /** The registry going away closes every stream; the run itself is not finished. */
    method Shutdown()
      requires Valid()
      modifies this`streams, this`subs, this`stopped
      ensures Valid() && View() == Engine.CloseSubs(old(View()), RegistryShutdown).(stopped := true)
    {
      hide StreamsSound, Engine.CloseSubs, ValidFeed, AllValid;
      CloseSubs(RegistryShutdown);
      QuitSound(View());
      stopped := true;
    }

    method UpdateControls(c: Controls) returns (r: Option<(nat, int)>)
      requires Valid()
      modifies sim`revision, sim`pending
      ensures Valid() && View() == Engine.UpdateControls(old(View()), c)
      ensures r == if old(state) != Finished && ValidControls(c) then Some((sim.revision, sim.tick)) else None
    {
      UpdateSound(View(), c);
      hide StreamsSound, ValidControls;
      if state == Finished { return None; }
      var accepted := sim.SetControls(c);
      if accepted.Failure? { return None; }
      return Some((accepted.value, sim.tick));
    }

    /** Records a state and saves it; a failed write is remembered. */
    method Record(s: Lifecycle, io: SaveIO)
      requires Valid()
      modifies this`state, this`failed, sim`state, sim`committed, sim`saves, sim`retries, sim`failures, sim.log`marks
      ensures Valid() && View() == SaveLive(WithState(old(View()), s), io)
    {
      hide StreamsSound, Save, ValidFeed, AllValid;
      SaveLiveSound(View(), s, io);
      state := s;
      sim.SetState(s);
      var ok := sim.Save(io);
      if !ok { failed := true; }
    }

    method SetPaused(paused: bool, io: SaveIO) returns (ok: bool)
      requires Valid()
      modifies this`state, this`failed, this`streams, this`snapSeq, this`sent, this`dropped,
        sim`state, sim`committed, sim`saves, sim`retries, sim`failures, sim.log`marks
      ensures Valid() && View() == Engine.SetPaused(old(View()), paused, io)
      ensures ok <==> old(state) != Finished
    {
      hide StreamsSound, SaveLive, WithState, Engine.Publish;
      if state == Finished { return false; }
      Record(if paused then Paused else Running, io);
      Publish();
      return true;
    }

    /** Ends the run: a final snapshot, a last frame, and every stream closed. Idempotent. */
    method Finish(io: SaveIO)
      requires Valid()
      modifies this, sim`state, sim`committed, sim`saves, sim`retries, sim`failures, sim.log`marks
      ensures Valid() && View() == Engine.Finish(old(View()), io)
    {
      hide StreamsSound, SaveLive, WithState, Engine.Publish, Engine.CloseSubs;
      if state == Finished { return; }
      Record(Finished, io);
      Publish();
      CloseSubs(RunFinished);
    }

    /** One tick of the clock. */
    method Advance(step: StepIO, final: SaveIO)
      requires Valid()
      modifies this, sim, sim.prod, sim.log, sim.proc, sim.garden.organisms
      ensures Valid() && View() == Engine.Advance(old(View()), step, final)
    {
      hide StreamsSound, Engine.Publish, Engine.Finish, Step, ValidFeed, AllValid;
      if state != Running { return; }
      ghost var before := View();
      StepMovesOn(before.sim, step);
      SimSound(before, Step(before.sim, step).0, before.state, before.failed);
      SimSound(before, Step(before.sim, step).0, before.state, true);
      var ok := sim.Step(step);
      if !ok {
        failed := true;
        Finish(final);
        return;
      }
      Publish();
      if sim.maxTicks > 0 && sim.tick >= sim.maxTicks {
        Finish(final);
      }
    }
  }

  lemma OpenSubs(l: Live)
    requires StreamsSound(l)
    ensures AllOpen(l.subs, l.streams)
  {
  }

  lemma NothingToPublish(l: Live)
    requires WellLinked(l)
    ensures l.subs == map[] ==> Engine.Publish(l) == l
  {
  }

  /** What a fan-out must have done to be the specified one. */
  lemma PublishIs(l: Live, frame: Frame, streams: seq<Stream>, sent: nat, dropped: nat)
    requires AllOpen(l.subs, l.streams) && l.subs != map[] && frame == FrameOf(l.(snapSeq := l.snapSeq + 1))
    requires FannedOut(l.subs, l.streams, streams, frame)
    requires sent == l.sent + |Served(l.subs, l.streams, {}, true)|
    requires dropped == l.dropped + |Served(l.subs, l.streams, {}, false)|
    ensures l.(snapSeq := l.snapSeq + 1, streams := streams, sent := sent, dropped := dropped) == Engine.Publish(l)
  {
    hide Served, Engine.Publish, FrameOf, HasRoom, Offered;
    PublishedCounts(l);
    PublishedStreams(l, frame, streams);
    hide FannedOut, AllOpen;
  }

  lemma PublishedCounts(l: Live)
    requires AllOpen(l.subs, l.streams) && l.subs != map[]
    ensures var r := Engine.Publish(l);
            && r == l.(snapSeq := l.snapSeq + 1, streams := r.streams, sent := r.sent, dropped := r.dropped)
            && r.sent == l.sent + |Served(l.subs, l.streams, {}, true)|
            && r.dropped == l.dropped + |Served(l.subs, l.streams, {}, false)|
  {
    hide HasRoom, Offered;
    assert Served(l.subs, l.streams, {}, true) == set id | id in l.subs && HasRoom(l.streams[l.subs[id]]);
    assert Served(l.subs, l.streams, {}, false) == set id | id in l.subs && !HasRoom(l.streams[l.subs[id]]);
  }

  lemma PublishedStreams(l: Live, frame: Frame, streams: seq<Stream>)
    requires WellLinked(l) && l.subs != map[] && frame == FrameOf(l.(snapSeq := l.snapSeq + 1))
    requires FannedOut(l.subs, l.streams, streams, frame)
    ensures streams == Engine.Publish(l).streams
  {
    hide HasRoom, Offered, FrameOf;
  }
}
