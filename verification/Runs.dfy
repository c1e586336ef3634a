/** Runs that never stopped: what holds after every tick, whatever the controls, the capacity and the seed. */
module Runs {
  import opened Events
  import opened ControlRules
  import opened Gardens
  import opened Processing
  import opened Production
  import opened History
  import opened Feeds

  /** The control changes the coming tick will record. */
  function StagedChanges(staged: seq<Staged>, tick: int): seq<Change> {
    seq(|staged|, i requires 0 <= i < |staged| => Change(staged[i].revision, tick))
  }

  predicate StagedInOrder(recorded: nat, staged: seq<Staged>) {
    forall i | 0 <= i < |staged| :: staged[i].revision == recorded + i + 1
  }

  /** The shape of a run between ticks: a legal log with one block per completed tick, revisions 1..k in order,
      the producer's count on the last record, and the clock one past it. */
  predicate OnTrack(run: Run, f: Feed) {
    && ValidFeed(f)
    && Legal(run, f.records) && Numbered(f.records) && Dense(f.records)
    && LastSequence(f.records) == f.emitted && LastTick(f.records) == f.tick - 1
    && f.published == |f.records|
    && f.revision == |Changes(f.records)| + |f.staged|
    && StagedInOrder(|Changes(f.records)|, f.staged)
  }

  lemma FreshOnTrack(run: Run, c: Controls)
    requires ValidControls(c)
    ensures OnTrack(run, FreshFeed(c))
  {
  }

  lemma StageOnTrack(run: Run, f: Feed, c: Controls)
    requires OnTrack(run, f) && ValidControls(c)
    ensures OnTrack(run, Stage(f, c))
  {
  }

  lemma {:induction false} StageAllOnTrack(run: Run, f: Feed, cs: seq<Controls>)
    requires OnTrack(run, f) && ValidUpdates(cs)
    ensures OnTrack(run, StageAll(f, cs))
  {
    if cs != [] {
      StageAllOnTrack(run, f, cs[..|cs| - 1]);
      StageOnTrack(run, StageAll(f, cs[..|cs| - 1]), cs[|cs| - 1]);
    }
  }

  lemma {:induction false} ControlRecordsNumbered(run: Run, rs: seq<Event>, tick: int, emitted: nat,
                                                  staged: seq<Staged>)
    requires Numbered(rs) && StagedInOrder(|Changes(rs)|, staged)
    ensures var longer := rs + ControlRecords(run, tick, emitted, staged);
            Numbered(longer) && Changes(longer) == Changes(rs) + StagedChanges(staged, tick)
  {
    if staged == [] {
      assert rs + ControlRecords(run, tick, emitted, staged) == rs;
    } else {
      var k := |staged| - 1;
      var e := ControlEvent(run, emitted + k + 1, tick, staged[k].revision);
      ControlRecordsNumbered(run, rs, tick, emitted, staged[..k]);
      var before := rs + ControlRecords(run, tick, emitted, staged[..k]);
      ConcatAssociates(rs, ControlRecords(run, tick, emitted, staged[..k]), [e]);
      StagedChangesSnoc(staged, tick);
      NumberedSnoc(before, e);
      ChangesSnoc(before, e);
      ChangesAssociate(Changes(rs), StagedChanges(staged[..k], tick), [Change(staged[k].revision, tick)]);
    }
  }

  lemma StagedChangesSnoc(staged: seq<Staged>, tick: int)
    requires staged != []
    ensures var k := |staged| - 1;
            StagedChanges(staged, tick) == StagedChanges(staged[..k], tick) + [Change(staged[k].revision, tick)]
  {
  }

  lemma ChangesAssociate(a: seq<Change>, b: seq<Change>, c: seq<Change>)
    ensures a + (b + c) == (a + b) + c
  {
  }

  predicate NoControls(es: seq<Event>) {
    forall i | 0 <= i < |es| :: !IsControl(es[i])
  }

  lemma {:induction false} OrganismsKeepNumbering(rs: seq<Event>, es: seq<Event>)
    requires Numbered(rs) && NoControls(es)
    ensures Numbered(rs + es) && Changes(rs + es) == Changes(rs)
  {
    if es == [] {
      assert rs + es == rs;
    } else {
      var k := |es| - 1;
      OrganismsKeepNumbering(rs, es[..k]);
      assert rs + es == (rs + es[..k]) + [es[k]];
      NumberedSnoc(rs + es[..k], es[k]);
      ChangesSnoc(rs + es[..k], es[k]);
    }
  }

  lemma {:induction false} RedeliveriesNoControls(every: nat, es: seq<Event>)
    requires NoControls(es)
    ensures NoControls(WithRedeliveries(every, es))
  {
    if es != [] { RedeliveriesNoControls(every, es[..|es| - 1]); }
  }

  lemma TickEventsNoControls(run: Run, tick: nat, emitted: nat, c: Controls)
    requires ValidRun(run) && ValidControls(c)
    ensures NoControls(TickEvents(run, tick, emitted, c))
  {
    var es := TickEvents(run, tick, emitted, c);
    DrawnAreProduced(run, tick, emitted, c, c.eventsPerTick);
    forall i | 0 <= i < |es| ensures !IsControl(es[i]) {
      assert ProducedAt(run, es[i], emitted + i + 1, tick);
    }
  }

  /** A tick records exactly the updates staged for it, in order, at its own tick. */
  lemma BatchNumbered(run: Run, f: Feed)
    requires ValidRun(run) && ValidFeed(f)
    requires Numbered(f.records) && StagedInOrder(|Changes(f.records)|, f.staged)
    ensures Numbered(f.records + Batch(run, f))
    ensures Changes(f.records + Batch(run, f)) == Changes(f.records) + StagedChanges(f.staged, f.tick)
  {
    hide ValidControls, ControlRecords, WithRedeliveries, Draw, Changes, Numbered, StagedChanges, StagedInOrder;
    GoverningValid(f);
    var controls := ControlRecords(run, f.tick, f.emitted, f.staged);
    var events := TickEvents(run, f.tick, f.emitted + |f.staged|, Governing(f));
    var block := WithRedeliveries(run.duplicateEvery, events);
    ControlRecordsNumbered(run, f.records, f.tick, f.emitted, f.staged);
    TickEventsNoControls(run, f.tick, f.emitted + |f.staged|, Governing(f));
    RedeliveriesNoControls(run.duplicateEvery, events);
    OrganismsKeepNumbering(f.records + controls, block);
    ConcatAssociates(f.records, controls, block);
  }

  // ---- revisions that only rise ----

  /** Every revision staged or still to be given out is higher than those recorded. */
  predicate Rising(f: Feed) {
    && Ascending(f.records) && |f.staged| <= f.revision
    && LastRevision(f.records) <= f.revision - |f.staged|
    && StagedInOrder(f.revision - |f.staged|, f.staged)
  }

  lemma {:induction false} ControlRecordsRise(run: Run, rs: seq<Event>, tick: int, emitted: nat, staged: seq<Staged>,
                                              below: nat)
    requires Ascending(rs) && LastRevision(rs) <= below && StagedInOrder(below, staged)
    ensures var longer := rs + ControlRecords(run, tick, emitted, staged);
            Ascending(longer) && LastRevision(longer) <= below + |staged|
  {
    hide Ascending, LastRevision;
    if staged == [] {
      assert rs + ControlRecords(run, tick, emitted, staged) == rs;
    } else {
      var k := |staged| - 1;
      var e := ControlEvent(run, emitted + k + 1, tick, staged[k].revision);
      ControlRecordsRise(run, rs, tick, emitted, staged[..k], below);
      ConcatAssociates(rs, ControlRecords(run, tick, emitted, staged[..k]), [e]);
      AscendingSnoc(rs + ControlRecords(run, tick, emitted, staged[..k]), e);
    }
  }

  lemma {:induction false} OrganismsKeepRising(rs: seq<Event>, es: seq<Event>)
    requires Ascending(rs) && NoControls(es)
    ensures Ascending(rs + es) && LastRevision(rs + es) == LastRevision(rs)
  {
    if es == [] {
      assert rs + es == rs;
    } else {
      var k := |es| - 1;
      OrganismsKeepRising(rs, es[..k]);
      assert rs + es == (rs + es[..k]) + [es[k]];
      AscendingSnoc(rs + es[..k], es[k]);
    }
  }

  /** A tick's block keeps the recorded revisions rising, up to the last one given out. */
  lemma BatchRises(run: Run, f: Feed)
    requires ValidRun(run) && ValidFeed(f) && Rising(f)
    ensures Ascending(f.records + Batch(run, f)) && LastRevision(f.records + Batch(run, f)) <= f.revision
  {
    hide ValidControls, ControlRecords, WithRedeliveries, Draw, Ascending, LastRevision, StagedInOrder;
    GoverningValid(f);
    var controls := ControlRecords(run, f.tick, f.emitted, f.staged);
    var events := TickEvents(run, f.tick, f.emitted + |f.staged|, Governing(f));
    var block := WithRedeliveries(run.duplicateEvery, events);
    ControlRecordsRise(run, f.records, f.tick, f.emitted, f.staged, f.revision - |f.staged|);
    TickEventsNoControls(run, f.tick, f.emitted + |f.staged|, Governing(f));
    RedeliveriesNoControls(run.duplicateEvery, events);
    OrganismsKeepRising(f.records + controls, block);
    ConcatAssociates(f.records, controls, block);
  }

  // ---- runs stay on track ----

  lemma BatchDense(rs: seq<Event>, b: seq<Event>, tick: nat)
    requires Dense(rs) && LastTick(rs) == tick - 1 && AllAt(b, tick)
    ensures Dense(rs + b)
  {
  }

  lemma StepOnTrack(run: Run, f: Feed)
    requires ValidRun(run) && OnTrack(run, f)
    ensures OnTrack(run, StepFeed(run, f))
    ensures Changes(StepFeed(run, f).records) == Changes(f.records) + StagedChanges(f.staged, f.tick)
  {
    BatchLegal(run, f);
    BatchAt(run, f);
    BatchNumbered(run, f);
    BatchDense(f.records, Batch(run, f), f.tick);
  }

  /** Whatever the plan, a run stays on track. */
  lemma {:induction false} OnTrackAfter(run: Run, f: Feed, plan: Plan)
    requires ValidRun(run) && OnTrack(run, f) && ValidPlan(plan)
    ensures OnTrack(run, FeedAfter(run, f, plan))
  {
    if plan != [] {
      var k := |plan| - 1;
      OnTrackAfter(run, f, plan[..k]);
      StageAllOnTrack(run, FeedAfter(run, f, plan[..k]), plan[k]);
      StepOnTrack(run, StageAll(FeedAfter(run, f, plan[..k]), plan[k]));
    }
  }

  /** A run that started fresh: on track, and its projection is the replay of what was delivered. */
  predicate Faithful(run: Run, c: Core) {
    && OnTrack(run, c.feed)
    && c.proj == Replay(run.organisms, c.feed.records[..c.feed.cursor])
  }

  lemma ReplayExtends(n: nat, rs: seq<Event>, k: nat, longer: seq<Event>, j: nat)
    requires rs <= longer && k <= |rs| && k <= j <= |longer|
    ensures Replay(n, longer[..j]) == Fold(Replay(n, rs[..k]), longer[k..j])
  {
    assert longer[..j] == rs[..k] + longer[k..j];
    FoldConcat(Starting(FreshPlot(n)), rs[..k], longer[k..j]);
  }

  lemma StepFaithful(run: Run, c: Core)
    requires ValidRun(run) && Faithful(run, c)
    ensures Faithful(run, StepCore(run, c))
  {
    StepOnTrack(run, c.feed);
    var r := StepFeed(run, c.feed);
    hide StepFeed;
    ReplayExtends(run.organisms, c.feed.records, c.feed.cursor, r.records, r.cursor);
  }

  lemma {:induction false} FaithfulAfter(run: Run, controls: Controls, plan: Plan)
    requires ValidRun(run) && ValidControls(controls) && ValidPlan(plan)
    ensures Faithful(run, CoreAfter(run, FreshCore(run, controls), plan))
  {
    var c := FreshCore(run, controls);
    if plan == [] {
      assert c.feed.records[..c.feed.cursor] == [];
    } else {
      var k := |plan| - 1;
      FaithfulAfter(run, controls, plan[..k]);
      var before := CoreAfter(run, c, plan[..k]);
      StageAllOnTrack(run, before.feed, plan[k]);
      StepFaithful(run, before.(feed := StageAll(before.feed, plan[k])));
    }
  }

  /** Everything published was received or is pending; nothing is rejected, unknown or dropped but redeliveries. */
  lemma PublishedIsReceivedPlusPending(run: Run, controls: Controls, plan: Plan)
    requires ValidRun(run) && ValidControls(controls) && ValidPlan(plan)
    ensures var c := CoreAfter(run, FreshCore(run, controls), plan);
            var delivered := c.feed.records[..c.feed.cursor];
            && c.feed.published == c.proj.counters.received + Pending(c.feed)
            && c.proj.counters.rejected == 0 && c.proj.counters.unknownEntity == 0
            && |Originals(delivered)| <= |delivered|
            && c.proj.counters.duplicates == |delivered| - |Originals(delivered)|
  {
    FaithfulAfter(run, controls, plan);
    var c := CoreAfter(run, FreshCore(run, controls), plan);
    hide CoreAfter, Legal, Numbered, Dense, Changes, Replay, Originals;
    var delivered := c.feed.records[..c.feed.cursor];
    LegalPrefix(run, c.feed.records, c.feed.cursor);
    NumberedPrefix(c.feed.records, c.feed.cursor);
    ReplayCounts(run, delivered);
  }

  lemma ReplayCounts(run: Run, rs: seq<Event>)
    requires Legal(run, rs) && Numbered(rs)
    ensures var counts := Replay(run.organisms, rs).counters;
            && counts.received == |rs| && counts.rejected == 0 && counts.unknownEntity == 0
            && |Originals(rs)| <= |rs| && counts.duplicates == |rs| - |Originals(rs)|
  {
    hide Legal, Numbered, Ascending, Changes, LastRevision, Replay, Originals;
    NumberedAscends(rs);
    ReplayReceives(run.organisms, rs);
    NothingRejected(run, rs);
    RedeliveriesAreInvisible(run, rs);
  }

  lemma ReplayReceives(organisms: nat, rs: seq<Event>)
    ensures Replay(organisms, rs).counters.received == |rs|
  {
    hide Conserved, Fold, FreshPlot;
    NothingCounted();
    FoldConserves(Starting(FreshPlot(organisms)), rs);
  }

  // ---- the backlog ----

  /** The backlog after a tick: what was pending and what was produced, less the capacity, and never negative. */
  lemma BacklogLaw(run: Run, f: Feed)
    requires ValidRun(run) && ValidFeed(f)
    ensures var demand, capacity := Pending(f) + |Batch(run, f)|, Capacity(Governing(f));
            Pending(StepFeed(run, f)) == if capacity <= 0 || demand <= capacity then 0 else demand - capacity
  {
  }

  /** Every tick of the plan produces at most `load` records and may fold at least `capacity`. */
  predicate Sustainable(run: Run, f: Feed, plan: Plan, load: nat, capacity: nat)
    requires ValidRun(run) && ValidFeed(f) && ValidPlan(plan)
  {
    plan == [] ||
    var k := |plan| - 1;
    var g := StageAll(FeedAfter(run, f, plan[..k]), plan[k]);
    && Sustainable(run, f, plan[..k], load, capacity)
    && |Batch(run, g)| <= load && (Capacity(Governing(g)) <= 0 || Capacity(Governing(g)) >= capacity)
  }

  lemma {:induction false} BacklogShrinks(run: Run, f: Feed, plan: Plan, load: nat, capacity: nat)
    requires ValidRun(run) && ValidFeed(f) && ValidPlan(plan) && load < capacity
    requires Sustainable(run, f, plan, load, capacity)
    ensures var left := Pending(FeedAfter(run, f, plan));
            left == 0 || left <= Pending(f) - Gained(|plan|, capacity - load)
  {
    hide StepFeed, Batch, Governing, Capacity, Gained, FeedAfter, ValidControls, StageAll;
    LastTickOf(run, f, plan);
    if plan == [] {
      NothingGained(capacity - load);
    } else {
      var k := |plan| - 1;
      var g := StageAll(FeedAfter(run, f, plan[..k]), plan[k]);
      BacklogShrinks(run, f, plan[..k], load, capacity);
      BacklogStep(run, g, load, capacity);
      OneMoreTick(k, capacity - load, Pending(f), Pending(g), Pending(StepFeed(run, g)));
    }
  }

  lemma LastTickOf(run: Run, f: Feed, plan: Plan)
    requires ValidRun(run) && ValidFeed(f) && ValidPlan(plan)
    ensures plan == [] ==> FeedAfter(run, f, plan) == f
    ensures plan != [] ==>
              var k := |plan| - 1;
              FeedAfter(run, f, plan) == StepFeed(run, StageAll(FeedAfter(run, f, plan[..k]), plan[k]))
  {
    hide StepFeed, StageAll;
  }

  lemma NothingGained(gain: int)
    ensures Gained(0, gain) == 0
  {
  }

  lemma BacklogStep(run: Run, f: Feed, load: nat, capacity: nat)
    requires ValidRun(run) && ValidFeed(f) && load < capacity && |Batch(run, f)| <= load
    requires Capacity(Governing(f)) <= 0 || Capacity(Governing(f)) >= capacity
    ensures Pending(StepFeed(run, f)) == 0 || Pending(StepFeed(run, f)) <= Pending(f) - (capacity - load)
  {
    BacklogLaw(run, f);
  }

  /** Records a backlog loses over this many ticks. */
  function Gained(ticks: nat, gain: int): int {
    ticks * gain
  }

  lemma OneMoreTick(k: nat, gain: nat, start: int, before: nat, after: nat)
    requires before == 0 || before <= start - Gained(k, gain)
    requires after == 0 || after <= before - gain
    ensures after == 0 || after <= start - Gained(k + 1, gain)
  {
    assert (k + 1) * gain == k * gain + gain;
  }

  /** While each tick produces less than it may fold, the backlog is gone within pending/(capacity - load) ticks,
      rounded up, and stays gone. */
  lemma BacklogDrains(run: Run, f: Feed, plan: Plan, load: nat, capacity: nat)
    requires ValidRun(run) && ValidFeed(f) && ValidPlan(plan) && load < capacity
    requires Sustainable(run, f, plan, load, capacity)
    requires |plan| * (capacity - load) >= Pending(f)
    ensures Pending(FeedAfter(run, f, plan)) == 0
  {
    BacklogShrinks(run, f, plan, load, capacity);
  }

  // ---- redelivery is invisible ----

  predicate UnboundedUpdates(cs: seq<Controls>) {
    forall i | 0 <= i < |cs| :: Capacity(cs[i]) <= 0
  }

  predicate UnboundedPlan(plan: Plan) {
    forall i | 0 <= i < |plan| :: UnboundedUpdates(plan[i])
  }

  predicate UnboundedFeed(f: Feed) {
    Capacity(f.controls) <= 0 && forall i | 0 <= i < |f.staged| :: Capacity(f.staged[i].controls) <= 0
  }

  lemma {:induction false} OriginalsOfConcat(a: seq<Event>, b: seq<Event>)
    ensures Originals(a + b) == Originals(a) + Originals(b)
  {
    if b == [] {
      assert a + b == a;
    } else {
      var k := |b| - 1;
      OriginalsOfConcat(a, b[..k]);
      assert (a + b)[..|a + b| - 1] == a + b[..k];
    }
  }

  lemma {:induction false} OriginalsOfFirst(es: seq<Event>)
    requires AllFirst(es)
    ensures Originals(es) == es
  {
    if es != [] { OriginalsOfFirst(es[..|es| - 1]); }
  }

  lemma {:induction false} OriginalsOfRedeliveries(every: nat, es: seq<Event>)
    requires AllFirst(es)
    ensures Originals(WithRedeliveries(every, es)) == es
  {
    hide WithRedeliveries, Originals, AllFirst;
    if es == [] {
      NothingRedelivered(every);
    } else {
      var k := |es| - 1;
      FirstOfPrefix(es);
      OriginalsOfRedeliveries(every, es[..k]);
      OriginalsOfOneMore(every, es[..k], es[k]);
      assert es == es[..k] + [es[k]];
    }
  }

  lemma NothingRedelivered(every: nat)
    ensures Originals(WithRedeliveries(every, [])) == []
  {
  }

  lemma FirstOfPrefix(es: seq<Event>)
    requires AllFirst(es) && es != []
    ensures AllFirst(es[..|es| - 1]) && es[|es| - 1].attempt == 1
  {
  }

  lemma OriginalsOfOneMore(every: nat, es: seq<Event>, e: Event)
    requires e.attempt == 1
    ensures Originals(WithRedeliveries(every, es + [e])) == Originals(WithRedeliveries(every, es)) + [e]
  {
    assert (es + [e])[..|es + [e]| - 1] == es;
    RedeliveriesStep(every, es + [e]);
    hide WithRedeliveries, Originals;
    OriginalsOfPair(WithRedeliveries(every, es), e);
  }

  lemma OriginalsOfPair(before: seq<Event>, e: Event)
    requires e.attempt == 1
    ensures Originals(before + [e]) == Originals(before) + [e]
    ensures Originals(before + [e] + [e.(attempt := 2)]) == Originals(before) + [e]
  {
    hide Originals;
    OriginalsSnoc(before, e);
    OriginalsSnoc(before + [e], e.(attempt := 2));
  }

  lemma OriginalsSnoc(rs: seq<Event>, e: Event)
    ensures Originals(rs + [e]) == Originals(rs) + if e.attempt > 1 then [] else [e]
  {
    assert (rs + [e])[..|rs + [e]| - 1] == rs;
  }

  /** Two feeds that differ only in redeliveries, both fully delivered. */
  predicate Twins(noisy: Feed, clean: Feed) {
    && noisy == clean.(records := noisy.records, cursor := noisy.cursor, published := noisy.published)
    && Originals(noisy.records) == clean.records
    && noisy.cursor == |noisy.records| && clean.cursor == |clean.records|
    && UnboundedFeed(noisy)
  }

  lemma {:induction false} StageAllTwins(noisy: Feed, clean: Feed, cs: seq<Controls>)
    requires Twins(noisy, clean) && UnboundedUpdates(cs)
    ensures Twins(StageAll(noisy, cs), StageAll(clean, cs))
  {
    if cs != [] { StageAllTwins(noisy, clean, cs[..|cs| - 1]); }
  }

  lemma {:induction false} ControlRecordsIgnoreRedelivery(run: Run, every: nat, tick: int, emitted: nat,
                                                          staged: seq<Staged>)
    ensures ControlRecords(run.(duplicateEvery := every), tick, emitted, staged)
            == ControlRecords(run, tick, emitted, staged)
  {
    if staged != [] { ControlRecordsIgnoreRedelivery(run, every, tick, emitted, staged[..|staged| - 1]); }
  }

  lemma TickBlockTwins(run: Run, tick: nat, emitted: nat, c: Controls)
    requires ValidRun(run) && ValidControls(c)
    ensures Originals(WithRedeliveries(run.duplicateEvery, TickEvents(run, tick, emitted, c)))
         == WithRedeliveries(0, TickEvents(run.(duplicateEvery := 0), tick, emitted, c))
  {
    var events := TickEvents(run, tick, emitted, c);
    DrawIgnoresRedelivery(run, 0, tick, emitted, c, c.eventsPerTick);
    TickEventsAt(run, tick, emitted, c);
    OriginalsOfRedeliveries(run.duplicateEvery, events);
    RedeliveriesAt(0, events, tick);
  }

  lemma ControlRecordsTwins(run: Run, tick: nat, emitted: nat, staged: seq<Staged>)
    ensures Originals(ControlRecords(run, tick, emitted, staged))
            == ControlRecords(run.(duplicateEvery := 0), tick, emitted, staged)
  {
    ControlRecordsIgnoreRedelivery(run, 0, tick, emitted, staged);
    ControlRecordsAt(run, tick, emitted, staged);
    OriginalsOfFirst(ControlRecords(run, tick, emitted, staged));
  }

  lemma BlockTwins(run: Run, tick: nat, emitted: nat, staged: seq<Staged>, c: Controls)
    requires ValidRun(run) && ValidControls(c)
    ensures Originals(Block(run, tick, emitted, staged, c))
            == Block(run.(duplicateEvery := 0), tick, emitted, staged, c)
  {
    hide Originals, Draw, ControlRecords, WithRedeliveries;
    var n := emitted + |staged|;
    ControlRecordsTwins(run, tick, emitted, staged);
    TickBlockTwins(run, tick, n, c);
    OriginalsOfConcat(ControlRecords(run, tick, emitted, staged),
                      WithRedeliveries(run.duplicateEvery, TickEvents(run, tick, n, c)));
  }

  lemma BatchTwins(run: Run, noisy: Feed, clean: Feed)
    requires ValidRun(run) && ValidFeed(noisy) && ValidFeed(clean) && Twins(noisy, clean)
    ensures Originals(Batch(run, noisy)) == Batch(run.(duplicateEvery := 0), clean)
  {
    GoverningValid(noisy);
    BlockTwins(run, noisy.tick, noisy.emitted, noisy.staged, Governing(noisy));
  }

  lemma StepTwinsLogs(run: Run, noisy: Feed, clean: Feed)
    requires ValidRun(run) && ValidFeed(noisy) && ValidFeed(clean) && Twins(noisy, clean)
    ensures Originals(StepFeed(run, noisy).records) == StepFeed(run.(duplicateEvery := 0), clean).records
  {
    BatchTwins(run, noisy, clean);
    hide Originals, Batch, ValidControls, Capacity, ReadTo;
    OriginalsOfConcat(noisy.records, Batch(run, noisy));
  }

  lemma StepReadsAll(run: Run, f: Feed)
    requires ValidRun(run) && ValidFeed(f) && UnboundedFeed(f)
    ensures var r := StepFeed(run, f); r.cursor == |r.records| && UnboundedFeed(r)
  {
    hide Batch, ValidControls, Capacity;
  }

  lemma StepTwins(run: Run, noisy: Feed, clean: Feed)
    requires ValidRun(run) && ValidFeed(noisy) && ValidFeed(clean) && Twins(noisy, clean)
    ensures Twins(StepFeed(run, noisy), StepFeed(run.(duplicateEvery := 0), clean))
  {
    hide Originals, Batch, ValidControls, Capacity, ReadTo, StepFeed, UnboundedFeed;
    StepTwinsLogs(run, noisy, clean);
    TwinIsUnbounded(noisy, clean);
    StepReadsAll(run, noisy);
    StepReadsAll(run.(duplicateEvery := 0), clean);
    StepTwinsRest(run, noisy, clean);
  }

  lemma TwinIsUnbounded(noisy: Feed, clean: Feed)
    requires Twins(noisy, clean)
    ensures UnboundedFeed(clean)
  {
    hide Capacity, Originals;
  }

  /** Everything but the log itself, the cursor and the published count moves alike. */
  lemma StepTwinsRest(run: Run, noisy: Feed, clean: Feed)
    requires ValidRun(run) && ValidFeed(noisy) && ValidFeed(clean) && Twins(noisy, clean)
    ensures var r, q := StepFeed(run, noisy), StepFeed(run.(duplicateEvery := 0), clean);
            r == q.(records := r.records, cursor := r.cursor, published := r.published)
  {
    hide Originals, Batch, ValidControls, Capacity, ReadTo, UnboundedFeed;
  }

  lemma {:induction false} TwinsAfter(run: Run, controls: Controls, plan: Plan)
    requires ValidRun(run) && ValidControls(controls) && ValidPlan(plan)
    requires Capacity(controls) <= 0 && UnboundedPlan(plan)
    ensures Twins(FeedAfter(run, FreshFeed(controls), plan),
                  FeedAfter(run.(duplicateEvery := 0), FreshFeed(controls), plan))
  {
    if plan != [] {
      var k, f, quiet := |plan| - 1, FreshFeed(controls), run.(duplicateEvery := 0);
      TwinsAfter(run, controls, plan[..k]);
      StageAllTwins(FeedAfter(run, f, plan[..k]), FeedAfter(quiet, f, plan[..k]), plan[k]);
      StepTwins(run, StageAll(FeedAfter(run, f, plan[..k]), plan[k]),
                StageAll(FeedAfter(quiet, f, plan[..k]), plan[k]));
    }
  }

  /** With capacity unbounded throughout, a run that redelivers shows after every tick the garden and counters of
      the run that does not; only the duplicates it dropped, and so what it received, differ, by exactly the extra
      length of its log. */
  lemma RedeliveryIsInvisible(run: Run, controls: Controls, plan: Plan)
    requires ValidRun(run) && ValidControls(controls) && ValidPlan(plan)
    requires Capacity(controls) <= 0 && UnboundedPlan(plan)
    ensures var noisy := CoreAfter(run, FreshCore(run, controls), plan);
            var clean := CoreAfter(run.(duplicateEvery := 0), FreshCore(run, controls), plan);
            && Originals(noisy.feed.records) == clean.feed.records
            && |clean.feed.records| <= |noisy.feed.records|
            && SameBut(noisy.proj, clean.proj, |noisy.feed.records| - |clean.feed.records|)
            && clean.proj.counters.duplicates == 0
  {
    var quiet := run.(duplicateEvery := 0);
    var noisy := CoreAfter(run, FreshCore(run, controls), plan);
    var clean := CoreAfter(quiet, FreshCore(quiet, controls), plan);
    FaithfulAfter(run, controls, plan);
    FaithfulAfter(quiet, controls, plan);
    DeliveredExactlyOnce(run, FreshCore(run, controls), plan);
    DeliveredExactlyOnce(quiet, FreshCore(quiet, controls), plan);
    TwinsAfter(run, controls, plan);
    assert noisy.feed.records[..|noisy.feed.records|] == noisy.feed.records;
    assert clean.feed.records[..|clean.feed.records|] == clean.feed.records;
    NumberedAscends(noisy.feed.records);
    RedeliveriesAreInvisible(run, noisy.feed.records);
  }
}
