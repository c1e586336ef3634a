/** What a run produces, records and delivers, tick by tick. The garden is a function of what is delivered. */
module Feeds {
  import opened Events
  import opened ControlRules
  import opened Gardens
  import opened Processing
  import opened Production
  import opened History

  /** An update waiting for the coming tick, under the revision it was given. */
  datatype Staged = Staged(revision: int, controls: Controls)

  /** A simulation's position: producer, controls, log and cursor. */
  datatype Feed = Feed(
    emitted: nat, tick: int, controls: Controls, revision: nat, staged: seq<Staged>,
    published: nat, records: seq<Event>, cursor: nat)

  /** A feed together with the projection folded from what it delivered. */
  datatype Core = Core(feed: Feed, proj: Projection)

  predicate ValidFeed(f: Feed) {
    && f.tick >= 0 && ValidControls(f.controls) && f.cursor <= |f.records|
    && forall i | 0 <= i < |f.staged| :: ValidControls(f.staged[i].controls)
  }

  function Pending(f: Feed): int {
    |f.records| - f.cursor
  }

  function FreshFeed(c: Controls): Feed {
    Feed(0, 0, c, 0, [], 0, [], 0)
  }

  function Stage(f: Feed, c: Controls): Feed {
    f.(revision := f.revision + 1, staged := f.staged + [Staged(f.revision + 1, c)])
  }

  /** The controls the coming tick obeys: the last ones staged, if any. */
  function Governing(f: Feed): Controls {
    if f.staged == [] then f.controls else f.staged[|f.staged| - 1].controls
  }

  /** One control_changed record per staged update, in order. */
  function ControlRecords(run: Run, tick: int, emitted: nat, staged: seq<Staged>): (es: seq<Event>)
    ensures |es| == |staged|
  {
    if staged == [] then []
    else
      var k := |staged| - 1;
      ControlRecords(run, tick, emitted, staged[..k]) + [ControlEvent(run, emitted + k + 1, tick, staged[k].revision)]
  }

  /** Counting by `every` from zero reaches `n`; counting by zero reaches nothing. */
  predicate EveryNth(n: int, every: nat)
    decreases n
  {
    every > 0 && (n == 0 || (n > 0 && EveryNth(n - every, every)))
  }

  lemma {:induction false} EveryNthExactly(n: nat, every: nat)
    ensures EveryNth(n, every) <==> every > 0 && n % every == 0
    decreases n
  {
    if 0 < every <= n {
      EveryNthExactly(n - every, every);
      OneRoundLess(n, every);
    }
  }

  /** Taking one round off leaves the remainder. */
  lemma OneRoundLess(n: nat, every: nat)
    requires 0 < every <= n
    ensures n % every == (n - every) % every
  {
    var q, r := (n - every) / every, (n - every) % every;
    assert n == every * (q + 1) + r;
    RemainderIs(n, every, q + 1, r);
  }

  lemma RemainderIs(n: nat, d: nat, q: int, r: int)
    requires d > 0 && n == d * q + r && 0 <= r < d
    ensures n % d == r
  {
    var p, x := n / d, n % d;
    assert n == d * p + x;
    var e := q - p;
    assert d * e == d * q - d * p && d * (-e) == -(d * e);
    if e >= 1 { AtLeastOnce(d, e); }
    if e <= -1 { AtLeastOnce(d, -e); }
  }

  lemma AtLeastOnce(d: nat, e: int)
    requires e >= 1
    ensures d * e >= d
  {
    assert d * e == d * (e - 1) + d;
  }

  /** A tick's events with every `every`-th one delivered twice; zero disables redelivery. */
  function WithRedeliveries(every: nat, es: seq<Event>): seq<Event> {
    if es == [] then []
    else
      var e := es[|es| - 1];
      WithRedeliveries(every, es[..|es| - 1]) + [e] +
      if EveryNth(|es|, every) then [e.(attempt := e.attempt + 1)] else []
  }

  /** Everything a tick appends under these controls. */
  function Block(run: Run, tick: nat, emitted: nat, staged: seq<Staged>, c: Controls): seq<Event>
    requires ValidRun(run) && ValidControls(c)
  {
    ControlRecords(run, tick, emitted, staged) +
    WithRedeliveries(run.duplicateEvery, TickEvents(run, tick, emitted + |staged|, c))
  }

  function Batch(run: Run, f: Feed): seq<Event>
    requires ValidRun(run) && ValidFeed(f)
  {
    Block(run, f.tick, f.emitted, f.staged, Governing(f))
  }

  /** The feed once the producer has run and the batch is on the log. */
  function Append(run: Run, f: Feed): Feed
    requires ValidRun(run) && ValidFeed(f)
  {
    f.(emitted := f.emitted + |f.staged| + Governing(f).eventsPerTick,
       controls := Governing(f), staged := [],
       records := f.records + Batch(run, f), published := f.published + |Batch(run, f)|)
  }

  /** Where a read of at most `capacity` records stops; zero or less is unbounded. */
  function ReadTo(cursor: nat, end: nat, capacity: int): nat
    requires cursor <= end
  {
    if capacity <= 0 || cursor + capacity >= end then end else cursor + capacity
  }

  function StepFeed(run: Run, f: Feed): (r: Feed)
    requires ValidRun(run) && ValidFeed(f)
    ensures ValidFeed(r) && f.records <= r.records && f.cursor <= r.cursor
  {
    var a := Append(run, f);
    a.(cursor := ReadTo(f.cursor, |a.records|, Capacity(a.controls)), tick := f.tick + 1)
  }

  /** One tick: append the batch, then fold what capacity allows of the undelivered records. */
  function StepCore(run: Run, c: Core): Core
    requires ValidRun(run) && ValidFeed(c.feed)
  {
    var f := StepFeed(run, c.feed);
    Core(f, Fold(c.proj, f.records[c.feed.cursor..f.cursor]))
  }

  // ---- whole runs ----

  /** The control updates accepted during each tick of a run. */
  type Plan = seq<seq<Controls>>

  predicate ValidUpdates(cs: seq<Controls>) {
    forall i | 0 <= i < |cs| :: ValidControls(cs[i])
  }

  predicate ValidPlan(plan: Plan) {
    forall i | 0 <= i < |plan| :: ValidUpdates(plan[i])
  }

  function StageAll(f: Feed, cs: seq<Controls>): (r: Feed)
    ensures r == f.(revision := r.revision, staged := r.staged)
    ensures r.revision == f.revision + |cs|
    ensures ValidFeed(f) && ValidUpdates(cs) ==> ValidFeed(r)
  {
    if cs == [] then f else Stage(StageAll(f, cs[..|cs| - 1]), cs[|cs| - 1])
  }

  function FeedAfter(run: Run, f: Feed, plan: Plan): (r: Feed)
    requires ValidRun(run) && ValidFeed(f) && ValidPlan(plan)
    ensures ValidFeed(r)
  {
    if plan == [] then f
    else StepFeed(run, StageAll(FeedAfter(run, f, plan[..|plan| - 1]), plan[|plan| - 1]))
  }

  function CoreAfter(run: Run, c: Core, plan: Plan): (r: Core)
    requires ValidRun(run) && ValidFeed(c.feed) && ValidPlan(plan)
    ensures ValidFeed(r.feed)
  {
    if plan == [] then c
    else
      var before := CoreAfter(run, c, plan[..|plan| - 1]);
      StepCore(run, before.(feed := StageAll(before.feed, plan[|plan| - 1])))
  }

  function FreshCore(run: Run, c: Controls): Core {
    Core(FreshFeed(c), Starting(FreshPlot(run.organisms)))
  }

  /** Every record is delivered once and in order: whatever the plan, the projection is the fold of the records
      between the cursors. */
  lemma {:induction false} DeliveredExactlyOnce(run: Run, c: Core, plan: Plan)
    requires ValidRun(run) && ValidFeed(c.feed) && ValidPlan(plan)
    ensures var r := CoreAfter(run, c, plan);
            && r.feed == FeedAfter(run, c.feed, plan)
            && c.feed.records <= r.feed.records && c.feed.cursor <= r.feed.cursor
            && r.proj == Fold(c.proj, r.feed.records[c.feed.cursor..r.feed.cursor])
  {
    if plan == [] {
      assert c.feed.records[c.feed.cursor..c.feed.cursor] == [];
    } else {
      var k := |plan| - 1;
      DeliveredExactlyOnce(run, c, plan[..k]);
      var before := CoreAfter(run, c, plan[..k]);
      StepDelivers(run, c, before, before.(feed := StageAll(before.feed, plan[k])));
    }
  }

  lemma StepDelivers(run: Run, c: Core, before: Core, staged: Core)
    requires ValidRun(run) && ValidFeed(c.feed) && ValidFeed(staged.feed)
    requires c.feed.records <= before.feed.records && c.feed.cursor <= before.feed.cursor <= |before.feed.records|
    requires before.proj == Fold(c.proj, before.feed.records[c.feed.cursor..before.feed.cursor])
    requires staged.proj == before.proj
    requires staged.feed.records == before.feed.records && staged.feed.cursor == before.feed.cursor
    ensures var r := StepCore(run, staged);
            && c.feed.records <= r.feed.records && c.feed.cursor <= r.feed.cursor
            && r.proj == Fold(c.proj, r.feed.records[c.feed.cursor..r.feed.cursor])
  {
    hide Fold, StepFeed, ValidControls, ValidRun;
    var r, lo, mid := StepFeed(run, staged.feed), c.feed.cursor, before.feed.cursor;
    assert r.records[lo..r.cursor] == before.feed.records[lo..mid] + r.records[mid..r.cursor];
    FoldConcat(c.proj, before.feed.records[lo..mid], r.records[mid..r.cursor]);
  }

  // ---- the shape of what a tick appends ----

  /** A log that continues another: legal, with these many more sequence numbers used, up to this tick. */
  predicate Continues(run: Run, rs: seq<Event>, longer: seq<Event>, used: nat, tick: int) {
    && Legal(run, longer) && LastSequence(longer) == LastSequence(rs) + used
    && LastTick(longer) <= tick
  }

  lemma ControlRecordLegal(run: Run, rs: seq<Event>, tick: nat, revision: int)
    requires ValidRun(run) && Legal(run, rs) && LastSequence(rs) >= 0 && LastTick(rs) <= tick
    ensures Continues(run, rs, rs + [ControlEvent(run, LastSequence(rs) + 1, tick, revision)], 1, tick)
  {
    hide Legal;
    LegalSnoc(run, rs, ControlEvent(run, LastSequence(rs) + 1, tick, revision));
  }

  lemma {:induction false} ControlRecordsLegal(run: Run, rs: seq<Event>, tick: nat, staged: seq<Staged>)
    requires ValidRun(run) && Legal(run, rs) && LastSequence(rs) >= 0 && LastTick(rs) <= tick
    ensures Continues(run, rs, rs + ControlRecords(run, tick, LastSequence(rs), staged), |staged|, tick)
  {
    var es := ControlRecords(run, tick, LastSequence(rs), staged);
    if staged == [] {
      assert rs + es == rs;
    } else {
      var k := |staged| - 1;
      ControlRecordsLegal(run, rs, tick, staged[..k]);
      var before := rs + ControlRecords(run, tick, LastSequence(rs), staged[..k]);
      hide Legal, ControlEvent, LastTick, LastSequence;
      ControlRecordLegal(run, before, tick, staged[k].revision);
      ConcatAssociates(rs, ControlRecords(run, tick, LastSequence(rs), staged[..k]),
                       [ControlEvent(run, LastSequence(before) + 1, tick, staged[k].revision)]);
    }
  }

  lemma EventLegal(run: Run, rs: seq<Event>, tick: nat, e: Event)
    requires Legal(run, rs) && LastSequence(rs) >= 0 && LastTick(rs) <= tick
    requires ProducedAt(run, e, LastSequence(rs) + 1, tick)
    ensures Continues(run, rs, rs + [e], 1, tick)
    ensures Continues(run, rs, rs + [e] + [e.(attempt := 2)], 1, tick)
  {
    LegalSnoc(run, rs, e);
    LegalSnoc(run, rs + [e], e.(attempt := 2));
  }

  lemma RedeliveriesStep(every: nat, es: seq<Event>)
    requires es != [] && es[|es| - 1].attempt == 1
    ensures var before, e := WithRedeliveries(every, es[..|es| - 1]), es[|es| - 1];
            || WithRedeliveries(every, es) == before + [e]
            || WithRedeliveries(every, es) == before + [e] + [e.(attempt := 2)]
  {
  }

  lemma RedeliveriesExtend(rs: seq<Event>, every: nat, es: seq<Event>)
    requires es != [] && es[|es| - 1].attempt == 1
    ensures var before, e := rs + WithRedeliveries(every, es[..|es| - 1]), es[|es| - 1];
            || rs + WithRedeliveries(every, es) == before + [e]
            || rs + WithRedeliveries(every, es) == before + [e] + [e.(attempt := 2)]
  {
  }

  lemma {:induction false} RedeliveriesLegal(run: Run, rs: seq<Event>, tick: nat, es: seq<Event>)
    requires ValidRun(run) && Legal(run, rs) && LastSequence(rs) >= 0 && LastTick(rs) <= tick
    requires ProducedInOrder(run, es, LastSequence(rs), tick)
    ensures Continues(run, rs, rs + WithRedeliveries(run.duplicateEvery, es), |es|, tick)
  {
    var all := WithRedeliveries(run.duplicateEvery, es);
    if es == [] {
      assert rs + all == rs;
    } else {
      var k := |es| - 1;
      assert ProducedAt(run, es[k], LastSequence(rs) + k + 1, tick);
      ProducedInOrderPrefix(run, es, LastSequence(rs), tick, k);
      RedeliveriesLegal(run, rs, tick, es[..k]);
      var before := rs + WithRedeliveries(run.duplicateEvery, es[..k]);
      EventLegal(run, before, tick, es[k]);
      RedeliveriesExtend(rs, run.duplicateEvery, es);
    }
  }

  lemma {:induction false} RedeliveriesAt(every: nat, es: seq<Event>, tick: int)
    requires es != [] && AllAt(es, tick)
    ensures var r := WithRedeliveries(every, es);
            |r| >= |es| && r[0] == es[0] && AllAt(r, tick) && (every == 0 ==> r == es)
  {
    if |es| > 1 {
      var k := |es| - 1;
      RedeliveriesAt(every, es[..k], tick);
      assert every == 0 ==> WithRedeliveries(every, es) == es[..k] + [es[k]];
    }
  }

  predicate AllAt(es: seq<Event>, tick: int) {
    forall i | 0 <= i < |es| :: es[i].occurredAt == tick
  }

  predicate AllFirst(es: seq<Event>) {
    forall i | 0 <= i < |es| :: es[i].attempt == 1
  }

  lemma {:induction false} ControlRecordsAt(run: Run, tick: int, emitted: nat, staged: seq<Staged>)
    ensures var es := ControlRecords(run, tick, emitted, staged); AllAt(es, tick) && AllFirst(es)
  {
    if staged != [] { ControlRecordsAt(run, tick, emitted, staged[..|staged| - 1]); }
  }

  lemma TickEventsAt(run: Run, tick: nat, emitted: nat, c: Controls)
    requires ValidRun(run) && ValidControls(c)
    ensures var es := TickEvents(run, tick, emitted, c); AllAt(es, tick) && AllFirst(es)
  {
    var es := TickEvents(run, tick, emitted, c);
    DrawnAreProduced(run, tick, emitted, c, c.eventsPerTick);
    forall i | 0 <= i < |es| ensures es[i].occurredAt == tick && es[i].attempt == 1 {
      assert ProducedAt(run, es[i], emitted + i + 1, tick);
    }
  }

  /** A tick's block: never empty, all at one tick, and starting with a new record. */
  lemma BatchAt(run: Run, f: Feed)
    requires ValidRun(run) && ValidFeed(f)
    ensures var b := Batch(run, f);
            b != [] && b[0].attempt == 1 && AllAt(b, f.tick) && (run.duplicateEvery == 0 ==> AllFirst(b))
  {
    hide ValidControls, ControlRecords, WithRedeliveries, Draw, AllAt, AllFirst;
    GoverningValid(f);
    var c := Governing(f);
    TickBlockAt(run, f.tick, f.emitted + |f.staged|, c);
    ControlRecordsAt(run, f.tick, f.emitted, f.staged);
    ConcatAt(ControlRecords(run, f.tick, f.emitted, f.staged),
             WithRedeliveries(run.duplicateEvery, TickEvents(run, f.tick, f.emitted + |f.staged|, c)), f.tick);
  }

  lemma ConcatAt(a: seq<Event>, b: seq<Event>, tick: int)
    requires AllAt(a, tick) && AllFirst(a) && AllAt(b, tick) && b != [] && b[0].attempt == 1
    ensures AllAt(a + b, tick) && (a + b)[0].attempt == 1 && (AllFirst(b) ==> AllFirst(a + b))
  {
  }

  lemma TickBlockAt(run: Run, tick: nat, emitted: nat, c: Controls)
    requires ValidRun(run) && ValidControls(c)
    ensures var b := WithRedeliveries(run.duplicateEvery, TickEvents(run, tick, emitted, c));
            b != [] && b[0].attempt == 1 && AllAt(b, tick) && (run.duplicateEvery == 0 ==> AllFirst(b))
  {
    TickEventsAt(run, tick, emitted, c);
    RedeliveriesAt(run.duplicateEvery, TickEvents(run, tick, emitted, c), tick);
  }

  lemma ConcatAssociates(a: seq<Event>, b: seq<Event>, c: seq<Event>)
    ensures a + (b + c) == (a + b) + c
  {
  }

  lemma GoverningValid(f: Feed)
    requires ValidFeed(f)
    ensures ValidControls(Governing(f)) && Governing(f).eventsPerTick >= 1
  {
  }

  lemma BatchContinues(run: Run, f: Feed)
    requires ValidRun(run) && ValidFeed(f)
    requires Legal(run, f.records) && LastSequence(f.records) == f.emitted && LastTick(f.records) <= f.tick
    ensures Continues(run, f.records, f.records + Batch(run, f), |f.staged| + Governing(f).eventsPerTick, f.tick)
  {
    hide Legal, ValidControls, ControlRecords, WithRedeliveries, Draw, LastTick;
    GoverningValid(f);
    ControlRecordsLegal(run, f.records, f.tick, f.staged);
    var controls := ControlRecords(run, f.tick, f.emitted, f.staged);
    TickBlockLegal(run, f.records + controls, f.tick, Governing(f));
    var block := WithRedeliveries(run.duplicateEvery, TickEvents(run, f.tick, f.emitted + |f.staged|, Governing(f)));
    ConcatAssociates(f.records, controls, block);
  }

  /** Appending a tick's block keeps the log legal and numbers it onward from the producer's count. */
  lemma BatchLegal(run: Run, f: Feed)
    requires ValidRun(run) && ValidFeed(f)
    requires Legal(run, f.records) && LastSequence(f.records) == f.emitted && LastTick(f.records) <= f.tick
    ensures var a := Append(run, f);
            Legal(run, a.records) && LastSequence(a.records) == a.emitted && LastTick(a.records) == f.tick
  {
    BatchContinues(run, f);
    BatchAt(run, f);
    LastOfConcat(f.records, Batch(run, f));
  }

  lemma LastOfConcat(a: seq<Event>, b: seq<Event>)
    requires b != []
    ensures LastTick(a + b) == LastTick(b) && LastSequence(a + b) == LastSequence(b)
  {
  }

  lemma TickBlockLegal(run: Run, rs: seq<Event>, tick: nat, c: Controls)
    requires ValidRun(run) && ValidControls(c)
    requires Legal(run, rs) && LastSequence(rs) >= 0 && LastTick(rs) <= tick
    ensures var block := WithRedeliveries(run.duplicateEvery, TickEvents(run, tick, LastSequence(rs), c));
            Continues(run, rs, rs + block, c.eventsPerTick, tick)
  {
    DrawnAreProduced(run, tick, LastSequence(rs), c, c.eventsPerTick);
    RedeliveriesLegal(run, rs, tick, TickEvents(run, tick, LastSequence(rs), c));
  }
}
