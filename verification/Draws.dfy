/** What decides a tick's block: which word of the generator each part of an event follows, under whose controls it is
    drawn, and which events are delivered twice. */
module Draws {
  import opened Identifiers
  import opened Events
  import opened ControlRules
  import opened Production
  import opened History
  import opened Feeds

  /** A word as a draw below a bound. */
  function Below(word: nat, bound: int): int {
    if word < bound then word else 0
  }

  /** The bounds asked of a tick's generator for these events: weights and organisms for each, then 21 for the amount of
      rain or 16 for that of a pest. */
  function BoundsAsked(organisms: nat, c: Controls, es: seq<Event>): seq<int> {
    if es == [] then []
    else
      var e := es[|es| - 1];
      BoundsAsked(organisms, c, es[..|es| - 1]) + [c.rainWeight + c.growthWeight + c.pestWeight, organisms] +
      match e.typ
      case Rain => [21]
      case Pest => [16]
      case _ => []
  }

  /** The event follows the words the seeded generator yields after these bounds: its type the first of them, its
      organism the second, its amount the third. */
  predicate DecidedBy(run: Run, tick: int, c: Controls, asked: seq<int>, e: Event) {
    var weights := c.rainWeight + c.growthWeight + c.pestWeight;
    var roll := Below(run.rng(run.seed, tick, asked + [weights]), weights);
    var place := Below(run.rng(run.seed, tick, asked + [weights, run.organisms]), run.organisms);
    && 0 <= place < run.organisms && e.entityID == OrganismID(place)
    && if roll < c.rainWeight then
         && e.typ == Rain
         && e.amount == 5 + Below(run.rng(run.seed, tick, asked + [weights, run.organisms, 21]), 21)
       else if roll < c.rainWeight + c.growthWeight then
         e.typ == Growth && e.amount == 0
       else
         && e.typ == Pest
         && e.amount == 5 + Below(run.rng(run.seed, tick, asked + [weights, run.organisms, 16]), 16)
  }

  lemma ChosenByWords(run: Run, tick: int, c: Controls, asked: seq<int>, sequence: nat)
    requires ValidRun(run) && ValidControls(c)
    ensures var r := Choose(run, tick, c, asked);
            var e := OrganismEvent(run, sequence, tick, r.typ, r.organism, r.amount);
            DecidedBy(run, tick, c, asked, e) && r.asked == asked + BoundsAsked(run.organisms, c, [e])
  {
    var w, n := TotalWeight(c), run.organisms;
    assert asked + [w] + [n] == asked + [w, n];
    assert asked + [w] + [n] + [21] == asked + [w, n, 21];
    assert asked + [w] + [n] + [16] == asked + [w, n, 16];
    var r := Choose(run, tick, c, asked);
    var e := OrganismEvent(run, sequence, tick, r.typ, r.organism, r.amount);
    assert [e][..0] == [];
    hide OrganismID, EventID;
  }

  lemma BoundsSnoc(organisms: nat, c: Controls, es: seq<Event>, e: Event)
    ensures BoundsAsked(organisms, c, es + [e]) == BoundsAsked(organisms, c, es) + BoundsAsked(organisms, c, [e])
  {
    assert (es + [e])[..|es + [e]| - 1] == es && [e][..0] == [];
  }

  /** Every event of a tick follows its own words, all drawn for this seed and tick, in order. */
  lemma {:induction false} DrawsDecide(run: Run, tick: int, emitted: nat, c: Controls, k: nat)
    requires ValidRun(run) && ValidControls(c)
    ensures var d := Draw(run, tick, emitted, c, k);
            && d.asked == BoundsAsked(run.organisms, c, d.events)
            && forall i | 0 <= i < k ::
                 DecidedBy(run, tick, c, BoundsAsked(run.organisms, c, d.events[..i]), d.events[i])
  {
    hide DecidedBy, Choose, OrganismEvent, BoundsAsked, ValidControls, Draw;
    if k > 0 {
      DrawsDecide(run, tick, emitted, c, k - 1);
      var d := Draw(run, tick, emitted, c, k - 1);
      DrawNext(run, tick, emitted, c, k - 1);
      ChosenByWords(run, tick, c, d.asked, emitted + k);
      var r := Choose(run, tick, c, d.asked);
      var e := OrganismEvent(run, emitted + k, tick, r.typ, r.organism, r.amount);
      BoundsSnoc(run.organisms, c, d.events, e);
      var longer := d.events + [e];
      forall i | 0 <= i < k ensures DecidedBy(run, tick, c, BoundsAsked(run.organisms, c, longer[..i]), longer[i]) {
        assert longer[..i] == d.events[..i];
        assert i == k - 1 ==> d.events[..i] == d.events;
      }
    } else {
      NothingAsked(run.organisms, c);
      NothingDrawn(run, tick, emitted, c);
    }
  }

  lemma NothingDrawn(run: Run, tick: int, emitted: nat, c: Controls)
    requires ValidRun(run) && ValidControls(c)
    ensures Draw(run, tick, emitted, c, 0) == Drawn([], [])
  {
  }

  lemma NothingAsked(organisms: nat, c: Controls)
    ensures BoundsAsked(organisms, c, []) == []
  {
  }

  /** A tick's events, each decided by the words that follow those of the events before it. */
  lemma TickFollowsItsWords(run: Run, tick: int, emitted: nat, c: Controls)
    requires ValidRun(run) && ValidControls(c)
    ensures var es := TickEvents(run, tick, emitted, c);
            && |es| == c.eventsPerTick
            && forall i | 0 <= i < |es| :: DecidedBy(run, tick, c, BoundsAsked(run.organisms, c, es[..i]), es[i])
  {
    DrawsDecide(run, tick, emitted, c, c.eventsPerTick);
    hide DecidedBy, BoundsAsked, Draw;
  }

  /** Whatever a positive weight allows can be drawn: for every type, organism and amount within the ranges there is a
      generator under which a tick begins with it. */
  lemma EveryEventCanBeDrawn(run: Run, tick: int, emitted: nat, c: Controls, e: Event) returns (rng: Generator)
    requires ValidRun(run) && ValidControls(c)
    requires exists i :: 0 <= i < run.organisms && e.entityID == OrganismID(i)
    requires match e.typ
             case Rain => c.rainWeight > 0 && 5 <= e.amount <= 25
             case Growth => c.growthWeight > 0 && e.amount == 0
             case Pest => c.pestWeight > 0 && 5 <= e.amount <= 20
             case _ => false
    ensures var es := TickEvents(run.(rng := rng), tick, emitted, c);
            && es[0].typ == e.typ && es[0].entityID == e.entityID && es[0].amount == e.amount
  {
    var place :| 0 <= place < run.organisms && e.entityID == OrganismID(place);
    var roll: nat :=
      if e.typ == Rain then 0 else if e.typ == Growth then c.rainWeight else c.rainWeight + c.growthWeight;
    var size: nat := if e.amount >= 5 then e.amount - 5 else 0;
    rng := (seed, at, asked) => if |asked| == 1 then roll else if |asked| == 2 then place else size;
    var loaded := run.(rng := rng);
    TickFollowsItsWords(loaded, tick, emitted, c);
    var es := TickEvents(loaded, tick, emitted, c);
    NothingAsked(loaded.organisms, c);
    assert es[..0] == [];
    assert DecidedBy(loaded, tick, c, BoundsAsked(loaded.organisms, c, es[..0]), es[0]);
    hide TickEvents, BoundsAsked, OrganismID;
  }

  // ---- the envelopes ----

  /** The envelope of a record produced at this tick under this sequence number, before any redelivery. */
  predicate Enveloped(run: Run, e: Event, sequence: int, tick: int) {
    && e.schemaVersion == 1 && e.runID == run.runID && e.partitionKey == run.runID
    && e.sequence == sequence && e.occurredAt == tick && e.attempt == 1
  }

  predicate EnvelopedOrganism(run: Run, e: Event, sequence: nat, tick: int) {
    Enveloped(run, e, sequence, tick) && e.eventID == EventID(run.runID, sequence) && e.revision == 0
  }

  predicate EnvelopedControl(run: Run, e: Event, sequence: nat, tick: int) {
    && Enveloped(run, e, sequence, tick) && e.eventID == ControlEventID(run.runID, sequence)
    && e.typ == ControlChanged && e.entityID == "" && e.amount == 0
  }

  predicate EnvelopedInOrder(run: Run, es: seq<Event>, emitted: nat, tick: int) {
    forall i | 0 <= i < |es| :: EnvelopedOrganism(run, es[i], emitted + i + 1, tick)
  }

  lemma {:induction false} DrawnEnvelopes(run: Run, tick: int, emitted: nat, c: Controls, k: nat)
    requires ValidRun(run) && ValidControls(c)
    ensures EnvelopedInOrder(run, Draw(run, tick, emitted, c, k).events, emitted, tick)
  {
    hide Draw, Choose, ValidControls, EventID, OrganismID;
    if k > 0 {
      DrawnEnvelopes(run, tick, emitted, c, k - 1);
      DrawNext(run, tick, emitted, c, k - 1);
    }
  }

  lemma TickEnvelopes(run: Run, tick: int, emitted: nat, c: Controls)
    requires ValidRun(run) && ValidControls(c)
    ensures EnvelopedInOrder(run, TickEvents(run, tick, emitted, c), emitted, tick)
  {
    DrawnEnvelopes(run, tick, emitted, c, c.eventsPerTick);
    hide EnvelopedInOrder, Draw;
  }

  lemma RecordEnvelopes(run: Run, f: Feed)
    requires ValidRun(run) && ValidFeed(f)
    ensures |f.staged| <= |Batch(run, f)|
    ensures forall i | 0 <= i < |f.staged| :: EnvelopedControl(run, Batch(run, f)[i], f.emitted + i + 1, f.tick)
  {
    hide ControlRecords, WithRedeliveries, TickEvents, EnvelopedControl, ValidControls;
    RecordsInOrder(run, f.tick, f.emitted, f.staged);
    var es := ControlRecords(run, f.tick, f.emitted, f.staged);
    forall i | 0 <= i < |f.staged| ensures EnvelopedControl(run, Batch(run, f)[i], f.emitted + i + 1, f.tick) {
      assert Batch(run, f)[i] == es[i];
    }
  }

  /** A tick's records carry schema version 1, their run as owner and partition, the tick, and consecutive sequence
      numbers from the first after those emitted: the control records first, then the events. */
  lemma EnvelopesLaw(run: Run, f: Feed)
    requires ValidRun(run) && ValidFeed(f)
    ensures var n := |f.staged|;
            && n <= |Batch(run, f)|
            && (forall i | 0 <= i < n :: EnvelopedControl(run, Batch(run, f)[i], f.emitted + i + 1, f.tick))
            && EnvelopedInOrder(run, TickEvents(run, f.tick, f.emitted + n, Governing(f)), f.emitted + n, f.tick)
  {
    hide Batch, TickEvents, Governing, EnvelopedControl, EnvelopedInOrder, ValidControls;
    GoverningValid(f);
    RecordEnvelopes(run, f);
    TickEnvelopes(run, f.tick, f.emitted + |f.staged|, Governing(f));
  }

  // ---- under whose controls ----

  /** A tick's block is one record for each staged update, then the events drawn under the last of them, or under the
      controls in force if none was staged. */
  lemma BatchFollowsTheLastUpdate(run: Run, f: Feed)
    requires ValidRun(run) && ValidFeed(f)
    ensures var n := |f.staged|;
            var c := if n == 0 then f.controls else f.staged[n - 1].controls;
            && ValidControls(c) && n <= |Batch(run, f)|
            && (forall i | 0 <= i < n ::
                  IsControl(Batch(run, f)[i]) && Batch(run, f)[i].revision == f.staged[i].revision)
            && Batch(run, f)[n..] == WithRedeliveries(run.duplicateEvery, TickEvents(run, f.tick, f.emitted + n, c))
  {
    GoverningValid(f);
    RecordsInOrder(run, f.tick, f.emitted, f.staged);
    hide ValidControls, ControlRecords, WithRedeliveries, Draw;
  }

  lemma {:induction false} RecordsInOrder(run: Run, tick: int, emitted: nat, staged: seq<Staged>)
    ensures var es := ControlRecords(run, tick, emitted, staged);
            forall i | 0 <= i < |staged| ::
              && IsControl(es[i]) && es[i].revision == staged[i].revision
              && EnvelopedControl(run, es[i], emitted + i + 1, tick)
  {
    if staged != [] {
      var k := |staged| - 1;
      RecordsInOrder(run, tick, emitted, staged[..k]);
      var e := ControlEvent(run, emitted + k + 1, tick, staged[k].revision);
      assert ControlRecords(run, tick, emitted, staged) == ControlRecords(run, tick, emitted, staged[..k]) + [e];
      assert IsControl(e) && e.revision == staged[k].revision && EnvelopedControl(run, e, emitted + k + 1, tick);
      hide ControlRecords, ControlEvent, EnvelopedControl;
    }
  }

  // ---- which events are delivered twice ----

  /** Where the event at position `i` stands once every `every`-th one before it was delivered twice. */
  function Shifted(i: nat, every: nat): nat {
    if every == 0 then i else i + i / every
  }

  lemma ShiftNext(i: nat, every: nat)
    ensures Shifted(i + 1, every) == Shifted(i, every) + 1 + if every > 0 && (i + 1) % every == 0 then 1 else 0
  {
    if every > 0 { QuotientNext(i, every); }
  }

  lemma QuotientNext(i: nat, d: nat)
    requires d > 0
    ensures (i + 1) / d == i / d + if (i + 1) % d == 0 then 1 else 0
  {
    var q, r := i / d, i % d;
    assert i == d * q + r;
    if r == d - 1 {
      assert i + 1 == d * (q + 1) + 0;
      RemainderIs(i + 1, d, q + 1, 0);
      QuotientIs(i + 1, d, q + 1);
    } else {
      assert i + 1 == d * q + (r + 1);
      RemainderIs(i + 1, d, q, r + 1);
      QuotientIs(i + 1, d, q);
    }
  }

  lemma QuotientIs(n: nat, d: nat, q: int)
    requires d > 0 && n == d * q + n % d
    ensures n / d == q
  {
    assert n == d * (n / d) + n % d;
    var e := q - n / d;
    assert d * e == d * q - d * (n / d) && d * (-e) == -(d * e);
    if e >= 1 { AtLeastOnce(d, e); }
    if e <= -1 { AtLeastOnce(d, -e); }
  }

  /** Exactly the events whose count within the tick leaves no remainder by `every` are followed by a second delivery,
      which differs in its attempt alone; nothing else is added and no order changed. */
  lemma {:induction false} RedeliveredExactly(every: nat, es: seq<Event>)
    ensures var r := WithRedeliveries(every, es);
            && |r| == Shifted(|es|, every)
            && (forall i | 0 <= i < |es| :: Shifted(i, every) < |r| && r[Shifted(i, every)] == es[i])
            && (forall i | 0 <= i < |es| && every > 0 && (i + 1) % every == 0 ::
                  Shifted(i, every) + 1 < |r| && r[Shifted(i, every) + 1] == es[i].(attempt := es[i].attempt + 1))
  {
    if es != [] {
      var k := |es| - 1;
      RedeliveredExactly(every, es[..k]);
      EveryNthExactly(|es|, every);
      ShiftNext(k, every);
      var before, r := WithRedeliveries(every, es[..k]), WithRedeliveries(every, es);
      assert r == before + [es[k]] +
                  if every > 0 && |es| % every == 0 then [es[k].(attempt := es[k].attempt + 1)] else [];
      hide WithRedeliveries, EveryNth, Shifted;
      forall i | 0 <= i < |es| ensures Shifted(i, every) < |r| && r[Shifted(i, every)] == es[i] {
        assert i < k ==> es[..k][i] == es[i];
      }
      forall i | 0 <= i < |es| && every > 0 && (i + 1) % every == 0
        ensures Shifted(i, every) + 1 < |r| && r[Shifted(i, every) + 1] == es[i].(attempt := es[i].attempt + 1)
      {
        assert i < k ==> es[..k][i] == es[i];
      }
    } else {
      assert WithRedeliveries(every, es) == [];
    }
  }
}
