/** Deterministic production: a tick's events are a function of the run, the tick, the count so far and the controls. */
module Production {
  import opened Identifiers
  import opened Events
  import opened ControlRules
  import opened Wrappers

  const RAIN_MIN: int := 5
  const RAIN_MAX: int := 25
  const PEST_MIN: int := 5
  const PEST_MAX: int := 20

  /** A seeded generator: what the draw after the bounds asked so far yields, for a seed and a tick.
      Any generator is such a function; a word outside the bound asked for reads as zero. */
  type Generator = (int, int, seq<int>) -> nat

  /** The fixed properties of a run that production depends on. */
  datatype Run = Run(rng: Generator, runID: string, seed: int, organisms: nat, duplicateEvery: nat)

  predicate ValidRun(run: Run) {
    run.runID != "" && run.organisms >= 1
  }

  /** One draw below `n`, the last of the bounds in `asked`. */
  function IntN(run: Run, tick: int, asked: seq<int>): (r: int)
    requires asked != [] && asked[|asked| - 1] > 0
    ensures 0 <= r < asked[|asked| - 1]
  {
    var word := run.rng(run.seed, tick, asked);
    if word < asked[|asked| - 1] then word else 0
  }

  /** The type a roll selects: rain below the first weight, growth below the next, pest above. */
  function PickType(roll: int, c: Controls): EventType {
    if roll < c.rainWeight then Rain
    else if roll < c.rainWeight + c.growthWeight then Growth
    else Pest
  }

  /** The rolls that select a type. */
  ghost function RollsFor(c: Controls, t: EventType): set<int> {
    set roll | 0 <= roll < TotalWeight(c) && PickType(roll, c) == t
  }

  /** The integers from `lo` up to `hi`. */
  function Range(lo: int, hi: int): (r: set<int>)
    requires lo <= hi
    ensures forall x :: x in r <==> lo <= x < hi
    ensures |r| == hi - lo
    decreases hi - lo
  {
    if lo == hi then {} else Range(lo, hi - 1) + {hi - 1}
  }

  /** The mix is the weights: each type is selected by exactly as many of the equally likely rolls as it weighs. */
  lemma RollsMatchWeights(c: Controls)
    requires ValidControls(c)
    ensures |RollsFor(c, Rain)| == c.rainWeight
    ensures |RollsFor(c, Growth)| == c.growthWeight
    ensures |RollsFor(c, Pest)| == c.pestWeight
  {
    hide ValidControls, RollsFor;
    var a, b := c.rainWeight, c.rainWeight + c.growthWeight;
    AcceptedControls(c);
    forall x: int
      ensures x in RollsFor(c, Rain) <==> 0 <= x < a
      ensures x in RollsFor(c, Growth) <==> a <= x < b
      ensures x in RollsFor(c, Pest) <==> b <= x < TotalWeight(c)
    {
      RollOf(c, x);
    }
    Spans(RollsFor(c, Rain), 0, a);
    Spans(RollsFor(c, Growth), a, b);
    Spans(RollsFor(c, Pest), b, TotalWeight(c));
  }

  lemma RollOf(c: Controls, roll: int)
    requires ValidControls(c)
    ensures roll in RollsFor(c, Rain) <==> 0 <= roll < c.rainWeight
    ensures roll in RollsFor(c, Growth) <==> c.rainWeight <= roll < c.rainWeight + c.growthWeight
    ensures roll in RollsFor(c, Pest) <==> c.rainWeight + c.growthWeight <= roll < TotalWeight(c)
  {
  }

  lemma Spans(s: set<int>, lo: int, hi: int)
    requires lo <= hi && forall x :: x in s <==> lo <= x < hi
    ensures |s| == hi - lo
  {
    assert s == Range(lo, hi);
  }

  /** The bound of the draw behind an event's magnitude, if it has one. */
  function AmountBound(t: EventType): Option<int> {
    match t
    case Rain => Some(RAIN_MAX - RAIN_MIN + 1)
    case Pest => Some(PEST_MAX - PEST_MIN + 1)
    case _ => None
  }

  function AmountMin(t: EventType): int {
    if t.Rain? then RAIN_MIN else PEST_MIN
  }

  function OrganismEvent(run: Run, sequence: nat, tick: int, typ: EventType, organism: nat, amount: int): Event {
    Event(EventID(run.runID, sequence), typ, SCHEMA_VERSION, run.runID, OrganismID(organism), run.runID,
          sequence, tick, 1, amount, 0)
  }

  function ControlEvent(run: Run, sequence: nat, tick: int, revision: int): Event {
    Event(ControlEventID(run.runID, sequence), ControlChanged, SCHEMA_VERSION, run.runID, "", run.runID,
          sequence, tick, 1, 0, revision)
  }

  /** What one event's draws decide, and the bounds asked of the tick's generator once they are made. */
  datatype Choice = Choice(typ: EventType, organism: nat, amount: int, asked: seq<int>)

  function Choose(run: Run, tick: int, c: Controls, asked: seq<int>): (r: Choice)
    requires ValidRun(run) && ValidControls(c)
    ensures r.organism < run.organisms && InRange(r.typ, r.amount)
  {
    var asked := asked + [TotalWeight(c)];
    var typ := PickType(IntN(run, tick, asked), c);
    var asked := asked + [run.organisms];
    var organism := IntN(run, tick, asked);
    match AmountBound(typ)
    case None => Choice(typ, organism, 0, asked)
    case Some(bound) =>
      var asked := asked + [bound];
      Choice(typ, organism, AmountMin(typ) + IntN(run, tick, asked), asked)
  }

  /** A magnitude the producer's ranges allow. */
  predicate InRange(typ: EventType, amount: int) {
    match typ
    case Rain => RAIN_MIN <= amount <= RAIN_MAX
    case Pest => PEST_MIN <= amount <= PEST_MAX
    case Growth => amount == 0
    case _ => false
  }

  /** Events drawn so far in a tick, and the bounds asked of its generator. */
  datatype Drawn = Drawn(events: seq<Event>, asked: seq<int>)

  /** The first `k` events of a tick whose run had emitted `emitted` events before it. */
  function Draw(run: Run, tick: int, emitted: nat, c: Controls, k: nat): (d: Drawn)
    requires ValidRun(run) && ValidControls(c)
    ensures |d.events| == k
  {
    if k == 0 then Drawn([], [])
    else
      var d := Draw(run, tick, emitted, c, k - 1);
      var r := Choose(run, tick, c, d.asked);
      Drawn(d.events + [OrganismEvent(run, emitted + k, tick, r.typ, r.organism, r.amount)], r.asked)
  }

  lemma DrawNext(run: Run, tick: int, emitted: nat, c: Controls, k: nat)
    requires ValidRun(run) && ValidControls(c)
    ensures var d := Draw(run, tick, emitted, c, k);
            var r := Choose(run, tick, c, d.asked);
            Draw(run, tick, emitted, c, k + 1)
            == Drawn(d.events + [OrganismEvent(run, emitted + k + 1, tick, r.typ, r.organism, r.amount)], r.asked)
  {
  }

  function TickEvents(run: Run, tick: int, emitted: nat, c: Controls): (es: seq<Event>)
    requires ValidRun(run) && ValidControls(c)
    ensures |es| == c.eventsPerTick
  {
    Draw(run, tick, emitted, c, c.eventsPerTick).events
  }

  /** An organism event of this run, with a magnitude the producer's ranges allow. */
  predicate Produced(run: Run, e: Event) {
    && Encodable(e) && e.runID == run.runID && e.partitionKey == run.runID
    && InRange(e.typ, e.amount)
    && e.eventID == EventID(run.runID, e.sequence)
    && Position(run.organisms, e.entityID).Some?
  }

  predicate ProducedAt(run: Run, e: Event, sequence: int, tick: int) {
    Produced(run, e) && e.sequence == sequence && e.occurredAt == tick && e.attempt == 1
  }

  lemma OrganismEventIsProduced(run: Run, sequence: nat, tick: nat, typ: EventType, organism: nat, amount: int)
    requires ValidRun(run) && organism < run.organisms && InRange(typ, amount)
    ensures ProducedAt(run, OrganismEvent(run, sequence, tick, typ, organism, amount), sequence, tick)
  {
    PositionOfOrganismID(run.organisms, organism);
  }

  /** A tick's events: well formed, naming organisms the garden has, numbered consecutively. */
  predicate ProducedInOrder(run: Run, es: seq<Event>, emitted: nat, tick: nat) {
    forall i | 0 <= i < |es| :: ProducedAt(run, es[i], emitted + i + 1, tick)
  }

  lemma ProducedInOrderSnoc(run: Run, es: seq<Event>, e: Event, emitted: nat, tick: nat)
    requires ProducedInOrder(run, es, emitted, tick) && ProducedAt(run, e, emitted + |es| + 1, tick)
    ensures ProducedInOrder(run, es + [e], emitted, tick)
  {
    forall i | 0 <= i < |es + [e]| ensures ProducedAt(run, (es + [e])[i], emitted + i + 1, tick) {
      assert i < |es| ==> (es + [e])[i] == es[i];
    }
  }

  lemma ProducedInOrderPrefix(run: Run, es: seq<Event>, emitted: nat, tick: nat, k: nat)
    requires ProducedInOrder(run, es, emitted, tick) && k <= |es|
    ensures ProducedInOrder(run, es[..k], emitted, tick)
  {
  }

  lemma {:induction false} DrawnAreProduced(run: Run, tick: nat, emitted: nat, c: Controls, k: nat)
    requires ValidRun(run) && ValidControls(c)
    ensures ProducedInOrder(run, Draw(run, tick, emitted, c, k).events, emitted, tick)
  {
    if k > 0 {
      hide Draw, Choose, ValidControls, ProducedAt, ProducedInOrder, OrganismEvent, InRange;
      DrawnAreProduced(run, tick, emitted, c, k - 1);
      DrawNext(run, tick, emitted, c, k - 1);
      var before := Draw(run, tick, emitted, c, k - 1);
      var r := Choose(run, tick, c, before.asked);
      OrganismEventIsProduced(run, emitted + k, tick, r.typ, r.organism, r.amount);
      var e := OrganismEvent(run, emitted + k, tick, r.typ, r.organism, r.amount);
      ProducedInOrderSnoc(run, before.events, e, emitted, tick);
    }
  }

  lemma ChooseIgnoresRedelivery(run: Run, every: nat, tick: int, c: Controls, asked: seq<int>)
    requires ValidRun(run) && ValidControls(c)
    ensures Choose(run.(duplicateEvery := every), tick, c, asked) == Choose(run, tick, c, asked)
  {
  }

  /** A producer's draw depends on the run only through its seed, identity and size: redelivery plays no part. */
  lemma {:induction false} DrawIgnoresRedelivery(run: Run, every: nat, tick: int, emitted: nat, c: Controls, k: nat)
    requires ValidRun(run) && ValidControls(c)
    ensures Draw(run.(duplicateEvery := every), tick, emitted, c, k) == Draw(run, tick, emitted, c, k)
  {
    if k > 0 {
      hide Draw, Choose, ValidControls;
      DrawNext(run, tick, emitted, c, k - 1);
      DrawNext(run.(duplicateEvery := every), tick, emitted, c, k - 1);
      DrawIgnoresRedelivery(run, every, tick, emitted, c, k - 1);
      ChooseIgnoresRedelivery(run, every, tick, c, Draw(run, tick, emitted, c, k - 1).asked);
    }
  }

  class Producer {
    const run: Run
    var emitted: nat

    constructor (run: Run, count: nat)
      requires ValidRun(run)
      ensures this.run == run && emitted == count
    {
      this.run := run;
      emitted := count;
    }

    /** One tick's events, or the defect of controls that bypassed validation. */
    method Tick(tick: int, c: Controls) returns (r: Result<seq<Event>, ControlDefect>)
      requires ValidRun(run)
      modifies this
      ensures r.Success? <==> ValidControls(c)
      ensures r.Success? ==> r.value == TickEvents(run, tick, old(emitted), c)
      ensures r.Success? ==> emitted == old(emitted) + c.eventsPerTick
      ensures r.Failure? ==> emitted == old(emitted)
    {
      var defect := ValidateControls(c);
      if defect.Some? { return Failure(defect.value); }
      var es := Emit(tick, c);
      r := Success(es);
    }

    method Emit(tick: int, c: Controls) returns (out: seq<Event>)
      requires ValidRun(run) && ValidControls(c)
      modifies this
      ensures out == TickEvents(run, tick, old(emitted), c) && emitted == old(emitted) + c.eventsPerTick
    {
      out := [];
      var asked: seq<int> := [];
      var n: nat := c.eventsPerTick;
      assert Drawn(out, asked) == Draw(run, tick, emitted, c, 0);
      hide Draw, Choose, OrganismEvent, ValidControls;
      for i := 0 to n
        invariant emitted == old(emitted) + i
        invariant Drawn(out, asked) == Draw(run, tick, old(emitted), c, i)
      {
        DrawNext(run, tick, old(emitted), c, i);
        var drawn := Choose(run, tick, c, asked);
        asked := drawn.asked;
        emitted := emitted + 1;
        out := out + [OrganismEvent(run, emitted, tick, drawn.typ, drawn.organism, drawn.amount)];
      }
    }

    method ControlChangedEvent(tick: int, revision: int) returns (e: Event)
      modifies this
      ensures emitted == old(emitted) + 1 && e == ControlEvent(run, emitted, tick, revision)
    {
      emitted := emitted + 1;
      e := ControlEvent(run, emitted, tick, revision);
    }

    /** Goes on from this count of events. */
    method Resume(count: nat)
      modifies this
      ensures emitted == count
    {
      emitted := count;
    }
  }
}
