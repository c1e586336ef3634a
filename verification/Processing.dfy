/** Validation, deduplication and application of events, and what folding a history means. */
module Processing {
  import opened Events
  import opened Gardens

  datatype Counters = Counters(
    received: nat, applied: nat, noEffect: nat, duplicates: nat, rejected: nat, unknownEntity: nat,
    byType: map<EventType, nat>)

  const NO_COUNTS: Counters := Counters(0, 0, 0, 0, 0, 0, map[])

  /** A processor's whole state: the garden it owns, the keys it has applied, its counters. */
  datatype Projection = Projection(garden: Plot, seen: set<string>, counters: Counters)

  datatype Disposition = Rejected(defect: Defect) | Duplicate | Handled(outcome: Outcome)

  function CountOf(m: map<EventType, nat>, t: EventType): nat {
    if t in m then m[t] else 0
  }

  function Bump(m: map<EventType, nat>, t: EventType): map<EventType, nat> {
    m[t := CountOf(m, t) + 1]
  }

  function Dispose(p: Projection, e: Event): Disposition {
    match Validate(e)
    case Some(defect) => Rejected(defect)
    case None => if Key(e) in p.seen then Duplicate else Handled(ApplyEvent(p.garden, e).1)
  }

  /** The counters after one event met this fate. */
  function Tally(c: Counters, e: Event, d: Disposition): Counters {
    var c := c.(received := c.received + 1);
    match d
    case Rejected(_) => c.(rejected := c.rejected + 1)
    case Duplicate => c.(duplicates := c.duplicates + 1)
    case Handled(o) =>
      var c := c.(byType := Bump(c.byType, e.typ));
      match o
      case Applied => c.(applied := c.applied + 1)
      case UnknownEntity => c.(unknownEntity := c.unknownEntity + 1)
      case NoEffect => c.(noEffect := c.noEffect + 1)
  }

  function Consume(p: Projection, e: Event): Projection {
    var d := Dispose(p, e);
    var counters := Tally(p.counters, e, d);
    if d.Handled? then Projection(ApplyEvent(p.garden, e).0, p.seen + {Key(e)}, counters)
    else p.(counters := counters)
  }

  function Fold(p: Projection, es: seq<Event>): Projection {
    if es == [] then p else Consume(Fold(p, es[..|es| - 1]), es[|es| - 1])
  }

  /** A processor that owns a garden and has seen nothing. */
  function Starting(g: Plot, counters: Counters := NO_COUNTS): Projection {
    Projection(g, {}, counters)
  }

  /** What the reference replay computes: the whole history into a fresh garden. */
  function Replay(organisms: nat, es: seq<Event>): Projection {
    Fold(Starting(FreshPlot(organisms)), es)
  }

  function Merge(a: Counters, b: Counters): Counters {
    Counters(a.received + b.received, a.applied + b.applied, a.noEffect + b.noEffect,
             a.duplicates + b.duplicates, a.rejected + b.rejected, a.unknownEntity + b.unknownEntity,
             map t | t in a.byType.Keys + b.byType.Keys :: CountOf(a.byType, t) + CountOf(b.byType, t))
  }

  // ---- folding, one record or one block at a time ----

  lemma FoldSnoc(p: Projection, es: seq<Event>, e: Event)
    ensures Fold(p, es + [e]) == Consume(Fold(p, es), e)
  {
    assert (es + [e])[..|es + [e]| - 1] == es;
  }

  /** Folding in two portions is folding at once. */
  lemma {:induction false} FoldConcat(p: Projection, a: seq<Event>, b: seq<Event>)
    ensures Fold(p, a + b) == Fold(Fold(p, a), b)
    decreases |b|
  {
    if b == [] {
      assert a + b == a;
    } else {
      var k := |b| - 1;
      assert a + b == (a + b[..k]) + [b[k]];
      FoldSnoc(p, a + b[..k], b[k]);
      FoldConcat(p, a, b[..k]);
    }
  }

  lemma {:induction false} FoldKeepsIndex(p: Projection, es: seq<Event>)
    ensures |Fold(p, es).garden| == |p.garden|
    ensures Indexed(p.garden) ==> Indexed(Fold(p, es).garden)
  {
    if es != [] {
      FoldKeepsIndex(p, es[..|es| - 1]);
      ApplyKeepsIndex(Fold(p, es[..|es| - 1]).garden, es[|es| - 1]);
    }
  }

  lemma {:induction false} FoldSeen(p: Projection, es: seq<Event>)
    ensures Fold(p, es).seen == p.seen + Keys(es)
  {
    if es != [] {
      var k := |es| - 1;
      FoldSeen(p, es[..k]);
      assert es == es[..k] + [es[k]];
      KeysOfSnoc(es[..k], es[k]);
    }
  }

  // ---- conservation ----

  const COUNTED_TYPES: set<EventType> := {Rain, Growth, Pest, ControlChanged, RunStateChanged}

  function ByTypeTotal(m: map<EventType, nat>): nat {
    CountOf(m, Rain) + CountOf(m, Growth) + CountOf(m, Pest) + CountOf(m, ControlChanged) + CountOf(m, RunStateChanged)
  }

  /** Every record received met exactly one fate, and every record that reached the rules is counted under its type. */
  predicate Conserved(c: Counters) {
    && c.received == c.applied + c.noEffect + c.duplicates + c.rejected + c.unknownEntity
    && c.byType.Keys <= COUNTED_TYPES
    && ByTypeTotal(c.byType) == c.received - c.duplicates - c.rejected
  }

  lemma NothingCounted()
    ensures Conserved(NO_COUNTS)
  {
  }

  lemma BumpTotal(m: map<EventType, nat>, t: EventType)
    requires t in COUNTED_TYPES
    ensures ByTypeTotal(Bump(m, t)) == ByTypeTotal(m) + 1
  {
  }

  lemma TallyConserves(c: Counters, e: Event, d: Disposition)
    requires Conserved(c) && (d.Handled? ==> e.typ in COUNTED_TYPES)
    ensures Conserved(Tally(c, e, d))
  {
    if d.Handled? {
      BumpTotal(c.byType, e.typ);
      assert Tally(c, e, d).byType == Bump(c.byType, e.typ);
    }
  }

  lemma {:induction false} FoldConserves(p: Projection, es: seq<Event>)
    requires Conserved(p.counters)
    ensures Conserved(Fold(p, es).counters)
    ensures Fold(p, es).counters.received == p.counters.received + |es|
  {
    if es != [] {
      var k := |es| - 1;
      FoldConserves(p, es[..k]);
      ConsumeConserves(Fold(p, es[..k]), es[k]);
      hide Consume, Conserved;
    }
  }

  lemma ConsumeConserves(p: Projection, e: Event)
    requires Conserved(p.counters)
    ensures Conserved(Consume(p, e).counters) && Consume(p, e).counters.received == p.counters.received + 1
  {
    hide Conserved, ApplyEvent, Key;
    TallyConserves(p.counters, e, Dispose(p, e));
  }

  lemma MergeConserves(a: Counters, b: Counters)
    requires Conserved(a) && Conserved(b)
    ensures Conserved(Merge(a, b))
  {
  }

  // ---- splitting a history ----

  /** No key of the second half was already applied in the first. */
  ghost predicate NoKeySpans(head: seq<Event>, tail: seq<Event>) {
    Keys(head) !! Keys(tail)
  }

  lemma {:induction false} FoldWithForgottenKeys(p: Projection, es: seq<Event>)
    requires p.seen !! Keys(es)
    ensures var whole, part := Fold(p, es), Fold(Starting(p.garden), es);
            whole.garden == part.garden && whole.counters == Merge(p.counters, part.counters)
  {
    if es == [] {
      assert Merge(p.counters, NO_COUNTS).byType == p.counters.byType;
    } else {
      var k := |es| - 1;
      assert es == es[..k] + [es[k]];
      KeysOfSnoc(es[..k], es[k]);
      FoldWithForgottenKeys(p, es[..k]);
      FoldSeen(p, es[..k]);
      FoldSeen(Starting(p.garden), es[..k]);
      var w, t := Fold(p, es[..k]), Fold(Starting(p.garden), es[..k]);
      assert Dispose(w, es[k]) == Dispose(t, es[k]);
      TallyOfMerge(p.counters, t.counters, es[k], Dispose(t, es[k]));
    }
  }

  lemma BumpOfMerge(a: Counters, b: Counters, t: EventType)
    ensures Bump(Merge(a, b).byType, t) == Merge(a, b.(byType := Bump(b.byType, t))).byType
  {
  }

  lemma TallyOfMerge(a: Counters, b: Counters, e: Event, d: Disposition)
    ensures Tally(Merge(a, b), e, d) == Merge(a, Tally(b, e, d))
  {
    BumpOfMerge(a, b, e.typ);
  }

  lemma OverlapGrows(a: set<string>, k: set<string>, x: string)
    ensures |a * (k + {x})| == |a * k| + if x in a && x !in k then 1 else 0
  {
    if x in a && x !in k {
      assert a * (k + {x}) == a * k + {x};
    } else {
      assert a * (k + {x}) == a * k;
    }
  }

  /** How many of these events a processor holding `seen` drops as redeliveries. */
  ghost function Repeats(seen: set<string>, es: seq<Event>): nat {
    if es == [] then 0
    else
      var head, e := es[..|es| - 1], es[|es| - 1];
      Repeats(seen, head) + if Valid(e) && Key(e) in seen + Keys(head) then 1 else 0
  }

  lemma {:induction false} DuplicatesAreRepeats(p: Projection, es: seq<Event>)
    ensures Fold(p, es).counters.duplicates == p.counters.duplicates + Repeats(p.seen, es)
  {
    if es != [] {
      DuplicatesAreRepeats(p, es[..|es| - 1]);
      FoldSeen(p, es[..|es| - 1]);
    }
  }

  lemma {:induction false} RepeatsMissed(seen: set<string>, es: seq<Event>)
    ensures Repeats(seen, es) == Repeats({}, es) + |seen * Keys(es)|
  {
    if es == [] {
      assert seen * Keys(es) == {};
    } else {
      var head, e := es[..|es| - 1], es[|es| - 1];
      assert es == head + [e];
      RepeatsMissed(seen, head);
      KeysOfSnoc(head, e);
      OverlapGrows(seen, Keys(head), Key(e));
      assert !Valid(e) ==> Keys(es) == Keys(head);
    }
  }

  /** A processor that forgot its keys misses one duplicate per key spanning the split, whatever the events are. */
  lemma DuplicatesMissed(p: Projection, es: seq<Event>)
    ensures Fold(p, es).counters.duplicates
         == p.counters.duplicates + Fold(Starting(p.garden), es).counters.duplicates + |p.seen * Keys(es)|
  {
    DuplicatesAreRepeats(p, es);
    DuplicatesAreRepeats(Starting(p.garden), es);
    RepeatsMissed(p.seen, es);
  }

  /** Folding the halves separately, the second with an empty table, and merging the counters gives the fold of the
      whole exactly when no key occurs on both sides. */
  lemma SplitFoldAgreesExactly(organisms: nat, head: seq<Event>, tail: seq<Event>)
    ensures var whole, first := Replay(organisms, head + tail), Replay(organisms, head);
            var second := Fold(Starting(first.garden), tail);
            NoKeySpans(head, tail)
            <==> whole.garden == second.garden && whole.counters == Merge(first.counters, second.counters)
  {
    var first := Replay(organisms, head);
    FoldConcat(Starting(FreshPlot(organisms)), head, tail);
    FoldSeen(Starting(FreshPlot(organisms)), head);
    DuplicatesMissed(first, tail);
    if NoKeySpans(head, tail) {
      FoldWithForgottenKeys(first, tail);
    } else {
      var x :| x in Keys(head) * Keys(tail);
      assert |first.seen * Keys(tail)| > 0;
    }
  }

  // ---- projections that may have missed something ----

  lemma SubsetSize(a: set<string>, b: set<string>)
    requires a <= b
    ensures |a| <= |b| && (|a| == |b| ==> a == b)
  {
    assert b == a + (b - a);
  }

  /** Two projections that agree on the garden, the counters and the keys about to come fold alike. */
  lemma {:induction false} FoldAlike(p: Projection, q: Projection, es: seq<Event>)
    requires p.garden == q.garden && p.counters == q.counters && p.seen * Keys(es) == q.seen * Keys(es)
    ensures Fold(p, es).garden == Fold(q, es).garden && Fold(p, es).counters == Fold(q, es).counters
  {
    if es != [] {
      var head, e := es[..|es| - 1], es[|es| - 1];
      assert es == head + [e];
      KeysOfSnoc(head, e);
      assert forall x :: x in Keys(es) ==> (x in p.seen <==> x in p.seen * Keys(es));
      assert forall x :: x in Keys(es) ==> (x in q.seen <==> x in q.seen * Keys(es));
      FoldAlike(p, q, head);
      FoldSeen(p, head);
      FoldSeen(q, head);
      var a, b := Fold(p, head), Fold(q, head);
      hide Fold, Keys, ApplyEvent, Tally, Key, Validate;
      assert Dispose(a, e) == Dispose(b, e);
    }
  }

  /** A projection that follows a history: it never counted a redelivery too many, and if it missed none it shows
      what the replay shows. */
  ghost predicate Tracks(organisms: nat, es: seq<Event>, p: Projection) {
    var whole := Replay(organisms, es);
    && p.seen <= Keys(es)
    && p.counters.duplicates <= whole.counters.duplicates
    && (MissedNone(organisms, es, p) ==> p.garden == whole.garden && p.counters == whole.counters)
  }

  predicate MissedNone(organisms: nat, es: seq<Event>, p: Projection) {
    p.counters.duplicates == Replay(organisms, es).counters.duplicates
  }

  lemma TracksFromTheStart(organisms: nat)
    ensures var p := Starting(FreshPlot(organisms));
            Replay(organisms, []) == p && Tracks(organisms, [], p) && MissedNone(organisms, [], p)
  {
    hide FreshPlot;
  }

  /** The replay counts exactly the records that repeat an earlier key. */
  lemma ReplayCountsRepeats(organisms: nat, es: seq<Event>)
    ensures Replay(organisms, es).counters.duplicates == Repeats({}, es)
  {
    DuplicatesAreRepeats(Starting(FreshPlot(organisms)), es);
  }

  /** A projection that tracks a history keeps tracking it, and has missed nothing exactly when it had missed nothing
      and knows every earlier key that comes again. */
  lemma TracksOn(organisms: nat, head: seq<Event>, p: Projection, tail: seq<Event>)
    requires Tracks(organisms, head, p)
    ensures Tracks(organisms, head + tail, Fold(p, tail))
    ensures MissedNone(organisms, head + tail, Fold(p, tail))
            <==> MissedNone(organisms, head, p) && Keys(head) * Keys(tail) <= p.seen
  {
    var whole := Replay(organisms, head);
    FoldConcat(Starting(FreshPlot(organisms)), head, tail);
    FoldSeen(Starting(FreshPlot(organisms)), head);
    FoldSeen(p, tail);
    KeysOfConcat(head, tail);
    DuplicatesAreRepeats(p, tail);
    DuplicatesAreRepeats(whole, tail);
    RepeatsMissed(p.seen, tail);
    RepeatsMissed(whole.seen, tail);
    hide Fold, Keys, Repeats;
    SubsetSize(p.seen * Keys(tail), whole.seen * Keys(tail));
    assert whole.seen * Keys(tail) <= p.seen <==> p.seen * Keys(tail) == whole.seen * Keys(tail);
    if MissedNone(organisms, head + tail, Fold(p, tail)) { FoldAlike(p, whole, tail); }
  }

  // ---- the garden alone ----

  /** Two tables agree on every organism event to come. Control records never touch the garden. */
  ghost predicate OrganismKeysAlike(a: set<string>, b: set<string>, es: seq<Event>) {
    forall e | e in es && IsOrganismEvent(e) :: Key(e) in a <==> Key(e) in b
  }

  /** Only the keys of organism events matter to the garden. */
  lemma {:induction false} GardenAlike(p: Projection, q: Projection, es: seq<Event>)
    requires p.garden == q.garden && OrganismKeysAlike(p.seen, q.seen, es)
    ensures Fold(p, es).garden == Fold(q, es).garden
  {
    if es != [] {
      var k := |es| - 1;
      assert forall e :: e in es[..k] ==> e in es;
      GardenAlike(p, q, es[..k]);
      FoldSeen(p, es[..k]);
      FoldSeen(q, es[..k]);
      assert es[k] in es;
    }
  }

  // ---- the processor object ----

  predicate AllValid(es: seq<Event>) {
    forall e | e in es :: Valid(e)
  }

  lemma AllValidSnoc(es: seq<Event>, e: Event)
    ensures AllValid(es + [e]) <==> AllValid(es) && Valid(e)
  {
    assert forall x :: x in es + [e] <==> x in es || x == e;
  }

  class Processor {
    const garden: Garden
    var applied: set<string>
    var stats: Counters

    ghost predicate Valid()
      reads this, garden, garden.organisms
    {
      garden.Valid()
    }

    ghost function View(): Projection
      reads this, garden, garden.organisms
    {
      Projection(garden.organisms[..], applied, stats)
    }

    constructor (g: Garden)
      requires g.Valid()
      ensures Valid() && garden == g && View() == Starting(g.organisms[..])
    {
      garden := g;
      applied := {};
      stats := NO_COUNTS;
    }

    method Process(e: Event) returns (d: Disposition)
      requires Valid()
      modifies this, garden.organisms
      ensures Valid()
      ensures d == Dispose(old(View()), e) && View() == Consume(old(View()), e)
    {
      hide Key, ApplyEvent, Bump, Validate;
      stats := stats.(received := stats.received + 1);
      var defect := Validate(e);
      if defect.Some? {
        stats := stats.(rejected := stats.rejected + 1);
        return Rejected(defect.value);
      }
      if Key(e) in applied {
        stats := stats.(duplicates := stats.duplicates + 1);
        return Duplicate;
      }
      applied := applied + {Key(e)};
      var outcome := garden.Apply(e);
      stats := stats.(byType := Bump(stats.byType, e.typ));
      match outcome {
        case Applied => stats := stats.(applied := stats.applied + 1);
        case UnknownEntity => stats := stats.(unknownEntity := stats.unknownEntity + 1);
        case NoEffect => stats := stats.(noEffect := stats.noEffect + 1);
      }
      return Handled(outcome);
    }

    /** Processes every event, then reports whether each envelope was valid. */
    method ProcessBatch(es: seq<Event>) returns (ok: bool)
      requires Valid()
      modifies this, garden.organisms
      ensures Valid()
      ensures ok <==> AllValid(es)
      ensures View() == Fold(old(View()), es)
    {
      ok := true;
      var i := 0;
      while i < |es|
        invariant 0 <= i <= |es|
        invariant Valid()
        invariant ok <==> AllValid(es[..i])
        invariant View() == Fold(old(View()), es[..i])
      {
        FoldSnoc(old(View()), es[..i], es[i]);
        AllValidSnoc(es[..i], es[i]);
        assert es[..i + 1] == es[..i] + [es[i]];
        var d := Process(es[i]);
        if d.Rejected? { ok := false; }
        i := i + 1;
      }
      assert es[..i] == es;
    }

    /** Adopts counters from a history. The table of applied keys is not restored. */
    method Restore(s: Counters)
      requires Valid()
      modifies this
      ensures Valid() && View() == old(View()).(counters := s)
    {
      stats := s;
    }
  }
}
