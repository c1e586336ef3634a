/** What the counters count: each one, over any events, told from the events and from whether the garden changed. */
module Accounts {
  import opened Identifiers
  import opened Events
  import opened Gardens
  import opened Processing
  import opened Absorption
  import opened RuleLaws

  /** What may become of an event: its envelope is invalid, its key came before, it changes the garden, it changes
      nothing, or it names an organism the garden does not have. */
  datatype Fate = Invalid | Repeated | Changing | Idle | Nameless

  ghost function FateOf(p: Projection, head: seq<Event>, e: Event): Fate {
    if !Valid(e) then Invalid
    else if Key(e) in p.seen || Key(e) in Keys(head) then Repeated
    else if Fold(p, head + [e]).garden != Fold(p, head).garden then Changing
    else if IsOrganismEvent(e) && !Names(p.garden, e.entityID) then Nameless
    else Idle
  }

  predicate Names(g: Plot, id: string) {
    exists i :: 0 <= i < |g| && g[i].id == id
  }

  /** How many events met this fate. */
  ghost function Fates(p: Projection, es: seq<Event>, f: Fate): nat {
    if es == [] then 0
    else
      var head, e := es[..|es| - 1], es[|es| - 1];
      Fates(p, head, f) + if FateOf(p, head, e) == f then 1 else 0
  }

  /** The events that reached the rules: valid ones whose key had not come before. */
  ghost function Handled(p: Projection, es: seq<Event>): seq<Event> {
    if es == [] then []
    else
      var head, e := es[..|es| - 1], es[|es| - 1];
      Handled(p, head) + if FateOf(p, head, e) in {Invalid, Repeated} then [] else [e]
  }

  function OfType(es: seq<Event>, t: EventType): nat {
    if es == [] then 0 else OfType(es[..|es| - 1], t) + if es[|es| - 1].typ == t then 1 else 0
  }

  lemma NamesExactly(g: Plot, id: string)
    requires Indexed(g)
    ensures Names(g, id) <==> Position(|g|, id).Some?
  {
    if Position(|g|, id).Some? {
      PositionNames(|g|, id);
      assert g[Position(|g|, id).value].id == id;
    }
    if Names(g, id) {
      var i :| 0 <= i < |g| && g[i].id == id;
      PositionOfOrganismID(|g|, i);
    }
  }

  /** One more event: it is counted as received, under its fate, and under its type if it reached the rules. */
  lemma OneMoreCounted(p: Projection, head: seq<Event>, e: Event)
    requires AllBounded(p.garden) && Indexed(p.garden)
    ensures var f, c, r := FateOf(p, head, e), Fold(p, head).counters, Fold(p, head + [e]).counters;
            && r.received == c.received + 1
            && r.rejected == c.rejected + (if f == Invalid then 1 else 0)
            && r.duplicates == c.duplicates + (if f == Repeated then 1 else 0)
            && r.applied == c.applied + (if f == Changing then 1 else 0)
            && r.noEffect == c.noEffect + (if f == Idle then 1 else 0)
            && r.unknownEntity == c.unknownEntity + (if f == Nameless then 1 else 0)
            && forall t :: CountOf(r.byType, t)
                           == CountOf(c.byType, t) + if t == e.typ && f !in {Invalid, Repeated} then 1 else 0
  {
    FoldSnoc(p, head, e);
    FoldSeen(p, head);
    FoldSpends(p, head);
    FoldKeepsIndex(p, head);
    hide Fold, Keys, Key, AllBounded, Indexed, TotalPotential, Names, Position;
    AppliedExactlyWhenChanged(Fold(p, head).garden, e);
    UnknownExactly(p.garden, Fold(p, head).garden, e);
  }

  lemma UnknownExactly(g: Plot, h: Plot, e: Event)
    requires Indexed(g) && |g| == |h|
    ensures ApplyEvent(h, e).1 == UnknownEntity <==> IsOrganismEvent(e) && !Names(g, e.entityID)
  {
    NamesExactly(g, e.entityID);
    hide Names;
  }

  /** Over any events every counter grows by exactly what its name says: applied by the events that changed the garden,
      no-effect and unknown by those that reached the rules and did not, told apart by whether the organism exists,
      and each type by those of it that reached the rules. */
  lemma {:induction false} FoldAccounts(p: Projection, es: seq<Event>)
    requires AllBounded(p.garden) && Indexed(p.garden)
    ensures var c, r := p.counters, Fold(p, es).counters;
            && r.received == c.received + |es|
            && r.rejected == c.rejected + Fates(p, es, Invalid)
            && r.duplicates == c.duplicates + Fates(p, es, Repeated)
            && r.applied == c.applied + Fates(p, es, Changing)
            && r.noEffect == c.noEffect + Fates(p, es, Idle)
            && r.unknownEntity == c.unknownEntity + Fates(p, es, Nameless)
            && forall t :: CountOf(r.byType, t) == CountOf(c.byType, t) + OfType(Handled(p, es), t)
  {
    hide Fold, Fates, FateOf, AllBounded, Indexed, Handled, OfType;
    if es != [] {
      var head, e := es[..|es| - 1], es[|es| - 1];
      FoldAccounts(p, head);
      OneMoreCounted(p, head, e);
      assert head + [e] == es;
      HandledNext(p, head, e);
      FatesNext(p, head, e);
    } else {
      NothingCounted(p);
    }
  }

  lemma NothingCounted(p: Projection)
    ensures Fold(p, []) == p
    ensures forall f :: Fates(p, [], f) == 0
    ensures forall t :: OfType(Handled(p, []), t) == 0
  {
  }

  lemma FatesNext(p: Projection, head: seq<Event>, e: Event)
    ensures forall f :: Fates(p, head + [e], f) == Fates(p, head, f) + if FateOf(p, head, e) == f then 1 else 0
  {
    hide FateOf;
    assert (head + [e])[..|head + [e]| - 1] == head;
  }

  lemma HandledNext(p: Projection, head: seq<Event>, e: Event)
    ensures forall t :: OfType(Handled(p, head + [e]), t)
                        == OfType(Handled(p, head), t)
                           + if t == e.typ && FateOf(p, head, e) !in {Invalid, Repeated} then 1 else 0
  {
    HandledSnoc(p, head, e);
    hide FateOf, Handled;
    var h := Handled(p, head);
    assert (h + [e])[..|h + [e]| - 1] == h;
  }

  /** The garden is what the events that reached the rules make of it, and applied counts those that did something. */
  lemma {:induction false} FoldAppliesHandled(p: Projection, es: seq<Event>)
    ensures Fold(p, es).garden == ApplyAll(p.garden, Handled(p, es)).0
    ensures Fold(p, es).counters.applied == p.counters.applied + ApplyAll(p.garden, Handled(p, es)).1
  {
    hide Fold, ApplyEvent, FateOf, ApplyAll, Handled;
    if es != [] {
      var head, e := es[..|es| - 1], es[|es| - 1];
      FoldAppliesHandled(p, head);
      assert head + [e] == es;
      OneMoreHandled(p, head, e);
    } else {
      NothingHandled(p);
    }
  }

  lemma NothingHandled(p: Projection)
    ensures Fold(p, []) == p && ApplyAll(p.garden, Handled(p, [])) == (p.garden, 0)
  {
  }

  lemma OneMoreHandled(p: Projection, head: seq<Event>, e: Event)
    requires Fold(p, head).garden == ApplyAll(p.garden, Handled(p, head)).0
    requires Fold(p, head).counters.applied == p.counters.applied + ApplyAll(p.garden, Handled(p, head)).1
    ensures Fold(p, head + [e]).garden == ApplyAll(p.garden, Handled(p, head + [e])).0
    ensures Fold(p, head + [e]).counters.applied == p.counters.applied + ApplyAll(p.garden, Handled(p, head + [e])).1
  {
    ReachesTheRules(p, head, e);
    FoldSnoc(p, head, e);
    HandledSnoc(p, head, e);
    ApplyOneMore(p.garden, Handled(p, head), e);
    hide Fold, ApplyEvent, FateOf, ApplyAll, Handled, Validate, Key;
  }

  lemma ReachesTheRules(p: Projection, head: seq<Event>, e: Event)
    ensures FateOf(p, head, e) in {Invalid, Repeated} <==> !Dispose(Fold(p, head), e).Handled?
  {
    FoldSeen(p, head);
    hide Fold, Keys, Key, Validate, ApplyEvent;
  }

  lemma HandledSnoc(p: Projection, head: seq<Event>, e: Event)
    ensures Handled(p, head + [e])
         == if FateOf(p, head, e) in {Invalid, Repeated} then Handled(p, head) else Handled(p, head) + [e]
  {
    assert (head + [e])[..|head + [e]| - 1] == head;
    hide FateOf;
  }

  lemma ApplyOneMore(g: Plot, es: seq<Event>, e: Event)
    ensures var before, r := ApplyAll(g, es), ApplyEvent(ApplyAll(g, es).0, e);
            ApplyAll(g, es + [e]) == (r.0, before.1 + if r.1.Applied? then 1 else 0)
  {
    assert (es + [e])[..|es + [e]| - 1] == es;
    hide ApplyEvent;
  }

  /** So a replay leaves every organism with 100 less the damage that reached it, or no health. */
  lemma ReplayedHealth(n: nat, es: seq<Event>, i: nat)
    requires i < n
    ensures var p := Starting(FreshPlot(n));
            && |Replay(n, es).garden| == n
            && Replay(n, es).garden[i].health == Larger(100 - PestOn(Handled(p, es), OrganismID(i)), 0)
  {
    hide Fold, ApplyAll, FreshPlot, OrganismID, PestOn, Handled;
    FoldAppliesHandled(Starting(FreshPlot(n)), es);
    HealthLaw(n, Handled(Starting(FreshPlot(n)), es), i);
  }
}
