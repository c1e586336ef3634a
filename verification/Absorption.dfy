/** A garden can only absorb so much: every event that changes it uses up a finite potential. */
module Absorption {
  import opened Identifiers
  import opened Events
  import opened Gardens
  import opened Processing

  predicate Bounded(o: Organism) {
    0 <= o.moisture <= MAX_MOISTURE && 0 <= o.health <= MAX_HEALTH && 0 <= o.stage <= MAX_STAGE
  }

  predicate AllBounded(g: Plot) {
    forall i | 0 <= i < |g| :: Bounded(g[i])
  }

  /** Health left, moisture still to take in, and 21 for every stage to grow, one more than it costs in moisture;
      305 for a fresh organism. */
  function Potential(o: Organism): int {
    o.health + (MAX_MOISTURE - o.moisture) + 21 * (MAX_STAGE - o.stage)
  }

  function TotalPotential(g: Plot): int {
    if g == [] then 0 else TotalPotential(g[..|g| - 1]) + Potential(g[|g| - 1])
  }

  /** A garden after a sequence of events, and how many of them were applied. */
  function ApplyAll(g: Plot, es: seq<Event>): (Plot, nat) {
    if es == [] then (g, 0)
    else
      var before := ApplyAll(g, es[..|es| - 1]);
      var r := ApplyEvent(before.0, es[|es| - 1]);
      (r.0, before.1 + if r.1.Applied? then 1 else 0)
  }

  /** Rain addressed to one organism. */
  function RainOn(es: seq<Event>, id: string): nat {
    if es == [] then 0
    else
      var e := es[|es| - 1];
      RainOn(es[..|es| - 1], id) + if e.typ.Rain? && e.entityID == id && e.amount > 0 then e.amount else 0
  }

  lemma RuleSpendsPotential(o: Organism, e: Event)
    requires Bounded(o)
    ensures var r := Ruled(o, e);
            && Bounded(r.0)
            && (r.1.Applied? <==> r.0 != o)
            && (r.1.Applied? ==> Potential(r.0) < Potential(o))
  {
  }

  lemma {:induction false} PotentialOfUpdate(g: Plot, i: nat, o: Organism)
    requires i < |g|
    ensures TotalPotential(g[i := o]) == TotalPotential(g) - Potential(g[i]) + Potential(o)
  {
    var k := |g| - 1;
    if i == k {
      assert g[i := o][..k] == g[..k];
    } else {
      PotentialOfUpdate(g[..k], i, o);
      assert g[i := o][..k] == g[..k][i := o];
    }
  }

  lemma {:induction false} PotentialIsNatural(g: Plot)
    requires AllBounded(g)
    ensures TotalPotential(g) >= 0
  {
    if g != [] { PotentialIsNatural(g[..|g| - 1]); }
  }

  lemma {:induction false} FreshPotential(n: nat)
    ensures AllBounded(FreshPlot(n)) && TotalPotential(FreshPlot(n)) == 305 * n
  {
    if n > 0 {
      FreshPotential(n - 1);
      assert FreshPlot(n)[..n - 1] == FreshPlot(n - 1);
      assert Potential(FreshPlot(n)[n - 1]) == 305;
      hide Potential;
    }
  }

  /** An event is reported applied exactly when it changed the garden, and then it spent potential. */
  lemma AppliedExactlyWhenChanged(g: Plot, e: Event)
    requires AllBounded(g)
    ensures var r := ApplyEvent(g, e);
            && AllBounded(r.0)
            && (r.1.Applied? <==> r.0 != g)
            && (r.1.Applied? ==> TotalPotential(r.0) < TotalPotential(g))
  {
    if IsOrganismEvent(e) && Position(|g|, e.entityID).Some? {
      var i := Position(|g|, e.entityID).value;
      RuleSpendsPotential(g[i], e);
      PotentialOfUpdate(g, i, Ruled(g[i], e).0);
      var after := ApplyEvent(g, e).0;
      assert after[i] == Ruled(g[i], e).0;
      assert after[i] == g[i] ==> after == g;
    }
  }

  lemma {:induction false} AppliedIsSpent(g: Plot, es: seq<Event>)
    requires AllBounded(g)
    ensures AllBounded(ApplyAll(g, es).0)
    ensures ApplyAll(g, es).1 + TotalPotential(ApplyAll(g, es).0) <= TotalPotential(g)
  {
    if es != [] {
      AppliedIsSpent(g, es[..|es| - 1]);
      AppliedExactlyWhenChanged(ApplyAll(g, es[..|es| - 1]).0, es[|es| - 1]);
    }
  }

  /** However long the history, a fresh garden of `n` organisms changes at most 305n times. */
  lemma AbsorptionBound(n: nat, es: seq<Event>)
    ensures ApplyAll(FreshPlot(n), es).1 <= 305 * n
  {
    FreshPotential(n);
    AppliedIsSpent(FreshPlot(n), es);
    PotentialIsNatural(ApplyAll(FreshPlot(n), es).0);
  }

  lemma {:induction false} FoldSpends(p: Projection, es: seq<Event>)
    requires AllBounded(p.garden)
    ensures AllBounded(Fold(p, es).garden)
    ensures Fold(p, es).counters.applied - p.counters.applied + TotalPotential(Fold(p, es).garden)
         <= TotalPotential(p.garden)
  {
    if es != [] {
      FoldSpends(p, es[..|es| - 1]);
      AppliedExactlyWhenChanged(Fold(p, es[..|es| - 1]).garden, es[|es| - 1]);
    }
  }

  /** The same bound on the counter a processor reports. */
  lemma AppliedCounterBound(n: nat, es: seq<Event>)
    ensures Replay(n, es).counters.applied <= 305 * n
  {
    FreshPotential(n);
    FoldSpends(Starting(FreshPlot(n)), es);
    PotentialIsNatural(Replay(n, es).garden);
  }

  /** A projection of a garden of `n` organisms that spent what it counts: every record met one fate, and what was
      applied came out of the garden's potential. */
  predicate Budgeted(n: nat, p: Projection) {
    && AllBounded(p.garden) && Conserved(p.counters)
    && p.counters.applied + TotalPotential(p.garden) <= 305 * n
  }

  lemma BudgetedOn(n: nat, p: Projection, es: seq<Event>)
    requires Budgeted(n, p)
    ensures Budgeted(n, Fold(p, es))
  {
    hide Fold, Conserved, AllBounded, TotalPotential;
    FoldSpends(p, es);
    FoldConserves(p, es);
  }

  lemma BudgetedFresh(n: nat)
    ensures Budgeted(n, Starting(FreshPlot(n)))
  {
    hide Conserved, AllBounded, TotalPotential, FreshPlot;
    FreshPotential(n);
    NothingCounted();
  }

  lemma RuleUsesRain(o: Organism, e: Event)
    requires Bounded(o)
    ensures var r := Ruled(o, e).0;
            r.moisture + GROWTH_MOISTURE_COST * r.stage
            <= o.moisture + GROWTH_MOISTURE_COST * o.stage + if e.typ.Rain? && e.amount > 0 then e.amount else 0
  {
  }

  /** An organism's banked moisture and the growth it paid for never exceed the rain addressed to it. */
  lemma {:induction false} GrowthIsPaidInRain(n: nat, es: seq<Event>, i: nat)
    requires i < n
    ensures var g := ApplyAll(FreshPlot(n), es).0;
            |g| == n && g[i].moisture + GROWTH_MOISTURE_COST * g[i].stage <= RainOn(es, OrganismID(i))
  {
    if es != [] {
      var head, e := es[..|es| - 1], es[|es| - 1];
      GrowthIsPaidInRain(n, head, i);
      FreshPotential(n);
      AppliedIsSpent(FreshPlot(n), head);
      RuleUsesRain(ApplyAll(FreshPlot(n), head).0[i], e);
    }
  }
}
