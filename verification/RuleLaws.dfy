/** The rules in numbers: what each event does to an organism, and what a whole history of them adds up to. */
module RuleLaws {
  import opened Identifiers
  import opened Events
  import opened Gardens
  import opened Absorption

  function Larger(a: int, b: int): int {
    if a < b then b else a
  }

  function Smaller(a: int, b: int): int {
    if a < b then a else b
  }

  /** The same organism with this moisture, health and stage. */
  predicate Becomes(o: Organism, r: Organism, moisture: int, health: int, stage: int) {
    r.id == o.id && r.moisture == moisture && r.health == health && r.stage == stage
  }

  /** Only the organism at position `i` became something else, and the event says whether it did. */
  predicate OnlyAt(g: Plot, r: (Plot, Outcome), i: nat)
    requires i < |g|
  {
    && |r.0| == |g| && (forall j | 0 <= j < |g| && j != i :: r.0[j] == g[j])
    && (r.1 == Applied || (r.1 == NoEffect && r.0 == g))
  }

  /** Rain of a positive amount fills a living organism up to 100 and is reported applied; on a dead or saturated one it
      does nothing. */
  lemma RainLaw(g: Plot, e: Event, i: nat)
    requires e.typ == Rain && i < |g| && e.entityID == OrganismID(i)
    ensures var r, o := ApplyEvent(g, e), g[i];
            && OnlyAt(g, r, i)
            && (r.1 == Applied <==> o.health > 0 && e.amount > 0 && o.moisture < 100)
            && (r.1 == Applied && o.moisture >= 0 ==>
                  Becomes(o, r.0[i], Smaller(o.moisture + e.amount, 100), o.health, o.stage))
  {
    PositionOfOrganismID(|g|, i);
  }

  /** Growth succeeds exactly on a living organism short of stage 5 with moisture 20 and health 30, and then takes 20
      moisture and adds one stage. */
  lemma GrowthLaw(g: Plot, e: Event, i: nat)
    requires e.typ == Growth && i < |g| && e.entityID == OrganismID(i)
    ensures var r, o := ApplyEvent(g, e), g[i];
            && OnlyAt(g, r, i)
            && (r.1 == Applied <==> o.health > 0 && o.stage < 5 && o.moisture >= 20 && o.health >= 30)
            && (r.1 == Applied ==> Becomes(o, r.0[i], o.moisture - 20, o.health, o.stage + 1))
  {
    PositionOfOrganismID(|g|, i);
  }

  /** A pest of a positive amount takes that much health from a living organism, down to zero. */
  lemma PestLaw(g: Plot, e: Event, i: nat)
    requires e.typ == Pest && i < |g| && e.entityID == OrganismID(i)
    ensures var r, o := ApplyEvent(g, e), g[i];
            && OnlyAt(g, r, i)
            && (r.1 == Applied <==> o.health > 0 && e.amount > 0)
            && (r.1 == Applied && o.health <= 100 ==>
                  Becomes(o, r.0[i], o.moisture, Larger(o.health - e.amount, 0), o.stage))
  {
    PositionOfOrganismID(|g|, i);
  }

  /** Every other event leaves the garden alone, and is reported unknown exactly when it names an organism the garden
      does not have. */
  lemma OtherEventsLaw(g: Plot, e: Event)
    requires !IsOrganismEvent(e) || forall i | 0 <= i < |g| :: OrganismID(i) != e.entityID
    ensures ApplyEvent(g, e) == (g, if IsOrganismEvent(e) then UnknownEntity else NoEffect)
  {
    if IsOrganismEvent(e) { NoPosition(|g|, e.entityID); }
  }

  lemma {:induction false} NoPosition(n: nat, id: string)
    requires forall i | 0 <= i < n :: OrganismID(i) != id
    ensures Position(n, id).None?
  {
    if Position(n, id).Some? { PositionNames(n, id); }
  }

  lemma PositionNames(n: nat, id: string)
    requires Position(n, id).Some?
    ensures Position(n, id).value < n && OrganismID(Position(n, id).value) == id
  {
  }

  // ---- what a history adds up to ----

  /** Damage addressed to one organism. */
  function PestOn(es: seq<Event>, id: string): nat {
    if es == [] then 0
    else
      var e := es[|es| - 1];
      PestOn(es[..|es| - 1], id) + if e.typ.Pest? && e.entityID == id && e.amount > 0 then e.amount else 0
  }

  lemma EventOnHealth(g: Plot, e: Event, i: nat)
    requires AllBounded(g) && i < |g|
    ensures |ApplyEvent(g, e).0| == |g|
    ensures var hit := if e.typ.Pest? && e.entityID == OrganismID(i) && e.amount > 0 then e.amount else 0;
            ApplyEvent(g, e).0[i].health == Larger(g[i].health - hit, 0)
  {
    hide ApplyEvent, OrganismID, Position;
    if IsOrganismEvent(e) && Position(|g|, e.entityID).Some? {
      var j := Position(|g|, e.entityID).value;
      PositionNames(|g|, e.entityID);
      if e.entityID == OrganismID(i) { PositionOfOrganismID(|g|, i); }
      match e.typ
      case Rain => RainLaw(g, e, j);
      case Growth => GrowthLaw(g, e, j);
      case Pest => PestLaw(g, e, j);
    } else {
      forall k | 0 <= k < |g| ensures IsOrganismEvent(e) ==> OrganismID(k) != e.entityID {
        PositionOfOrganismID(|g|, k);
      }
      OtherEventsLaw(g, e);
    }
  }

  lemma LastApplied(g: Plot, es: seq<Event>)
    requires es != []
    ensures ApplyAll(g, es).0 == ApplyEvent(ApplyAll(g, es[..|es| - 1]).0, es[|es| - 1]).0
  {
    hide ApplyEvent;
  }

  lemma HealthNatural(g: Plot, i: nat)
    requires AllBounded(g) && i < |g|
    ensures g[i].health >= 0
  {
  }

  lemma {:induction false} HealthFrom(g: Plot, es: seq<Event>, i: nat)
    requires AllBounded(g) && i < |g|
    ensures var r := ApplyAll(g, es).0;
            |r| == |g| && r[i].health == Larger(g[i].health - PestOn(es, OrganismID(i)), 0)
  {
    hide ApplyEvent, TotalPotential, OrganismID, AllBounded;
    HealthNatural(g, i);
    if es != [] {
      var head, e := es[..|es| - 1], es[|es| - 1];
      LastApplied(g, es);
      hide ApplyAll;
      HealthFrom(g, head, i);
      AppliedIsSpent(g, head);
      EventOnHealth(ApplyAll(g, head).0, e, i);
    }
  }

  lemma FreshHealth(n: nat, i: nat)
    requires i < n
    ensures |FreshPlot(n)| == n && FreshPlot(n)[i].health == 100
  {
  }

  /** After any events an organism of a fresh garden has the health the damage addressed to it left: exactly 100 less
      that damage, or none. */
  lemma HealthLaw(n: nat, es: seq<Event>, i: nat)
    requires i < n
    ensures var g := ApplyAll(FreshPlot(n), es).0;
            |g| == n && g[i].health == Larger(100 - PestOn(es, OrganismID(i)), 0)
  {
    hide ApplyAll, OrganismID, PestOn, FreshPlot, AllBounded;
    FreshHealth(n, i);
    FreshBounded(n);
    HealthFrom(FreshPlot(n), es, i);
  }

  lemma FreshBounded(n: nat)
    ensures AllBounded(FreshPlot(n)) && |FreshPlot(n)| == n
  {
  }
}
