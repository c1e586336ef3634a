/** The simulation rules, as functions of a garden value and as the mutable garden that applies them in place. */
module Gardens {
  import opened Identifiers
  import opened Events
  import opened Wrappers

  const MAX_MOISTURE: int := 100
  const MAX_HEALTH: int := 100
  const MAX_STAGE: int := 5
  const GROWTH_MOISTURE_COST: int := 20
  const GROWTH_HEALTH_FLOOR: int := 30

  datatype Organism = Organism(id: string, moisture: int, health: int, stage: int)

  datatype Outcome = Applied | NoEffect | UnknownEntity

  type Plot = seq<Organism>

  predicate Alive(o: Organism) {
    o.health > 0
  }

  function Clamp(v: int, lo: int, hi: int): int {
    if v < lo then lo else if v > hi then hi else v
  }

  function Rained(o: Organism, amount: int): (Organism, Outcome) {
    if !Alive(o) || amount <= 0 || o.moisture >= MAX_MOISTURE then (o, NoEffect)
    else (o.(moisture := Clamp(o.moisture + amount, 0, MAX_MOISTURE)), Applied)
  }

  function Grown(o: Organism): (Organism, Outcome) {
    if !Alive(o) || o.stage >= MAX_STAGE then (o, NoEffect)
    else if o.moisture < GROWTH_MOISTURE_COST || o.health < GROWTH_HEALTH_FLOOR then (o, NoEffect)
    else (o.(moisture := o.moisture - GROWTH_MOISTURE_COST, stage := o.stage + 1), Applied)
  }

  function Infested(o: Organism, amount: int): (Organism, Outcome) {
    if !Alive(o) || amount <= 0 then (o, NoEffect)
    else (o.(health := Clamp(o.health - amount, 0, MAX_HEALTH)), Applied)
  }

  /** What one organism event does to the organism it names. */
  function Ruled(o: Organism, e: Event): (Organism, Outcome) {
    match e.typ
    case Rain => Rained(o, e.amount)
    case Growth => Grown(o)
    case Pest => Infested(o, e.amount)
    case _ => (o, NoEffect)
  }

  /** What one event does to a garden. */
  function ApplyEvent(g: Plot, e: Event): (Plot, Outcome) {
    if !IsOrganismEvent(e) then (g, NoEffect)
    else
      match Position(|g|, e.entityID)
      case None => (g, UnknownEntity)
      case Some(i) => var r := Ruled(g[i], e); (g[i := r.0], r.1)
  }

  function FreshPlot(n: nat): Plot {
    seq(n, i requires 0 <= i < n => Organism(OrganismID(i), 0, MAX_HEALTH, 0))
  }

  /** Every organism stands at the position its identifier names. */
  predicate Indexed(g: Plot) {
    forall i | 0 <= i < |g| :: g[i].id == OrganismID(i)
  }

  function Lookup(index: map<string, nat>, id: string): Option<nat> {
    if id in index then Some(index[id]) else None
  }

  /** The map finds exactly the first `n` organisms. */
  ghost predicate Indexes(index: map<string, nat>, n: nat) {
    forall id :: Lookup(index, id) == Position(n, id)
  }

  lemma ApplyKeepsIndex(g: Plot, e: Event)
    ensures |ApplyEvent(g, e).0| == |g|
    ensures Indexed(g) ==> Indexed(ApplyEvent(g, e).0)
  {
  }

  lemma IndexExtends(index: map<string, nat>, i: nat)
    requires Indexes(index, i)
    ensures Indexes(index[OrganismID(i) := i], i + 1)
  {
    var longer := index[OrganismID(i) := i];
    forall id ensures Lookup(longer, id) == Position(i + 1, id) {
      assert Lookup(index, id) == Position(i, id);
      PositionOfOrganismID(i + 1, i);
    }
  }

  /** The garden a processor owns: a slice for order, a map for lookup. */
  class Garden {
    var organisms: array<Organism>
    var index: map<string, nat>

    ghost predicate Valid()
      reads this, organisms
    {
      && organisms.Length >= 1
      && Indexed(organisms[..])
      && Indexes(index, organisms.Length)
    }

    constructor FromPlot(plot: Plot)
      requires |plot| >= 1 && Indexed(plot)
      ensures Valid() && fresh(organisms) && organisms[..] == plot
    {
      var slots := new Organism[|plot|](i requires 0 <= i < |plot| => plot[i]);
      organisms := slots;
      index := map[];
      new;
      var i := 0;
      while i < |plot|
        invariant 0 <= i <= |plot|
        invariant organisms == slots && organisms[..] == plot
        invariant Indexes(index, i)
      {
        IndexExtends(index, i);
        index := index[organisms[i].id := i];
        i := i + 1;
      }
    }

    /** Replaces the organism `e` names by what its rule makes of it. */
    method Apply(e: Event) returns (outcome: Outcome)
      requires Valid()
      modifies organisms
      ensures Valid()
      ensures (organisms[..], outcome) == ApplyEvent(old(organisms[..]), e)
    {
      if !IsOrganismEvent(e) { return NoEffect; }
      if e.entityID !in index { return UnknownEntity; }
      var i := index[e.entityID];
      ApplyKeepsIndex(organisms[..], e);
      if e.typ.Rain? {
        outcome := ApplyRain(i, e.amount);
      } else if e.typ.Growth? {
        outcome := ApplyGrowth(i);
      } else {
        outcome := ApplyPest(i, e.amount);
      }
    }

    method ApplyRain(i: nat, amount: int) returns (outcome: Outcome)
      requires i < organisms.Length
      modifies organisms
      ensures (organisms[i], outcome) == Rained(old(organisms[i]), amount)
      ensures outcome == Applied <==> old(organisms[i]).health > 0 && amount > 0 && old(organisms[i]).moisture < 100
      ensures outcome == Applied && 0 <= old(organisms[i]).moisture <= 100 - amount ==>
                organisms[i].moisture == old(organisms[i]).moisture + amount
      ensures organisms[..] == old(organisms[..])[i := organisms[i]]
    {
      if !Alive(organisms[i]) || amount <= 0 || organisms[i].moisture >= MAX_MOISTURE { return NoEffect; }
      organisms[i] := organisms[i].(moisture := Clamp(organisms[i].moisture + amount, 0, MAX_MOISTURE));
      return Applied;
    }

    method ApplyGrowth(i: nat) returns (outcome: Outcome)
      requires i < organisms.Length
      modifies organisms
      ensures (organisms[i], outcome) == Grown(old(organisms[i]))
      ensures var o := old(organisms[i]);
              && (outcome == Applied <==> o.health >= 30 && o.stage < 5 && o.moisture >= 20)
              && (outcome == Applied ==> organisms[i].moisture == o.moisture - 20 && organisms[i].stage == o.stage + 1)
      ensures organisms[..] == old(organisms[..])[i := organisms[i]]
    {
      var o := organisms[i];
      if !Alive(o) || o.stage >= MAX_STAGE { return NoEffect; }
      if o.moisture < GROWTH_MOISTURE_COST || o.health < GROWTH_HEALTH_FLOOR { return NoEffect; }
      organisms[i] := o.(moisture := o.moisture - GROWTH_MOISTURE_COST, stage := o.stage + 1);
      return Applied;
    }

    method ApplyPest(i: nat, amount: int) returns (outcome: Outcome)
      requires i < organisms.Length
      modifies organisms
      ensures (organisms[i], outcome) == Infested(old(organisms[i]), amount)
      ensures outcome == Applied <==> old(organisms[i]).health > 0 && amount > 0
      ensures outcome == Applied && amount <= old(organisms[i]).health <= 100 ==>
                organisms[i].health == old(organisms[i]).health - amount
      ensures organisms[..] == old(organisms[..])[i := organisms[i]]
    {
      if !Alive(organisms[i]) || amount <= 0 { return NoEffect; }
      organisms[i] := organisms[i].(health := Clamp(organisms[i].health - amount, 0, MAX_HEALTH));
      return Applied;
    }
  }

  /** A fresh garden of `n` organisms, or null in place of the error for fewer than one. */
  method NewGarden(n: int) returns (g: Garden?)
    ensures g == null <==> n < 1
    ensures g != null ==> fresh(g) && fresh(g.organisms) && g.Valid() && g.organisms[..] == FreshPlot(n)
  {
    if n < 1 { return null; }
    g := new Garden.FromPlot(FreshPlot(n));
  }

  /** The garden a snapshot describes, or null when an organism is out of place. */
  method RestoreGarden(plot: Plot) returns (g: Garden?)
    ensures g != null <==> plot != [] && Indexed(plot)
    ensures g != null ==> fresh(g) && fresh(g.organisms) && g.Valid() && g.organisms[..] == plot
  {
    if plot == [] { return null; }
    var i := 0;
    while i < |plot|
      invariant 0 <= i <= |plot|
      invariant forall j | 0 <= j < i :: plot[j].id == OrganismID(j)
    {
      if plot[i].id != OrganismID(i) { return null; }
      i := i + 1;
    }
    g := new Garden.FromPlot(plot);
  }
}
