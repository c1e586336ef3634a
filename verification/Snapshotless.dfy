/** Rebuilding a run that left no snapshot: the garden inferred from the records is the first part of the true one. */
module Snapshotless {
  import opened Identifiers
  import opened Events
  import opened Gardens
  import opened Processing
  import opened Production
  import opened History
  import opened Snapshots

  lemma PositionNamesID(n: nat, id: string)
    requires Position(n, id).Some?
    ensures OrganismID(Position(n, id).value) == id && Position(n, id).value < n
  {
  }

  /** The inferred count never exceeds the true one. */
  lemma {:induction false} HighestBounded(run: Run, rs: seq<Event>)
    requires Legal(run, rs) && run.organisms <= MAX_INT64
    ensures 0 <= Highest(rs) <= run.organisms
  {
    if rs != [] {
      var k := |rs| - 1;
      LegalPrefix(run, rs, k);
      HighestBounded(run, rs[..k]);
      LegalRecord(run, rs, k);
      hide Legal, Position, Highest;
      HighestStep(run.organisms, rs);
    }
  }

  /** Every organism a legal log names lies below the inferred count. */
  lemma {:induction false} HighestCovers(run: Run, rs: seq<Event>, i: nat)
    requires Legal(run, rs) && run.organisms <= MAX_INT64 && i < |rs| && IsOrganismEvent(rs[i])
    ensures Position(run.organisms, rs[i].entityID).Some? && Position(run.organisms, rs[i].entityID).value < Highest(rs)
  {
    hide Legal, Position, Highest, Encodable, EventID;
    var k := |rs| - 1;
    LegalRecord(run, rs, k);
    if i < k {
      LegalPrefix(run, rs, k);
      HighestCovers(run, rs[..k], i);
    }
    HighestStep(run.organisms, rs);
  }

  lemma HighestStep(n: nat, rs: seq<Event>)
    requires rs != [] && n <= MAX_INT64
    requires IsOrganismEvent(rs[|rs| - 1]) ==> Position(n, rs[|rs| - 1].entityID).Some?
    ensures var before, e := Highest(rs[..|rs| - 1]), rs[|rs| - 1];
            && Highest(rs) >= before
            && (!IsOrganismEvent(e) ==> Highest(rs) == before)
            && (IsOrganismEvent(e) ==>
                  var i := Position(n, e.entityID).value;
                  i < n && Highest(rs) == if i + 1 > before then i + 1 else before)
  {
    var e := rs[|rs| - 1];
    if IsOrganismEvent(e) {
      PositionNamesID(n, e.entityID);
      AtoiOfOrganismID(Position(n, e.entityID).value);
      hide Atoi, Position, OrganismID, TrimPrefix;
    }
  }

  /** The smaller projection is the first `m` organisms of the larger, and the rest of that is untouched. */
  predicate PrefixOf(small: Projection, large: Projection, m: nat, n: nat) {
    && m <= n && |large.garden| == n && |small.garden| == m
    && small.garden == large.garden[..m]
    && (forall i | m <= i < n :: large.garden[i] == Organism(OrganismID(i), 0, MAX_HEALTH, 0))
    && small.seen == large.seen && small.counters == large.counters
  }

  lemma PositionShrinks(m: nat, n: nat, id: string)
    requires m <= n && Position(n, id).Some? && Position(n, id).value < m
    ensures Position(m, id) == Position(n, id)
  {
  }

  lemma PrefixStep(small: Projection, large: Projection, m: nat, n: nat, e: Event)
    requires PrefixOf(small, large, m, n)
    requires IsOrganismEvent(e) ==> Position(n, e.entityID).Some? && Position(n, e.entityID).value < m
    ensures PrefixOf(Consume(small, e), Consume(large, e), m, n)
  {
    if IsOrganismEvent(e) {
      PositionShrinks(m, n, e.entityID);
      var i := Position(n, e.entityID).value;
      var x := Ruled(large.garden[i], e).0;
      assert large.garden[i := x][..m] == large.garden[..m][i := x];
    }
    hide Position, Key, Validate;
  }

  lemma {:induction false} PrefixFold(run: Run, rs: seq<Event>, m: nat)
    requires Legal(run, rs) && run.organisms <= MAX_INT64 && Highest(rs) <= m <= run.organisms
    ensures PrefixOf(Replay(m, rs), Replay(run.organisms, rs), m, run.organisms)
  {
    if rs == [] {
      assert FreshPlot(m) == FreshPlot(run.organisms)[..m];
    } else {
      var k := |rs| - 1;
      LegalPrefix(run, rs, k);
      LegalRecord(run, rs, k);
      HighestStep(run.organisms, rs);
      if IsOrganismEvent(rs[k]) { HighestCovers(run, rs, k); }
      PrefixFold(run, rs[..k], m);
      hide Legal, Highest, Position, PrefixOf, Consume;
      PrefixStep(Replay(m, rs[..k]), Replay(run.organisms, rs[..k]), m, run.organisms, rs[k]);
    }
  }

  /** With no snapshot, the rebuilt garden is the first entries of the true garden, every organism it misses is
      still as it began, and the counters are the true ones. */
  lemma SnapshotlessRebuildIsPrefix(run: Run, d: Disk)
    requires ValidRun(run) && Legal(run, d.records) && run.organisms <= MAX_INT64 && d.marks.newest.None?
    ensures Rebuild(d).Success?
    ensures var g, whole := Rebuild(d).value.garden, Replay(run.organisms, d.records);
            && 1 <= |g| <= run.organisms == |whole.garden|
            && g == whole.garden[..|g|]
            && (forall i | |g| <= i < run.organisms :: whole.garden[i] == Organism(OrganismID(i), 0, MAX_HEALTH, 0))
            && Rebuild(d).value.snapshot.counters == whole.counters
  {
    LegalAllValid(run, d.records);
    HighestBounded(run, d.records);
    var m := OrganismCount(d.records);
    PrefixFold(run, d.records, m);
    hide Fold, Legal, Highest;
  }

  /** Such a history rebuilds but does not resume: nothing recorded what the run was. */
  lemma SnapshotlessDoesNotResume(rng: Generator, d: Disk)
    requires d.marks.newest.None?
    ensures Resume(rng, d).Failure?
  {
  }
}
