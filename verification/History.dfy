/** The grammar of a run's log: every record is either new, or the redelivery of the record just before it.
    From it follow the facts deduplication rests on. */
module History {
  import opened Identifiers
  import opened Events
  import opened Gardens
  import opened Processing
  import opened Production

  function LastSequence(rs: seq<Event>): int {
    if rs == [] then 0 else rs[|rs| - 1].sequence
  }

  function LastTick(rs: seq<Event>): int {
    if rs == [] then -1 else rs[|rs| - 1].occurredAt
  }

  predicate IsControl(e: Event) {
    e.typ.ControlChanged?
  }

  /** A record this run's producer emits: an organism event or a control change. */
  predicate Native(run: Run, e: Event) {
    && Encodable(e)
    && (Produced(run, e) || (IsControl(e) && e == ControlEvent(run, e.sequence, e.occurredAt, e.revision)))
  }

  /** A new record, numbered next and no earlier than what precedes it. */
  predicate Original(run: Run, rs: seq<Event>, e: Event) {
    && Native(run, e) && e.attempt == 1
    && e.sequence == LastSequence(rs) + 1
    && e.occurredAt >= LastTick(rs)
  }

  /** An injected redelivery of the record just before it. */
  predicate Redelivers(rs: seq<Event>, e: Event) {
    && rs != [] && IsOrganismEvent(rs[|rs| - 1])
    && rs[|rs| - 1].attempt == 1 && e == rs[|rs| - 1].(attempt := 2)
  }

  predicate Legal(run: Run, rs: seq<Event>) {
    rs == [] ||
    var head, e := rs[..|rs| - 1], rs[|rs| - 1];
    Legal(run, head) && (Original(run, head, e) || Redelivers(head, e))
  }

  lemma LegalSnoc(run: Run, rs: seq<Event>, e: Event)
    requires Legal(run, rs)
    ensures Legal(run, rs + [e]) <==> Original(run, rs, e) || Redelivers(rs, e)
  {
    assert (rs + [e])[..|rs + [e]| - 1] == rs;
  }

  lemma {:induction false} LegalPrefix(run: Run, rs: seq<Event>, k: nat)
    requires Legal(run, rs) && k <= |rs|
    ensures Legal(run, rs[..k])
  {
    if k == |rs| {
      assert rs[..k] == rs;
    } else {
      LegalPrefix(run, rs[..|rs| - 1], k);
      assert rs[..|rs| - 1][..k] == rs[..k];
    }
  }

  /** Each record of a legal log, seen against the records before it. */
  lemma LegalAt(run: Run, rs: seq<Event>, i: nat)
    requires Legal(run, rs) && i < |rs|
    ensures Original(run, rs[..i], rs[i]) || Redelivers(rs[..i], rs[i])
  {
    LegalPrefix(run, rs, i + 1);
    assert rs[..i + 1][..i] == rs[..i];
  }

  lemma {:induction false} LegalRecord(run: Run, rs: seq<Event>, i: nat)
    requires Legal(run, rs) && i < |rs|
    ensures Encodable(rs[i]) && rs[i].sequence >= 1
    ensures rs[i].runID == run.runID
    ensures IsControl(rs[i]) || (IsOrganismEvent(rs[i]) && Key(rs[i]) == EventID(run.runID, rs[i].sequence)
                                 && Position(run.organisms, rs[i].entityID).Some?)
    ensures rs[i].attempt == 1 || rs[i].attempt == 2
    ensures rs[i].attempt == 2 ==> i > 0 && rs[i] == rs[i - 1].(attempt := 2) && IsOrganismEvent(rs[i - 1])
  {
    hide Legal, Native, EventID, Position;
    LegalAt(run, rs, i);
    if Original(run, rs[..i], rs[i]) {
      OriginalRecord(run, rs[..i], rs[i], if i > 0 then rs[i - 1].sequence else 0);
      if i > 0 { LegalRecord(run, rs, i - 1); }
    } else {
      LegalRecord(run, rs, i - 1);
    }
  }

  lemma OriginalRecord(run: Run, rs: seq<Event>, e: Event, last: int)
    requires Original(run, rs, e) && last == LastSequence(rs)
    ensures Encodable(e) && e.sequence == last + 1 && e.runID == run.runID && e.attempt == 1
    ensures IsControl(e) || (IsOrganismEvent(e) && Key(e) == EventID(run.runID, e.sequence)
                             && Position(run.organisms, e.entityID).Some?)
  {
    hide EventID, ControlEventID, Position;
  }

  /** Sequence numbers and simulation time never go back. */
  lemma {:induction false} LegalMonotone(run: Run, rs: seq<Event>, i: nat, j: nat)
    requires Legal(run, rs) && i <= j < |rs|
    ensures rs[i].sequence <= rs[j].sequence && rs[i].occurredAt <= rs[j].occurredAt
    decreases j
  {
    hide Legal, Native;
    if i < j {
      LegalMonotone(run, rs, i, j - 1);
      LegalAt(run, rs, j);
    }
  }

  lemma LegalAllValid(run: Run, rs: seq<Event>)
    requires Legal(run, rs)
    ensures AllValid(rs)
  {
    forall e | e in rs ensures Valid(e) {
      var i :| 0 <= i < |rs| && rs[i] == e;
      LegalRecord(run, rs, i);
    }
  }

  // ---- where a log may be cut ----

  /** The record at this offset, if any, is not the redelivery of the one before it. */
  predicate Unsplit(rs: seq<Event>, k: nat) {
    k < |rs| ==> rs[k].attempt == 1
  }

  /** Past an unsplit offset every record carries a higher sequence number than any record before it. */
  lemma SequencesPart(run: Run, rs: seq<Event>, k: nat, i: nat, j: nat)
    requires Legal(run, rs) && i < k <= j < |rs| && Unsplit(rs, k)
    ensures rs[i].sequence < rs[j].sequence
  {
    hide Legal, Native;
    LegalAt(run, rs, k);
    LegalMonotone(run, rs, i, k - 1);
    LegalMonotone(run, rs, k, j);
  }

  lemma OrganismKeysPart(run: Run, rs: seq<Event>, k: nat, i: nat, j: nat)
    requires Legal(run, rs) && i < k <= j < |rs| && Unsplit(rs, k) && IsOrganismEvent(rs[j])
    ensures Key(rs[i]) != Key(rs[j])
  {
    SequencesPart(run, rs, k, i, j);
    LegalRecord(run, rs, i);
    LegalRecord(run, rs, j);
    if IsOrganismEvent(rs[i]) {
      if Key(rs[i]) == Key(rs[j]) { EventIDInjective(run.runID, rs[i].sequence, rs[j].sequence); }
    } else {
      KeyFamiliesDisjoint(run.runID, rs[j].sequence, TypeName(ControlChanged), rs[i].revision);
    }
  }

  /** An organism key occurs on both sides of an offset only when the offset separates a record from its redelivery,
      and then it is that record's. */
  lemma SpanningOrganismKey(run: Run, rs: seq<Event>, k: nat, e: Event)
    requires Legal(run, rs) && k <= |rs| && e in rs[k..] && IsOrganismEvent(e) && Key(e) in Keys(rs[..k])
    ensures k < |rs| && rs[k].attempt > 1 && Key(e) == Key(rs[k])
  {
    var j :| k <= j < |rs| && rs[j] == e;
    var d :| d in rs[..k] && Key(d) == Key(e);
    var i :| 0 <= i < k && rs[i] == d;
    hide Legal, Keys, Key;
    LegalRecord(run, rs, k);
    if rs[k].attempt == 1 {
      OrganismKeysPart(run, rs, k, i, j);
    } else if j > k {
      PairEnds(run, rs, k);
      OrganismKeysPart(run, rs, k + 1, i, j);
    }
  }

  /** A record is redelivered at most once. */
  lemma PairEnds(run: Run, rs: seq<Event>, k: nat)
    requires Legal(run, rs) && k < |rs| && rs[k].attempt > 1
    ensures Unsplit(rs, k + 1)
  {
    if k + 1 < |rs| {
      LegalRecord(run, rs, k);
      LegalRecord(run, rs, k + 1);
    }
  }

  // ---- control changes ----

  datatype Change = Change(revision: int, tick: int)

  /** The control changes a log records, in order. */
  function Changes(rs: seq<Event>): seq<Change> {
    if rs == [] then []
    else
      var e := rs[|rs| - 1];
      Changes(rs[..|rs| - 1]) + if IsControl(e) then [Change(e.revision, e.occurredAt)] else []
  }

  lemma ChangesSnoc(rs: seq<Event>, e: Event)
    ensures Changes(rs + [e]) == Changes(rs) + if IsControl(e) then [Change(e.revision, e.occurredAt)] else []
  {
    assert (rs + [e])[..|rs + [e]| - 1] == rs;
  }

  lemma {:induction false} ChangesGrow(rs: seq<Event>, i: nat)
    requires i <= |rs|
    ensures Changes(rs[..i]) <= Changes(rs)
  {
    if i == |rs| {
      assert rs[..i] == rs;
    } else {
      ChangesGrow(rs[..|rs| - 1], i);
      assert rs[..|rs| - 1][..i] == rs[..i];
    }
  }

  /** Control changes carry revisions 1, 2, 3, ... in order. */
  predicate Numbered(rs: seq<Event>) {
    forall i | 0 <= i < |rs| && IsControl(rs[i]) :: rs[i].revision == |Changes(rs[..i])| + 1
  }

  lemma NumberedPrefix(rs: seq<Event>, k: nat)
    requires Numbered(rs) && k <= |rs|
    ensures Numbered(rs[..k])
  {
    forall i | 0 <= i < k && IsControl(rs[i]) ensures rs[..k][i].revision == |Changes(rs[..k][..i])| + 1 {
      assert rs[..k][..i] == rs[..i];
    }
  }

  lemma NumberedSnoc(rs: seq<Event>, e: Event)
    requires Numbered(rs) && (IsControl(e) ==> e.revision == |Changes(rs)| + 1)
    ensures Numbered(rs + [e])
  {
    var longer := rs + [e];
    forall i | 0 <= i < |longer| && IsControl(longer[i]) ensures longer[i].revision == |Changes(longer[..i])| + 1 {
      assert longer[..i] == rs[..i];
      assert i == |rs| ==> rs[..i] == rs;
    }
  }

  // ---- revisions that only rise ----

  /** The revision of the last control change on a log, zero if there is none. */
  function LastRevision(rs: seq<Event>): int {
    if rs == [] then 0
    else if IsControl(rs[|rs| - 1]) then rs[|rs| - 1].revision
    else LastRevision(rs[..|rs| - 1])
  }

  /** Every control change carries a higher revision than those before it; numbers may be skipped. */
  predicate Ascending(rs: seq<Event>) {
    forall i | 0 <= i < |rs| && IsControl(rs[i]) :: rs[i].revision > LastRevision(rs[..i])
  }

  lemma AscendingPrefix(rs: seq<Event>, k: nat)
    requires Ascending(rs) && k <= |rs|
    ensures Ascending(rs[..k])
  {
    forall i | 0 <= i < k && IsControl(rs[i]) ensures rs[..k][i].revision > LastRevision(rs[..k][..i]) {
      assert rs[..k][..i] == rs[..i];
    }
  }

  lemma AscendingSnoc(rs: seq<Event>, e: Event)
    requires Ascending(rs) && (IsControl(e) ==> e.revision > LastRevision(rs))
    ensures Ascending(rs + [e]) && LastRevision(rs + [e]) == if IsControl(e) then e.revision else LastRevision(rs)
  {
    var longer := rs + [e];
    assert longer[..|rs|] == rs;
    forall i | 0 <= i < |longer| && IsControl(longer[i]) ensures longer[i].revision > LastRevision(longer[..i]) {
      assert longer[..i] == rs[..i];
      assert i == |rs| ==> rs[..i] == rs;
    }
  }

  lemma {:induction false} LastRevisionGrows(rs: seq<Event>, k: nat)
    requires Ascending(rs) && k <= |rs|
    ensures LastRevision(rs[..k]) <= LastRevision(rs)
  {
    if k == |rs| {
      assert rs[..k] == rs;
    } else {
      var n := |rs| - 1;
      AscendingPrefix(rs, n);
      LastRevisionGrows(rs[..n], k);
      assert rs[..n][..k] == rs[..k];
    }
  }

  /** Revisions 1, 2, 3, ... rise, and the last one is how many there are. */
  lemma {:induction false} NumberedAscends(rs: seq<Event>)
    requires Numbered(rs)
    ensures Ascending(rs) && LastRevision(rs) == |Changes(rs)|
  {
    if rs != [] {
      var k := |rs| - 1;
      NumberedPrefix(rs, k);
      NumberedAscends(rs[..k]);
      AscendingSnoc(rs[..k], rs[k]);
      assert rs[..k] + [rs[k]] == rs;
    }
  }

  lemma ControlKeysDiffer(run: Run, rs: seq<Event>, i: nat, j: nat)
    requires Legal(run, rs) && Ascending(rs) && i < j < |rs| && IsControl(rs[j])
    ensures Key(rs[i]) != Key(rs[j])
  {
    hide Legal, Encodable, RevisionKey, EventID, Position;
    LegalRecord(run, rs, i);
    LegalRecord(run, rs, j);
    if IsControl(rs[i]) {
      AscendingPrefix(rs, j);
      LastRevisionGrows(rs[..j], i + 1);
      assert rs[..j][..i + 1] == rs[..i + 1] && rs[..i + 1][i] == rs[i];
      if Key(rs[i]) == Key(rs[j]) {
        RevisionKeyInjective(run.runID, TypeName(ControlChanged), rs[i].revision, rs[j].revision);
      }
    } else {
      KeyFamiliesDisjoint(run.runID, rs[i].sequence, TypeName(ControlChanged), rs[j].revision);
    }
  }

  // ---- deduplication is exact ----

  /** No false duplicates and no missed ones: a record's key was seen before exactly when it is a redelivery. */
  lemma DuplicateExactlyWhenRedelivered(run: Run, rs: seq<Event>, j: nat)
    requires Legal(run, rs) && Ascending(rs) && j < |rs|
    ensures Key(rs[j]) in Keys(rs[..j]) <==> rs[j].attempt > 1
  {
    LegalRecord(run, rs, j);
    if rs[j].attempt > 1 {
      LegalRecord(run, rs, j - 1);
      assert rs[..j][j - 1] == rs[j - 1];
      assert rs[j - 1] in rs[..j];
    } else {
      forall d | d in rs[..j] ensures Key(d) != Key(rs[j]) {
        var i :| 0 <= i < j && rs[i] == d;
        if IsControl(rs[j]) { ControlKeysDiffer(run, rs, i, j); } else { OrganismKeysPart(run, rs, j, i, j); }
      }
    }
  }

  /** A key occurs on both sides of an offset exactly when the offset separates a record from its redelivery. */
  lemma KeySpansExactlyWhenSplit(run: Run, rs: seq<Event>, k: nat)
    requires Legal(run, rs) && Ascending(rs) && k <= |rs|
    ensures NoKeySpans(rs[..k], rs[k..]) <==> Unsplit(rs, k)
  {
    if Unsplit(rs, k) {
      forall x | x in Keys(rs[..k]) ensures x !in Keys(rs[k..]) {
        forall d, e | d in rs[..k] && e in rs[k..] ensures Key(d) != Key(e) {
          var i :| 0 <= i < k && rs[i] == d;
          var j :| k <= j < |rs| && rs[j] == e;
          LegalRecord(run, rs, j);
          if IsControl(rs[j]) { ControlKeysDiffer(run, rs, i, j); } else { OrganismKeysPart(run, rs, k, i, j); }
        }
      }
    } else {
      DuplicateExactlyWhenRedelivered(run, rs, k);
      LegalRecord(run, rs, k);
      assert rs[k] in rs[k..];
      assert Key(rs[k]) in Keys(rs[..k]) * Keys(rs[k..]);
    }
  }

  /** A key occurs on both sides of an offset only when it is that of a pair the offset separates. */
  lemma SpanningKeys(run: Run, rs: seq<Event>, k: nat)
    requires Legal(run, rs) && Ascending(rs) && k <= |rs|
    ensures forall x | x in Keys(rs[..k]) * Keys(rs[k..]) :: k < |rs| && rs[k].attempt > 1 && x == Key(rs[k])
  {
    forall x | x in Keys(rs[..k]) * Keys(rs[k..]) ensures k < |rs| && rs[k].attempt > 1 && x == Key(rs[k]) {
      var e :| e in rs[k..] && Valid(e) && Key(e) == x;
      var j :| k <= j < |rs| && rs[j] == e;
      LegalRecord(run, rs, j);
      if IsControl(rs[j]) {
        var d :| d in rs[..k] && Valid(d) && Key(d) == x;
        var i :| 0 <= i < k && rs[i] == d;
        ControlKeysDiffer(run, rs, i, j);
      } else {
        SpanningOrganismKey(run, rs, k, e);
      }
    }
  }

  /** The log without its redeliveries. */
  function Originals(rs: seq<Event>): seq<Event> {
    if rs == [] then []
    else Originals(rs[..|rs| - 1]) + if rs[|rs| - 1].attempt > 1 then [] else [rs[|rs| - 1]]
  }

  /** Two projections that differ only in how many redeliveries they dropped. */
  predicate SameBut(noisy: Projection, clean: Projection, dropped: nat) {
    && noisy.garden == clean.garden && noisy.seen == clean.seen
    && noisy.counters == clean.counters.(received := clean.counters.received + dropped,
                                         duplicates := clean.counters.duplicates + dropped)
  }

  lemma RedeliveryOnlyCounts(noisy: Projection, clean: Projection, dropped: nat, e: Event)
    requires SameBut(noisy, clean, dropped) && Valid(e) && Key(e) in noisy.seen
    ensures SameBut(Consume(noisy, e), clean, dropped + 1)
  {
  }

  lemma OriginalCountsAlike(noisy: Projection, clean: Projection, dropped: nat, e: Event)
    requires SameBut(noisy, clean, dropped) && Valid(e) && Key(e) !in noisy.seen
    ensures SameBut(Consume(noisy, e), Consume(clean, e), dropped)
    ensures Consume(clean, e).counters.duplicates == clean.counters.duplicates
    ensures Consume(clean, e).counters.received == clean.counters.received + 1
  {
  }

  /** Folding a log equals folding it without its redeliveries, which show up only in two counters. */
  lemma {:induction false} RedeliveriesAreInvisible(run: Run, rs: seq<Event>)
    requires Legal(run, rs) && Ascending(rs)
    ensures |Originals(rs)| <= |rs|
    ensures SameBut(Replay(run.organisms, rs), Replay(run.organisms, Originals(rs)), |rs| - |Originals(rs)|)
    ensures Replay(run.organisms, Originals(rs)).counters.duplicates == 0
    ensures Replay(run.organisms, Originals(rs)).counters.received == |Originals(rs)|
  {
    if rs != [] {
      var k, start := |rs| - 1, Starting(FreshPlot(run.organisms));
      var head, e := rs[..k], rs[k];
      LegalPrefix(run, rs, k);
      AscendingPrefix(rs, k);
      RedeliveriesAreInvisible(run, head);
      DuplicateExactlyWhenRedelivered(run, rs, k);
      LegalRecord(run, rs, k);
      FoldSeen(start, head);
      var noisy, clean, dropped := Fold(start, head), Fold(start, Originals(head)), |head| - |Originals(head)|;
      if e.attempt > 1 {
        RedeliveryOnlyCounts(noisy, clean, dropped, e);
        assert Originals(rs) == Originals(head);
      } else {
        OriginalCountsAlike(noisy, clean, dropped, e);
        FoldSnoc(start, Originals(head), e);
      }
    }
  }

  /** Nothing of a legal log is rejected, and every organism it names exists. */
  lemma {:induction false} NothingRejected(run: Run, rs: seq<Event>)
    requires Legal(run, rs)
    ensures Replay(run.organisms, rs).counters.rejected == 0
    ensures Replay(run.organisms, rs).counters.unknownEntity == 0
  {
    if rs != [] {
      var k := |rs| - 1;
      LegalPrefix(run, rs, k);
      NothingRejected(run, rs[..k]);
      LegalRecord(run, rs, k);
      FoldKeepsIndex(Starting(FreshPlot(run.organisms)), rs[..k]);
      hide Legal, Native;
      KnownEventsCount(Fold(Starting(FreshPlot(run.organisms)), rs[..k]), rs[k]);
      hide Consume, Encodable;
    }
  }

  lemma KnownEventsCount(p: Projection, e: Event)
    requires Valid(e) && (IsOrganismEvent(e) ==> Position(|p.garden|, e.entityID).Some?)
    ensures Consume(p, e).counters.rejected == p.counters.rejected
    ensures Consume(p, e).counters.unknownEntity == p.counters.unknownEntity
  {
    hide Position, Key;
  }

  // ---- time ----

  /** Every tick up to the last one left at least one record. */
  predicate Dense(rs: seq<Event>) {
    && (rs != [] ==> rs[0].occurredAt == 0)
    && forall i | 0 < i < |rs| :: rs[i].occurredAt <= rs[i - 1].occurredAt + 1
  }

  lemma {:induction false} EveryTickLeftARecord(rs: seq<Event>, t: nat)
    requires Dense(rs) && t <= LastTick(rs)
    ensures exists i :: 0 <= i < |rs| && rs[i].occurredAt == t
  {
    var k := |rs| - 1;
    if rs[k].occurredAt > t {
      assert rs[..k] != [];
      assert rs[..k][|rs[..k]| - 1] == rs[k - 1];
      EveryTickLeftARecord(rs[..k], t);
      var i :| 0 <= i < |rs[..k]| && rs[..k][i].occurredAt == t;
      assert rs[i].occurredAt == t;
    }
  }
}
