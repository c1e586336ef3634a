/** Which keys are still to come, and why two projections of one run that treat those alike never drift apart, whatever
    else they remember or forgot. */
module Alignment {
  import opened Identifiers
  import opened Events
  import opened ControlRules
  import opened Processing
  import opened Production
  import opened History
  import opened Feeds
  import opened Runs
  import opened Snapshots

  /** The last revision put on the log or inherited; those staged come after it. */
  function Level(f: Feed): int {
    f.revision - |f.staged|
  }

  /** What is undelivered or staged carries rising revisions, none above the last one given out. */
  predicate Orderly(f: Feed)
    requires f.cursor <= |f.records|
  {
    Rising(f.(records := f.records[f.cursor..]))
  }

  /** No revision above `level` has its key in the table. */
  ghost predicate NoneAbove(run: Run, seen: set<string>, level: int) {
    forall r: int | r > level :: RevisionKey(run.runID, TypeName(ControlChanged), r) !in seen
  }

  /** A redelivery about to be folded is known. */
  predicate Remembers(rs: seq<Event>, k: nat, seen: set<string>) {
    k < |rs| && rs[k].attempt > 1 ==> Key(rs[k]) in seen
  }

  /** A table of delivered keys that knows the first half of a pair under way, and no revision still to come. */
  ghost predicate Ready(run: Run, f: Feed, seen: set<string>) {
    && f.cursor <= |f.records| && seen <= Keys(f.records[..f.cursor])
    && Remembers(f.records, f.cursor, seen)
    && (forall i | f.cursor <= i < |f.records| && IsControl(f.records[i]) ::
          NoneAbove(run, seen, f.records[i].revision - 1))
    && (f.staged != [] ==> NoneAbove(run, seen, Level(f)))
  }

  // ---- a ready table meets only the pair under way ----

  /** Of the keys to come a ready table holds exactly that of a redelivery next in line. */
  lemma ReadyMeets(run: Run, f: Feed, seen: set<string>, j: nat)
    requires Legal(run, f.records) && Ready(run, f, seen) && f.cursor <= j <= |f.records|
    ensures var k := f.cursor;
            seen * Keys(f.records[k..j])
            == if k < j && f.records[k].attempt > 1 then {Key(f.records[k])} else {}
  {
    var k, rs := f.cursor, f.records;
    hide Legal, Key;
    forall x | x in seen * Keys(rs[k..j]) ensures k < j && rs[k].attempt > 1 && x == Key(rs[k]) {
      var e :| e in rs[k..j] && Valid(e) && Key(e) == x;
      var i :| k <= i < j && rs[i] == e;
      ReadyMeetsKey(run, f, seen, i);
    }
    if k < j && rs[k].attempt > 1 {
      LegalRecord(run, rs, k);
      assert rs[k..j][0] == rs[k];
    }
  }

  lemma ReadyMeetsKey(run: Run, f: Feed, seen: set<string>, i: nat)
    requires Legal(run, f.records) && Ready(run, f, seen) && f.cursor <= i < |f.records| && Key(f.records[i]) in seen
    ensures f.records[f.cursor].attempt > 1 && Key(f.records[i]) == Key(f.records[f.cursor])
  {
    hide Legal, Ready, Keys, Key;
    var k, rs := f.cursor, f.records;
    LegalRecord(run, rs, i);
    KnownIsDelivered(run, f, seen);
    if IsControl(rs[i]) {
      ComingIsUnknown(run, f, seen, i);
    } else {
      assert rs[k..][i - k] == rs[i];
      SpanningOrganismKey(run, rs, k, rs[i]);
    }
  }

  lemma ComingIsUnknown(run: Run, f: Feed, seen: set<string>, i: nat)
    requires Legal(run, f.records) && Ready(run, f, seen) && f.cursor <= i < |f.records| && IsControl(f.records[i])
    ensures Key(f.records[i]) !in seen
  {
    ControlKeyIs(run, f.records, i);
    hide Legal, Key, Keys, RevisionKey;
    assert NoneAbove(run, seen, f.records[i].revision - 1);
  }

  lemma KnownIsDelivered(run: Run, f: Feed, seen: set<string>)
    requires Ready(run, f, seen)
    ensures seen <= Keys(f.records[..f.cursor])
  {
  }

  lemma ControlKeyIs(run: Run, rs: seq<Event>, i: nat)
    requires Legal(run, rs) && i < |rs| && IsControl(rs[i])
    ensures Key(rs[i]) == RevisionKey(run.runID, TypeName(ControlChanged), rs[i].revision)
  {
    LegalRecord(run, rs, i);
    hide Legal, RevisionKey;
  }

  /** Two projections of one run that agree, each with a ready table, agree after whatever is delivered next. */
  lemma StayAlike(run: Run, f: Feed, p: Projection, q: Projection, j: nat)
    requires Legal(run, f.records) && f.cursor <= j <= |f.records|
    requires Ready(run, f, p.seen) && Ready(run, f, q.seen) && p.garden == q.garden && p.counters == q.counters
    ensures var es := f.records[f.cursor..j];
            Fold(p, es).garden == Fold(q, es).garden && Fold(p, es).counters == Fold(q, es).counters
  {
    hide Legal, Ready, Fold, Keys;
    ReadyMeets(run, f, p.seen, j);
    ReadyMeets(run, f, q.seen, j);
    FoldAlike(p, q, f.records[f.cursor..j]);
  }

  // ---- appending ----

  lemma {:induction false} ControlRecordsAbove(run: Run, tick: int, emitted: nat, staged: seq<Staged>, level: nat)
    requires StagedInOrder(level, staged)
    ensures var es := ControlRecords(run, tick, emitted, staged);
            forall i | 0 <= i < |es| :: es[i].revision > level
  {
    if staged != [] {
      var k := |staged| - 1;
      ControlRecordsAbove(run, tick, emitted, staged[..k], level);
      assert staged[k].revision == level + k + 1;
      var e := ControlEvent(run, emitted + k + 1, tick, staged[k].revision);
      assert ControlRecords(run, tick, emitted, staged) == ControlRecords(run, tick, emitted, staged[..k]) + [e];
    }
  }

  /** A tick records only revisions above those recorded, and only if some were staged. */
  lemma BatchAbove(run: Run, f: Feed, i: nat)
    requires ValidRun(run) && ValidFeed(f) && Level(f) >= 0 && StagedInOrder(Level(f), f.staged)
    requires i < |Batch(run, f)| && IsControl(Batch(run, f)[i])
    ensures f.staged != [] && Batch(run, f)[i].revision > Level(f)
  {
    hide Batch, ControlRecords, ValidControls;
    BatchParts(run, f, i);
    ControlRecordsAbove(run, f.tick, f.emitted, f.staged, Level(f));
  }

  /** The control records of a block are its first ones, one for each update staged. */
  lemma BatchParts(run: Run, f: Feed, i: nat)
    requires ValidRun(run) && ValidFeed(f) && i < |Batch(run, f)|
    ensures i < |f.staged| ==> Batch(run, f)[i] == ControlRecords(run, f.tick, f.emitted, f.staged)[i]
    ensures i >= |f.staged| ==> !IsControl(Batch(run, f)[i])
  {
    hide ValidControls, ControlRecords, WithRedeliveries, Draw;
    GoverningValid(f);
    var events := TickEvents(run, f.tick, f.emitted + |f.staged|, Governing(f));
    TickEventsNoControls(run, f.tick, f.emitted + |f.staged|, Governing(f));
    RedeliveriesNoControls(run.duplicateEvery, events);
    var records := ControlRecords(run, f.tick, f.emitted, f.staged);
    var block := WithRedeliveries(run.duplicateEvery, events);
    assert Batch(run, f) == records + block;
    if i >= |f.staged| { assert (records + block)[i] == block[i - |records|]; }
  }

  /** The feed with the first records of its next block on the log and nothing staged. */
  function PartlyAppended(run: Run, f: Feed, k: nat): Feed
    requires ValidRun(run) && ValidFeed(f) && k <= |Batch(run, f)|
  {
    f.(records := f.records + Batch(run, f)[..k], staged := [])
  }

  lemma OrderlyAppend(run: Run, f: Feed, k: nat)
    requires ValidRun(run) && ValidFeed(f) && Orderly(f) && k <= |Batch(run, f)|
    ensures Orderly(PartlyAppended(run, f, k))
  {
    hide Batch, Ascending, LastRevision, ValidControls, StagedInOrder, Rising;
    var g := f.(records := f.records[f.cursor..], cursor := 0);
    var b, due := Batch(run, f), f.records[f.cursor..];
    BatchOfDue(run, f, g);
    BatchRises(run, g);
    var whole, n := due + b, |due| + k;
    AscendingPrefix(whole, n);
    LastRevisionGrows(whole, n);
    assert whole[..n] == due + b[..k];
    assert (f.records + b[..k])[f.cursor..] == due + b[..k];
    RisesAlone(PartlyAppended(run, f, k), due + b[..k]);
  }

  lemma RisesAlone(f: Feed, due: seq<Event>)
    requires f.staged == [] && Ascending(due) && LastRevision(due) <= f.revision
    ensures Rising(f.(records := due))
  {
    hide Ascending, LastRevision;
  }

  lemma NoneStagedInOrder(recorded: nat)
    ensures StagedInOrder(recorded, [])
  {
  }

  lemma BatchOfDue(run: Run, f: Feed, g: Feed)
    requires ValidRun(run) && ValidFeed(f) && f.cursor <= |f.records|
    requires g == f.(records := f.records[f.cursor..], cursor := 0)
    ensures ValidFeed(g) && Batch(run, g) == Batch(run, f)
    ensures Orderly(f) ==> Rising(g)
  {
    hide ValidControls, ControlRecords, WithRedeliveries, Draw, Ascending, LastRevision, StagedInOrder;
  }

  lemma ReadyAppend(run: Run, f: Feed, seen: set<string>, k: nat)
    requires ValidRun(run) && ValidFeed(f) && Orderly(f) && Ready(run, f, seen) && k <= |Batch(run, f)|
    ensures Ready(run, PartlyAppended(run, f, k), seen)
  {
    hide Batch, Keys, Key, RevisionKey, Rising, ValidFeed, NoneAbove;
    BatchAt(run, f);
    var a, b := PartlyAppended(run, f, k), Batch(run, f);
    assert a.records[..f.cursor] == f.records[..f.cursor];
    forall i | a.cursor <= i < |a.records| && IsControl(a.records[i])
      ensures NoneAbove(run, seen, a.records[i].revision - 1)
    {
      if i >= |f.records| {
        assert a.records[i] == b[i - |f.records|];
        StagedAbove(run, f, i - |f.records|);
        NoneAboveHigher(run, seen, Level(f), a.records[i].revision - 1);
      } else {
        assert a.records[i] == f.records[i];
      }
    }
  }

  lemma StagedAbove(run: Run, f: Feed, i: nat)
    requires ValidRun(run) && ValidFeed(f) && Orderly(f) && i < |Batch(run, f)| && IsControl(Batch(run, f)[i])
    ensures f.staged != [] && Batch(run, f)[i].revision > Level(f)
  {
    hide Batch, Ascending, LastRevision, ValidFeed;
    BatchAbove(run, f, i);
  }

  lemma NoneAboveHigher(run: Run, seen: set<string>, level: int, higher: int)
    requires NoneAbove(run, seen, level) && level <= higher
    ensures NoneAbove(run, seen, higher)
  {
  }

  // ---- delivering ----

  lemma {:induction false} LastRevisionOfSuffix(es: seq<Event>, k: nat)
    requires Ascending(es) && k <= |es|
    ensures 0 <= LastRevision(es) && LastRevision(es[k..]) <= LastRevision(es)
  {
    if es != [] {
      var n := |es| - 1;
      AscendingPrefix(es, n);
      if k < |es| {
        LastRevisionOfSuffix(es[..n], k);
        assert es[k..][..|es[k..]| - 1] == es[..n][k..];
      } else {
        LastRevisionOfSuffix(es[..n], n);
        assert es[k..] == [];
      }
      assert es[..n] == es[..|es| - 1];
    }
  }

  lemma AscendingSuffix(es: seq<Event>, k: nat)
    requires Ascending(es) && k <= |es|
    ensures Ascending(es[k..])
  {
    forall i | 0 <= i < |es| - k && IsControl(es[k..][i]) ensures es[k..][i].revision > LastRevision(es[k..][..i]) {
      AscendingPrefix(es, k + i);
      LastRevisionOfSuffix(es[..k + i], k);
      assert es[..k + i][k..] == es[k..][..i];
    }
  }

  lemma OrderlyDeliver(f: Feed, j: nat)
    requires f.cursor <= j <= |f.records| && Orderly(f)
    ensures Orderly(f.(cursor := j))
  {
    hide Ascending, LastRevision, StagedInOrder;
    var due, n := f.records[f.cursor..], j - f.cursor;
    AscendingSuffix(due, n);
    LastRevisionOfSuffix(due, n);
    assert due[n..] == f.records[j..];
  }

  lemma AscendingPair(es: seq<Event>, i: nat, j: nat)
    requires Ascending(es) && i < j < |es| && IsControl(es[i]) && IsControl(es[j])
    ensures es[i].revision < es[j].revision
  {
    AscendingPrefix(es, j);
    LastRevisionGrows(es[..j], i + 1);
    assert es[..j][..i + 1] == es[..i + 1] && es[..i + 1][i] == es[i];
  }

  lemma AscendingBound(es: seq<Event>, i: nat)
    requires Ascending(es) && i < |es| && IsControl(es[i])
    ensures es[i].revision <= LastRevision(es)
  {
    LastRevisionGrows(es, i + 1);
    assert es[..i + 1][i] == es[i];
  }

  /** What is delivered adds no key of a revision above `level`, if all its revisions are at most that. */
  lemma DeliveredNoneAbove(run: Run, rs: seq<Event>, k: nat, j: nat, level: int)
    requires Legal(run, rs) && k <= j <= |rs|
    requires forall i | k <= i < j && IsControl(rs[i]) :: rs[i].revision <= level
    ensures NoneAbove(run, Keys(rs[k..j]), level)
  {
    hide Legal, RevisionKey, EventID, Key;
    forall r: int | r > level ensures RevisionKey(run.runID, TypeName(ControlChanged), r) !in Keys(rs[k..j]) {
      forall e | e in rs[k..j] ensures Key(e) != RevisionKey(run.runID, TypeName(ControlChanged), r) {
        var i :| k <= i < j && rs[i] == e;
        RecordKeyDiffers(run, rs, i, r);
      }
    }
  }

  lemma RecordKeyDiffers(run: Run, rs: seq<Event>, i: nat, r: int)
    requires Legal(run, rs) && i < |rs| && (IsControl(rs[i]) ==> rs[i].revision != r)
    ensures Key(rs[i]) != RevisionKey(run.runID, TypeName(ControlChanged), r)
  {
    hide Legal, RevisionKey, EventID;
    LegalRecord(run, rs, i);
    if IsControl(rs[i]) {
      if Key(rs[i]) == RevisionKey(run.runID, TypeName(ControlChanged), r) {
        RevisionKeyInjective(run.runID, TypeName(ControlChanged), rs[i].revision, r);
      }
    } else {
      KeyFamiliesDisjoint(run.runID, rs[i].sequence, TypeName(ControlChanged), r);
    }
  }

  lemma NoneAboveUnion(run: Run, a: set<string>, b: set<string>, level: int)
    requires NoneAbove(run, a, level) && NoneAbove(run, b, level)
    ensures NoneAbove(run, a + b, level)
  {
  }

  lemma RemembersDelivered(run: Run, rs: seq<Event>, k: nat, seen: set<string>, j: nat)
    requires Legal(run, rs) && k <= j <= |rs| && Remembers(rs, k, seen)
    ensures Remembers(rs, j, seen + Keys(rs[k..j]))
  {
    hide Legal, EventID, Position, RevisionKey;
    if k < j < |rs| && rs[j].attempt > 1 {
      LegalRecord(run, rs, j);
      LegalRecord(run, rs, j - 1);
      assert rs[k..j][j - 1 - k] == rs[j - 1];
      assert rs[j - 1] in rs[k..j];
    }
  }

  /** A ready table stays ready as it takes in what is delivered. */
  lemma ReadyDeliver(run: Run, f: Feed, seen: set<string>, j: nat)
    requires Legal(run, f.records) && f.cursor <= j <= |f.records| && Orderly(f) && Ready(run, f, seen)
    ensures Ready(run, f.(cursor := j), seen + Keys(f.records[f.cursor..j]))
  {
    hide Legal, Key, RevisionKey, Keys, Rising, NoneAbove;
    var k, rs := f.cursor, f.records;
    var more := Keys(rs[k..j]);
    assert rs[..j] == rs[..k] + rs[k..j];
    KeysOfConcat(rs[..k], rs[k..j]);
    RemembersDelivered(run, rs, k, seen, j);
    forall i | j <= i < |rs| && IsControl(rs[i]) ensures NoneAbove(run, seen + more, rs[i].revision - 1) {
      DeliveredBelow(run, f, j, i);
      NoneAboveUnion(run, seen, more, rs[i].revision - 1);
    }
    if f.staged != [] {
      DeliveredBelowLevel(run, f, j);
      NoneAboveUnion(run, seen, more, Level(f));
    }
  }

  lemma DeliveredBelow(run: Run, f: Feed, j: nat, i: nat)
    requires Legal(run, f.records) && f.cursor <= j <= i < |f.records| && Orderly(f) && IsControl(f.records[i])
    ensures NoneAbove(run, Keys(f.records[f.cursor..j]), f.records[i].revision - 1)
  {
    hide Legal, Keys, Ascending, LastRevision, StagedInOrder;
    var k, rs := f.cursor, f.records;
    var due := rs[k..];
    forall h | k <= h < j && IsControl(rs[h]) ensures rs[h].revision <= rs[i].revision - 1 {
      AscendingPair(due, h - k, i - k);
    }
    DeliveredNoneAbove(run, rs, k, j, rs[i].revision - 1);
  }

  lemma DeliveredBelowLevel(run: Run, f: Feed, j: nat)
    requires Legal(run, f.records) && f.cursor <= j <= |f.records| && Orderly(f)
    ensures NoneAbove(run, Keys(f.records[f.cursor..j]), Level(f))
  {
    hide Legal, Keys, Orderly, Level, NoneAbove, IsControl;
    forall h | f.cursor <= h < j && IsControl(f.records[h]) ensures f.records[h].revision <= Level(f) {
      RevisionBelowLevel(f, h);
    }
    DeliveredNoneAbove(run, f.records, f.cursor, j, Level(f));
  }

  lemma RevisionBelowLevel(f: Feed, h: nat)
    requires f.cursor <= h < |f.records| && Orderly(f) && IsControl(f.records[h])
    ensures f.records[h].revision <= Level(f)
  {
    hide Ascending, LastRevision, StagedInOrder;
    AscendingBound(f.records[f.cursor..], h - f.cursor);
  }

  // ---- the process and its newest snapshot ----

  /** What folding a snapshot's tail up to the cursor makes of it. */
  function Caught(f: Feed, sv: Saved): Projection
    requires sv.at <= f.cursor <= |f.records|
  {
    Fold(Starting(sv.state.organisms, sv.state.counters), f.records[sv.at..f.cursor])
  }

  /** Catching up from this snapshot gives what the process shows, and treats what is to come as it does. */
  ghost predicate CatchesUp(run: Run, c: Core, sv: Saved) {
    && sv.at <= c.feed.cursor <= |c.feed.records|
    && var q := Caught(c.feed, sv);
       q.garden == c.proj.garden && q.counters == c.proj.counters && Ready(run, c.feed, q.seen)
  }

  /** The clock is ahead of the log: the run was restarted from a backlogged snapshot and has not ticked since. */
  predicate Waiting(f: Feed) {
    LastTick(f.records) < f.tick - 1
  }

  /** As long as no update was accepted since the newest snapshot, and it splits no pair or the run has not ticked since
      it was restarted, catching up from it gives the process. */
  ghost predicate Anchored(run: Run, c: Core, m: Marks) {
    m.newest.Some? ==>
      var sv := m.newest.value;
      && sv.state.revision <= c.feed.revision
      && (sv.state.revision == c.feed.revision && (Unsplit(c.feed.records, sv.at) || Waiting(c.feed)) ==>
            CatchesUp(run, c, sv))
  }

  /** What a process and its newest snapshot share, whatever was lost in earlier restarts. */
  ghost predicate Aligned(run: Run, c: Core, m: Marks) {
    && c.feed.cursor <= |c.feed.records| && Orderly(c.feed)
    && Ready(run, c.feed, c.proj.seen) && NoneAbove(run, c.proj.seen, Level(c.feed))
    && Anchored(run, c, m) && (Waiting(c.feed) ==> c.feed.cursor == |c.feed.records|)
  }

  lemma AlignedStage(run: Run, c: Core, m: Marks, u: Controls)
    requires Aligned(run, c, m)
    ensures Aligned(run, c.(feed := Stage(c.feed, u)), m)
  {
    hide Remembers, Ascending, LastRevision, NoneAbove;
  }

  /** Part of a block reaches the log. */
  lemma AlignedAppend(run: Run, c: Core, m: Marks, k: nat)
    requires ValidRun(run) && ValidFeed(c.feed) && Aligned(run, c, m) && k <= |Batch(run, c.feed)|
    requires m.newest.Some? ==> m.newest.value.at <= c.feed.cursor
    ensures Aligned(run, c.(feed := PartlyAppended(run, c.feed, k)), m)
  {
    hide Batch, Ready, Orderly, Fold, Keys, NoneAbove, PartlyAppended, ValidFeed;
    var f, a := c.feed, PartlyAppended(run, c.feed, k);
    PartOf(run, f, k);
    OrderlyAppend(run, f, k);
    ReadyAppend(run, f, c.proj.seen, k);
    NoneAboveHigher(run, c.proj.seen, Level(f), Level(a));
    if m.newest.Some? {
      var sv := m.newest.value;
      assert a.records[sv.at..a.cursor] == f.records[sv.at..f.cursor];
      if CatchesUp(run, c, sv) { ReadyAppend(run, f, Caught(f, sv).seen, k); }
    }
    hide Waiting;
  }

  lemma PartOf(run: Run, f: Feed, k: nat)
    requires ValidRun(run) && ValidFeed(f) && k <= |Batch(run, f)|
    ensures var a := PartlyAppended(run, f, k);
            && f.records <= a.records && a.cursor == f.cursor && a.revision == f.revision && a.staged == []
            && (|f.records| < |a.records| ==> a.records[|f.records|].attempt == 1)
            && (Waiting(a) ==> a.records == f.records && Waiting(f))
  {
    hide Batch, ValidFeed;
    BatchAt(run, f);
  }

  /** Records are delivered. */
  lemma AlignedDeliver(run: Run, c: Core, m: Marks, j: nat)
    requires Legal(run, c.feed.records) && Aligned(run, c, m) && c.feed.cursor <= j <= |c.feed.records|
    requires m.newest.Some? ==> m.newest.value.at <= c.feed.cursor
    ensures Aligned(run, Core(c.feed.(cursor := j), Fold(c.proj, c.feed.records[c.feed.cursor..j])), m)
  {
    var f, es := c.feed, c.feed.records[c.feed.cursor..j];
    hide Legal, Ready, Orderly, Fold, Keys, NoneAbove;
    OrderlyDeliver(f, j);
    ReadyDeliver(run, f, c.proj.seen, j);
    FoldSeen(c.proj, es);
    DeliveredBelowLevel(run, f, j);
    NoneAboveUnion(run, c.proj.seen, Keys(es), Level(f));
    if m.newest.Some? && CatchesUp(run, c, m.newest.value) { CatchUpOn(run, c, m.newest.value, j); }
  }

  lemma CatchUpOn(run: Run, c: Core, sv: Saved, j: nat)
    requires Legal(run, c.feed.records) && c.feed.cursor <= j <= |c.feed.records|
    requires Orderly(c.feed) && Ready(run, c.feed, c.proj.seen) && CatchesUp(run, c, sv)
    ensures CatchesUp(run, Core(c.feed.(cursor := j), Fold(c.proj, c.feed.records[c.feed.cursor..j])), sv)
  {
    hide Legal, Ready, Orderly, Fold, Keys;
    var f, es, q := c.feed, c.feed.records[c.feed.cursor..j], Caught(c.feed, sv);
    CaughtOn(f, sv, j);
    StayAlike(run, f, c.proj, q, j);
    ReadyDeliver(run, f, q.seen, j);
    FoldSeen(q, es);
  }

  lemma CaughtOn(f: Feed, sv: Saved, j: nat)
    requires sv.at <= f.cursor <= j <= |f.records|
    ensures Caught(f.(cursor := j), sv) == Fold(Caught(f, sv), f.records[f.cursor..j])
  {
    hide Fold;
    assert f.records[sv.at..j] == f.records[sv.at..f.cursor] + f.records[f.cursor..j];
    FoldConcat(Starting(sv.state.organisms, sv.state.counters), f.records[sv.at..f.cursor], f.records[f.cursor..j]);
  }

  /** Only what is recorded, delivered, staged and numbered matters. */
  lemma AlignedAlike(run: Run, a: Core, b: Core, m: Marks)
    requires Aligned(run, a, m) && a.proj == b.proj
    requires a.feed.records == b.feed.records && a.feed.cursor == b.feed.cursor
    requires a.feed.staged == b.feed.staged && a.feed.revision == b.feed.revision
    requires Waiting(b.feed) ==> Waiting(a.feed)
    ensures Aligned(run, b, m)
  {
    hide NoneAbove, Ascending, LastRevision, StagedInOrder, Keys;
  }

  /** A whole tick. */
  lemma AlignedTick(run: Run, c: Core, m: Marks)
    requires ValidRun(run) && ValidFeed(c.feed) && Aligned(run, c, m)
    requires m.newest.Some? ==> m.newest.value.at <= c.feed.cursor
    requires Legal(run, StepFeed(run, c.feed).records)
    ensures Aligned(run, StepCore(run, c), m)
  {
    var f, r := c.feed, StepFeed(run, c.feed);
    var k := |Batch(run, f)|;
    var a := PartlyAppended(run, f, k);
    assert Batch(run, f)[..k] == Batch(run, f);
    assert r.records == a.records && r.staged == [] && r.revision == f.revision && r.tick == f.tick + 1;
    assert f.cursor <= r.cursor <= |r.records|;
    BatchAt(run, f);
    LastOfConcat(f.records, Batch(run, f));
    assert !Waiting(r);
    assert StepCore(run, c).feed == r && StepCore(run, c).proj == Fold(c.proj, a.records[f.cursor..r.cursor]);
    hide StepCore, StepFeed, Batch, Legal, Aligned, Fold, ValidFeed;
    AlignedAppend(run, c, m, k);
    var d := Core(a, c.proj);
    hide PartlyAppended;
    AlignedDeliver(run, d, m, r.cursor);
    AlignedAlike(run, Core(a.(cursor := r.cursor), Fold(c.proj, a.records[a.cursor..r.cursor])), StepCore(run, c), m);
  }

  /** A failed append. */
  lemma AlignedFailure(run: Run, c: Core, m: Marks, written: nat)
    requires ValidRun(run) && ValidFeed(c.feed) && Aligned(run, c, m)
    requires m.newest.Some? ==> m.newest.value.at <= c.feed.cursor
    ensures Aligned(run, c.(feed := FailedAppend(run, c.feed, written)), m)
  {
    hide Batch, Aligned, ValidControls;
    var k := Min(written, |Batch(run, c.feed)|);
    AlignedAppend(run, c, m, k);
    AlignedAlike(run, c.(feed := PartlyAppended(run, c.feed, k)), c.(feed := FailedAppend(run, c.feed, written)), m);
  }

  /** Marks a save can leave. */
  lemma AlignedWritten(s: Sim, m: Marks)
    requires Aligned(s.run, s.core, s.marks) && WrittenBy(s, m)
    ensures Aligned(s.run, s.core, m)
  {
    AlignedSave(s.run, s.core, s.marks, SnapshotOf(s));
    hide Ready, Orderly, CatchesUp, NoneAbove;
  }

  /** A snapshot just taken catches up at once. */
  lemma AlignedSave(run: Run, c: Core, m: Marks, state: Snapshot)
    requires Aligned(run, c, m)
    requires state.organisms == c.proj.garden && state.counters == c.proj.counters && state.revision == c.feed.revision
    ensures Aligned(run, c, WriteSnapshot(m, c.feed.cursor, state))
  {
    hide Orderly, Keys;
    var f, k := c.feed, c.feed.cursor;
    assert f.records[k..k] == [];
    NothingKnown(run);
  }

  lemma NothingKnown(run: Run)
    ensures forall level :: NoneAbove(run, {}, level)
  {
  }

  /** A process that begins where all is delivered and nothing staged, showing what its snapshot catches up to. */
  lemma AlignedResume(run: Run, f: Feed, m: Marks)
    requires f.cursor == |f.records| && f.staged == []
    requires m.newest.Some? && m.newest.value.at <= |f.records| && m.newest.value.state.revision == f.revision
    ensures var q := Caught(f, m.newest.value); Aligned(run, Core(f, Projection(q.garden, {}, q.counters)), m)
  {
    var sv, rs := m.newest.value, f.records;
    assert rs[|rs|..] == [];
    NothingKnown(run);
    NoneStagedInOrder(f.revision);
    FoldSeen(Starting(sv.state.organisms, sv.state.counters), rs[sv.at..|rs|]);
    assert rs[..|rs|] == rs[..sv.at] + rs[sv.at..|rs|];
    KeysOfConcat(rs[..sv.at], rs[sv.at..|rs|]);
    hide Fold, Keys, StagedInOrder;
  }

  lemma AlignedFresh(run: Run, f: Feed, p: Projection)
    requires f.records == [] && f.cursor == 0 && f.staged == [] && p.seen == {}
    ensures Aligned(run, Core(f, p), NO_MARKS)
  {
    var rs: seq<Event> := [];
    assert rs[0..] == [];
    NothingKnown(run);
    NoneStagedInOrder(f.revision);
  }
}
