/** Opening a log the disk returned damaged: positions are pulled back, or the log is refused. */
module Truncation {
  import opened Events
  import opened Processing
  import opened Production
  import opened History
  import opened Snapshots
  import opened World
  import opened Soundness
  import opened Agreement
  import opened Wrappers

  /** What opening found: where the log now ends, how much was thrown away, and whether it was damaged. */
  datatype Recovery = Recovery(next: nat, discarded: nat, corrupt: bool)

  datatype CorruptPolicy = RefuseCorrupt | ContinueCorrupt

  datatype OpenError = CorruptLog | StrandedSnapshot

  /** An open log: what is on disk and where the projections group reads next. */
  datatype OpenLog = OpenLog(disk: Disk, cursor: nat)

  /** Where the reader starts: the commit, or the beginning when the commit outlived its records. */
  function Reposition(d: Disk): nat {
    if d.marks.committed > |d.records| then 0 else d.marks.committed
  }

  function Open(d: Disk): OpenLog {
    OpenLog(d, Reposition(d))
  }

  function Rewind(l: OpenLog, rec: Recovery): Result<OpenLog, OpenError> {
    if rec.discarded == 0 then Success(l)
    else if l.disk.marks.newest.Some? && l.disk.marks.newest.value.at > rec.next then Failure(StrandedSnapshot)
    else if l.disk.marks.committed <= rec.next then Success(l)
    else
      var d := l.disk.(marks := l.disk.marks.(committed := rec.next));
      Success(OpenLog(d, Reposition(d)))
  }

  function OpenHistory(d: Disk, rec: Recovery, policy: CorruptPolicy): Result<OpenLog, OpenError> {
    if rec.corrupt && policy.RefuseCorrupt? then Failure(CorruptLog)
    else if rec.corrupt then Rewind(Open(d), rec)
    else Success(Open(d))
  }

  /** Positions name records the log still has. */
  predicate WithinLog(l: OpenLog) {
    && l.cursor <= |l.disk.records| && l.disk.marks.committed <= |l.disk.records|
    && (l.disk.marks.newest.Some? ==> l.disk.marks.newest.value.at <= |l.disk.records|)
  }

  /** Whatever the log held before, a truncated log that opens has every position within the surviving records,
      and a snapshot past the end is always refused. */
  lemma RewindStaysWithin(d: Disk, rec: Recovery)
    requires rec.corrupt && rec.discarded > 0 && rec.next == |d.records|
    ensures var r := OpenHistory(d, rec, ContinueCorrupt);
            && (r.Failure? <==> d.marks.newest.Some? && d.marks.newest.value.at > |d.records|)
            && (r.Success? ==>
                  && WithinLog(r.value) && r.value.disk.records == d.records
                  && r.value.disk.marks.newest == d.marks.newest)
  {
  }

  /** A cut may take records that were pending at the newest snapshot. */
  function CutPast(past: Past, d: Disk, next: nat): Past {
    past.(drained := past.drained && (d.marks.newest.Some? ==> d.marks.newest.value.state.published <= next))
  }

  lemma TruncatedRecoverable(run: Run, d: Disk, past: Past, next: nat)
    requires Recoverable(run, d, past) && next <= |d.records|
    requires d.marks.newest.Some? ==> d.marks.newest.value.at <= next
    ensures Recoverable(run, d.(records := d.records[..next]), CutPast(past, d, next))
  {
    hide Legal, Ascending, Shows;
    LegalPrefix(run, d.records, next);
    if past.kept { AscendingPrefix(d.records, next); }
    if d.marks.newest.Some? {
      var sv := d.marks.newest.value;
      var at, published := sv.at, sv.state.published;
      ShowsBelow(run, d.records, at, Starting(sv.state.organisms, sv.state.counters), past, next);
      assert d.records[..next][..at] == d.records[..at];
      if published <= next { assert d.records[..next][..published] == d.records[..published]; }
    }
  }

  lemma ShowsBelow(run: Run, rs: seq<Event>, k: nat, p: Projection, past: Past, next: nat)
    requires Shows(run, rs, k, p, past) && k <= next <= |rs|
    ensures Shows(run, rs[..next], k, p, past.(drained := false)) && Shows(run, rs[..next], k, p, past)
  {
    hide Replay, Tracks;
    assert rs[..next][..k] == rs[..k];
  }

  /** The log of any disk a run can leave, cut anywhere: it opens exactly when its newest snapshot lies within
      what survived, and then nothing has to be rewound, and it resumes the same run. Rebuilding agrees with the
      replay of the surviving records exactly when the snapshot missed nothing of them, which, while restarts were
      unsplit and kept the revisions, is when the first of them past the snapshot is not a redelivery. */
  lemma TruncationRecovers(run: Run, d: Disk, past: Past, next: nat, discarded: nat)
    requires Recoverable(run, d, past) && next <= |d.records| && discarded > 0
    ensures var cut := d.(records := d.records[..next]);
            var r := OpenHistory(cut, Recovery(next, discarded, true), ContinueCorrupt);
            && (r.Success? <==> (d.marks.newest.Some? ==> d.marks.newest.value.at <= next))
            && (r.Success? ==>
                  && r.value.disk == cut && r.value.cursor == d.marks.committed && WithinLog(r.value)
                  && Recoverable(run, cut, CutPast(past, d, next)))
            && (r.Success? && d.marks.newest.Some? ==>
                  && Resume(run.rng, cut).Success? && Resume(run.rng, cut).value.run == run
                  && (Agrees(run, cut) <==> NothingMissedBy(cut, d.marks.newest.value))
                  && (past.kept ==> (Agrees(run, cut) <==> NewestUnsplit(cut))))
  {
    var cut := d.(records := d.records[..next]);
    RewindStaysWithin(cut, Recovery(next, discarded, true));
    if d.marks.newest.Some? ==> d.marks.newest.value.at <= next {
      TruncatedRecoverable(run, d, past, next);
      TruncatedOpens(run, d, past, next, discarded);
      hide OpenHistory, Recoverable;
      if d.marks.newest.Some? {
        ResumedSound(run, cut, CutPast(past, d, next));
        RebuildAgreesOn(run, cut, CutPast(past, d, next));
      }
    }
    hide Recoverable, Resume, Agrees, NothingMissedBy, NewestUnsplit, SoundSim;
  }

  lemma TruncatedOpens(run: Run, d: Disk, past: Past, next: nat, discarded: nat)
    requires Recoverable(run, d, past) && next <= |d.records| && discarded > 0
    requires d.marks.newest.Some? ==> d.marks.newest.value.at <= next
    ensures var cut := d.(records := d.records[..next]);
            OpenHistory(cut, Recovery(next, discarded, true), ContinueCorrupt)
            == Success(OpenLog(cut, d.marks.committed))
  {
    hide Legal, SavedFor;
  }
}
