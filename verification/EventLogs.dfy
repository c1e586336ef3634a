/** A run's log as an object: the records, the reader's cursor, the group's commit and the newest snapshot. */
module EventLogs {
  import opened Events
  import opened History
  import opened Feeds
  import opened Snapshots
  import opened Truncation
  import opened Wrappers

  predicate AllEncodable(es: seq<Event>) {
    forall e | e in es :: Encodable(e)
  }

  class EventLog {
    var records: seq<Event>
    var cursor: nat
    var marks: Marks

    ghost predicate Valid()
      reads this
    {
      cursor <= |records|
    }

    ghost function OnDisk(): Disk
      reads this
    {
      Disk(records, marks)
    }

    /** An open log over this disk; its reader stands at the commit if that names a record still there. */
    constructor Open(d: Disk)
      ensures Valid() && OnDisk() == d && cursor == Truncation.Open(d).cursor
    {
      records := d.records;
      marks := d.marks;
      cursor := Reposition(d);
    }

    /** Writes events in order. Encoding is checked before anything is written; a failed write may leave a part. */
    method Append(es: seq<Event>, io: AppendOutcome) returns (ok: bool)
      requires Valid()
      modifies this`records
      ensures Valid()
      ensures ok <==> es == [] || (AllEncodable(es) && io.Appends?)
      ensures records == old(records) + if !AllEncodable(es) then []
                                        else if io.Appends? then es
                                        else es[..Min(io.written, |es|)]
    {
      var i := 0;
      while i < |es|
        invariant 0 <= i <= |es|
        invariant AllEncodable(es[..i])
      {
        if !Encodable(es[i]) {
          assert es[i] in es;
          assert records == records + [];
          return false;
        }
        assert es[..i + 1] == es[..i] + [es[i]];
        i := i + 1;
      }
      assert es[..i] == es;
      match io {
        case Appends =>
          records := records + es;
          ok := true;
        case AppendFails(written) =>
          records := records + es[..Min(written, |es|)];
          ok := es == [];
      }
    }

    /** Reads at most `n` unread records, all of them when `n` is not positive, and moves the cursor past them. */
    method UnprocessedUpTo(n: int) returns (out: seq<Event>)
      requires Valid()
      modifies this`cursor
      ensures Valid()
      ensures cursor == ReadTo(old(cursor), |records|, n)
      ensures out == records[old(cursor)..cursor]
    {
      out := [];
      while (n <= 0 || |out| < n) && cursor < |records|
        invariant Valid() && old(cursor) <= cursor
        invariant out == records[old(cursor)..cursor]
        invariant n > 0 ==> |out| <= n
        decreases |records| - cursor
      {
        out := out + [records[cursor]];
        cursor := cursor + 1;
      }
    }

    /** Records from an offset to the tail, or nothing when the log cannot serve it. The cursor stays. */
    method Since(from: int) returns (r: Option<seq<Event>>)
      requires Valid()
      ensures r.Some? <==> 0 <= from <= |records|
      ensures r.Some? ==> r.value == records[from..]
    {
      if from < 0 || from > |records| { return None; }
      var out, at := [], from;
      while at < |records|
        invariant from <= at <= |records|
        invariant out == records[from..at]
      {
        out := out + [records[at]];
        at := at + 1;
      }
      assert records[from..at] == records[from..];
      return Some(out);
    }

    /** The record that ends the log, if any: its number is how far the run has numbered its events. */
    method Last() returns (r: Option<Event>)
      ensures r.None? <==> records == []
      ensures r.Some? ==> records == records[..|records| - 1] + [r.value] && LastSequence(records) == r.value.sequence
    {
      if records == [] { return None; }
      return Some(records[|records| - 1]);
    }

    /** The reader goes to the end of the log; commit and snapshot stay. */
    method MarkFolded()
      modifies this`cursor
      ensures Valid() && cursor == |records|
    {
      cursor := |records|;
    }

    /** Two writes, in this order: the snapshot at the cursor, then the commit to the same offset. */
    method Save(state: Snapshot, io: SaveOutcome) returns (ok: bool)
      modifies this`marks
      ensures ok <==> io.Saves?
      ensures marks == match io
                       case SnapshotFails => old(marks)
                       case CommitFails => WriteSnapshot(old(marks), cursor, state)
                       case Saves => WriteSnapshot(old(marks), cursor, state).(committed := cursor)
    {
      if io.SnapshotFails? { return false; }
      marks := WriteSnapshot(marks, cursor, state);
      if io.CommitFails? { return false; }
      marks := marks.(committed := cursor);
      return true;
    }

    /** Reconciles commit and snapshot with a truncation. */
    method Rewind(rec: Recovery) returns (r: Option<OpenError>)
      requires Valid() && rec.next == |records|
      modifies this`marks, this`cursor
      ensures Valid()
      ensures var spec := Truncation.Rewind(OpenLog(old(OnDisk()), old(cursor)), rec);
              && (r == if spec.Success? then None else Some(spec.error))
              && OpenLog(OnDisk(), cursor) == if spec.Success? then spec.value else OpenLog(old(OnDisk()), old(cursor))
    {
      if rec.discarded == 0 { return None; }
      if marks.newest.Some? && marks.newest.value.at > rec.next { return Some(StrandedSnapshot); }
      if marks.committed <= rec.next { return None; }
      marks := marks.(committed := rec.next);
      cursor := Reposition(Disk(records, marks));
      return None;
    }
  }
}
