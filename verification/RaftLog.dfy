/** The crash-safe log: a file of framed records with its in-memory index and a snapshot boundary,
    kept in step with a plain compacted log through every operation. */
module RaftLog {
  import opened Entries
  import opened LogView
  import opened Codec
  import opened Layout

  // ---- The file as a layout of records ----

  /** The records of the entries, in order. */
  function Records(crc: Crc, es: seq<Entry>): (ps: seq<Bytes>)
    ensures |ps| == |es|
  {
    if es == [] then [] else Records(crc, es[..|es| - 1]) + [Record(crc, es[|es| - 1])]
  }

  lemma RecordsAppend(crc: Crc, es: seq<Entry>, e: Entry)
    ensures Records(crc, es + [e]) == Records(crc, es) + [Record(crc, e)]
  {
    assert (es + [e])[..|es|] == es;
  }

  lemma {:induction false} RecordsPrefix(crc: Crc, es: seq<Entry>, k: nat)
    requires k <= |es|
    ensures Records(crc, es[..k]) == Records(crc, es)[..k]
    decreases |es|
  {
    if k == |es| {
      assert es[..k] == es;
    } else {
      RecordsPrefix(crc, es[..|es| - 1], k);
      assert es[..|es| - 1][..k] == es[..k];
    }
  }

  lemma {:induction false} RecordsIndex(crc: Crc, es: seq<Entry>, i: nat)
    requires i < |es|
    ensures Records(crc, es)[i] == Record(crc, es[i])
    decreases |es|
  {
    if i < |es| - 1 {
      RecordsIndex(crc, es[..|es| - 1], i);
    }
  }

  ghost predicate Contiguous(es: seq<Entry>, first: nat) {
    forall i | 0 <= i < |es| :: es[i].index == first + i
  }

  ghost predicate AllStorable(es: seq<Entry>) {
    forall i | 0 <= i < |es| :: Storable(es[i])
  }

  // ---- Replay ----

  datatype Replayed = Replayed(entries: seq<Entry>, end: nat, skipped: bool)

  /** What opening the log reads from `off` on: records at or below the snapshot are skipped, the
      rest is kept while it is contiguous, and reading stops at the first bad record. */
  function Replay(crc: Crc, file: Bytes, snapIndex: nat, off: nat, expected: nat): (r: Replayed)
    ensures off <= |file| ==> r.end <= |file|
    decreases |file| - off
  {
    match ReadRecord(crc, file, off)
    case None => Replayed([], off, false)
    case Some((e, recEnd)) =>
      if e.index <= snapIndex then Replay(crc, file, snapIndex, recEnd, expected).(skipped := true)
      else if e.index != expected then Replayed([], off, false)
      else
        var r := Replay(crc, file, snapIndex, recEnd, expected + 1);
        r.(entries := [e] + r.entries)
  }

  /** What the snapshot file says; nothing if it is damaged. */
  function SnapshotOf(crc: Crc, snapFile: Option<Bytes>): Option<SnapshotImage> {
    match snapFile
    case None => Some(SnapshotImage(0, 0, []))
    case Some(b) => DecodeSnapshot(crc, b)
  }

  /** The snapshot data a reader gets: none without a snapshot. */
  function DataOf(s: SnapshotImage): Bytes {
    if s.index == 0 then [] else s.data
  }

  /** The log that opening the two files gives. */
  function Opened(crc: Crc, file: Bytes, snapFile: Option<Bytes>): Option<View> {
    match SnapshotOf(crc, snapFile)
    case None => None
    case Some(s) =>
      Some(View(s.index, s.term, DataOf(s), Replay(crc, file, s.index, 0, s.index + 1).entries))
  }

  /** `all` is what was kept and skipped so far, followed by `rest`. */
  ghost predicate Continues(all: Replayed, kept: seq<Entry>, skipped: bool, rest: Replayed) {
    all == Replayed(kept + rest.entries, rest.end, skipped || rest.skipped)
  }

  lemma ContinuesWith(all: Replayed, kept: seq<Entry>, skipped: bool, rest: Replayed, e: Entry)
    requires Continues(all, kept, skipped, rest.(entries := [e] + rest.entries))
    ensures Continues(all, kept + [e], skipped, rest)
  {
    assert kept + ([e] + rest.entries) == kept + [e] + rest.entries;
  }

  /** What the replay loop has kept of the file before `off`. */
  ghost predicate Scanned(crc: Crc, file: Bytes, first: nat, off: nat, kept: seq<Entry>, offsets: seq<nat>, skipped: bool) {
    && off <= |file|
    && Contiguous(kept, first)
    && AllStorable(kept)
    && (!skipped ==> Laid(file[..off], Records(crc, kept), offsets))
  }

  /** The replay loop at `off`: what it kept, and that the rest of the replay completes the whole. */
  ghost predicate Scanning(crc: Crc, file: Bytes, snap: nat, off: nat, expected: nat, kept: seq<Entry>, offsets: seq<nat>, skipped: bool) {
    && expected == snap + 1 + |kept|
    && Scanned(crc, file, snap + 1, off, kept, offsets, skipped)
    && Continues(Replay(crc, file, snap, 0, snap + 1), kept, skipped, Replay(crc, file, snap, off, expected))
  }

  lemma ScanStarts(crc: Crc, file: Bytes, snap: nat)
    ensures Scanning(crc, file, snap, 0, snap + 1, [], [], false)
  {
    assert file[..0] == [];
    LaidEmpty();
    var r := Replay(crc, file, snap, 0, snap + 1);
    assert [] + r.entries == r.entries;
  }

  lemma ScanSkips(crc: Crc, file: Bytes, snap: nat, off: nat, expected: nat, kept: seq<Entry>, offsets: seq<nat>, skipped: bool, e: Entry, recEnd: nat)
    requires Scanning(crc, file, snap, off, expected, kept, offsets, skipped)
    requires ReadRecord(crc, file, off) == Some((e, recEnd)) && e.index <= snap
    ensures Scanning(crc, file, snap, recEnd, expected, kept, offsets, true)
  {
  }

  lemma ScanStops(crc: Crc, file: Bytes, snap: nat, off: nat, expected: nat, kept: seq<Entry>, offsets: seq<nat>, skipped: bool)
    requires Scanning(crc, file, snap, off, expected, kept, offsets, skipped)
    requires match ReadRecord(crc, file, off) case None => true case Some((e, _)) => e.index > snap && e.index != expected
    ensures Replayed(kept, off, skipped) == Replay(crc, file, snap, 0, snap + 1)
  {
    assert kept + [] == kept;
  }

  /** A record read at `off` that follows what was kept is kept. */
  lemma ScanKeeps(crc: Crc, file: Bytes, snap: nat, off: nat, expected: nat, kept: seq<Entry>, offsets: seq<nat>, skipped: bool, e: Entry, recEnd: nat, next: nat)
    requires Scanning(crc, file, snap, off, expected, kept, offsets, skipped)
    requires ReadRecord(crc, file, off) == Some((e, recEnd)) && e.index == expected && next == expected + 1
    ensures Scanning(crc, file, snap, recEnd, next, kept + [e], offsets + [off], skipped)
  {
    ReplayKeeps(crc, file, snap, off, expected, e, recEnd);
    ContinuesWith(Replay(crc, file, snap, 0, snap + 1), kept, skipped, Replay(crc, file, snap, recEnd, expected + 1), e);
    ScannedKeeps(crc, file, snap + 1, off, kept, offsets, skipped, e, recEnd);
  }

  lemma ReplaySkips(crc: Crc, file: Bytes, snap: nat, off: nat, expected: nat, e: Entry, recEnd: nat)
    requires ReadRecord(crc, file, off) == Some((e, recEnd)) && e.index <= snap
    ensures Replay(crc, file, snap, off, expected) == Replay(crc, file, snap, recEnd, expected).(skipped := true)
  {
  }

  lemma ReplayKeeps(crc: Crc, file: Bytes, snap: nat, off: nat, expected: nat, e: Entry, recEnd: nat)
    requires ReadRecord(crc, file, off) == Some((e, recEnd)) && snap < e.index == expected
    ensures var r := Replay(crc, file, snap, recEnd, expected + 1);
      Replay(crc, file, snap, off, expected) == r.(entries := [e] + r.entries)
  {
  }

  /** A record lying right after a laid-out prefix extends it. */
  lemma LaidRecord(crc: Crc, file: Bytes, off: nat, kept: seq<Entry>, offsets: seq<nat>, e: Entry, recEnd: nat)
    requires off <= recEnd <= |file| && file[off..recEnd] == Record(crc, e)
    requires Laid(file[..off], Records(crc, kept), offsets)
    ensures Laid(file[..recEnd], Records(crc, kept + [e]), offsets + [off])
  {
    var rec := file[off..recEnd];
    LaidExtend(file[..off], Records(crc, kept), offsets, rec);
    RecordsAppend(crc, kept, e);
    assert file[..recEnd] == file[..off] + rec;
  }

  lemma ScannedKeeps(crc: Crc, file: Bytes, first: nat, off: nat, kept: seq<Entry>, offsets: seq<nat>, skipped: bool, e: Entry, recEnd: nat)
    requires Scanned(crc, file, first, off, kept, offsets, skipped)
    requires ReadRecord(crc, file, off) == Some((e, recEnd)) && e.index == first + |kept|
    ensures Scanned(crc, file, first, recEnd, kept + [e], offsets + [off], skipped)
  {
    ReadIsRecord(crc, file, off);
    if !skipped {
      LaidRecord(crc, file, off, kept, offsets, e, recEnd);
    }
  }

  /** Reads records from the start of the file until the first that is torn, corrupt or out of order. */
  method Scan(crc: Crc, file: Bytes, snap: nat) returns (kept: seq<Entry>, offsets: seq<nat>, off: nat, skipped: bool)
    ensures Scanned(crc, file, snap + 1, off, kept, offsets, skipped)
    ensures Replayed(kept, off, skipped) == Replay(crc, file, snap, 0, snap + 1)
  {
    var expected: nat := snap + 1;
    kept, offsets, off, skipped := [], [], 0, false;
    ScanStarts(crc, file, snap);
    while off < |file|
      invariant Scanning(crc, file, snap, off, expected, kept, offsets, skipped)
      decreases |file| - off
    {
      var r := ReadRecord(crc, file, off);
      if r.None? {
        break;
      }
      var e, recEnd := r.value.0, r.value.1;
      if e.index <= snap {
        ScanSkips(crc, file, snap, off, expected, kept, offsets, skipped, e, recEnd);
        off, skipped := recEnd, true;
      } else if e.index == expected {
        var next: nat := expected + 1;
        ScanKeeps(crc, file, snap, off, expected, kept, offsets, skipped, e, recEnd, next);
        kept, offsets := kept + [e], offsets + [off];
        off, expected := recEnd, next;
      } else {
        break;
      }
    }
    ScanStops(crc, file, snap, off, expected, kept, offsets, skipped);
  }

  class Log {
    const crc: Crc
    var file: Bytes
    var snapFile: Option<Bytes>
    var entries: seq<Entry>
    var offsets: seq<nat>
    var end: nat
    var snapIndex: nat
    var snapTerm: nat

    /** The representation invariant: file, index and boundary agree. */
    ghost predicate Valid()
      reads this
    {
      && Laid(file, Records(crc, entries), offsets)
      && AllStorable(entries)
      && end == |file|
      && Contiguous(entries, snapIndex + 1)
      && SnapshotOf(crc, snapFile).Some?
      && snapIndex == SnapshotOf(crc, snapFile).value.index
      && snapTerm == SnapshotOf(crc, snapFile).value.term
    }

    /** The compacted log this object stands for. */
    ghost function Value(): View
      requires Valid()
      reads this
    {
      View(snapIndex, snapTerm, DataOf(SnapshotOf(crc, snapFile).value), entries)
    }

    /** Takes the two files over; `Recover` then makes the object valid. */
    constructor OnDisk(crc: Crc, file: Bytes, snapFile: Option<Bytes>, s: SnapshotImage)
      ensures this.crc == crc && this.file == file && this.snapFile == snapFile
      ensures snapIndex == s.index && snapTerm == s.term && entries == [] && offsets == [] && end == 0
    {
      this.crc, this.file, this.snapFile := crc, file, snapFile;
      snapIndex, snapTerm := s.index, s.term;
      entries, offsets, end := [], [], 0;
    }

    /** Opens the log on any two files. A damaged snapshot is an error; whatever bytes the log file
        holds, the result is a valid log over a file of whole records. */
    static method Open(crc: Crc, file: Bytes, snapFile: Option<Bytes>) returns (l: Log?)
      ensures l == null <==> Opened(crc, file, snapFile).None?
      ensures l != null ==> fresh(l) && l.Valid() && l.crc == crc && l.snapFile == snapFile
      ensures l != null ==> Some(l.Value()) == Opened(crc, file, snapFile)
    {
      var s := SnapshotOf(crc, snapFile);
      if s.None? {
        return null;
      }
      var log := new Log.OnDisk(crc, file, snapFile, s.value);
      log.Recover();
      l := log;
    }

    /** Replays the file, cuts a torn tail and finishes an interrupted compaction. */
    method Recover()
      requires SnapshotOf(crc, snapFile).Some?
      requires snapIndex == SnapshotOf(crc, snapFile).value.index
      requires snapTerm == SnapshotOf(crc, snapFile).value.term
      requires entries == [] && offsets == []
      modifies this`file, this`entries, this`offsets, this`end
      ensures Valid()
      ensures var r := Replay(crc, old(file), snapIndex, 0, snapIndex + 1);
        entries == r.entries && (!r.skipped ==> file == old(file)[..r.end])
    {
      var kept, offs, off, skipped := Scan(crc, file, snapIndex);
      Adopt(kept, offs, off, skipped);
    }

    /** Cuts the file where the scan stopped; rewrites it if the scan skipped records. */
    method Adopt(kept: seq<Entry>, offs: seq<nat>, off: nat, skipped: bool)
      requires SnapshotOf(crc, snapFile).Some?
      requires snapIndex == SnapshotOf(crc, snapFile).value.index
      requires snapTerm == SnapshotOf(crc, snapFile).value.term
      requires Scanned(crc, file, snapIndex + 1, off, kept, offs, skipped)
      modifies this`file, this`entries, this`offsets, this`end
      ensures Valid() && entries == kept && (!skipped ==> file == old(file)[..off])
    {
      entries, offsets := kept, offs;
      file := file[..off];
      end := off;
      if skipped {
        Rewrite(entries);
      }
    }

    /** Replaces the log file by exactly the records of `keep`. */
    method Rewrite(keep: seq<Entry>)
      modifies this`file, this`entries, this`offsets, this`end
      ensures entries == keep && Laid(file, Records(crc, entries), offsets) && end == |file|
    {
      var tmp: Bytes := [];
      var offs: seq<nat> := [];
      var i := 0;
      LaidEmpty();
      while i < |keep|
        invariant i <= |keep| && Laid(tmp, Records(crc, keep[..i]), offs)
      {
        var rec := Record(crc, keep[i]);
        LaidExtend(tmp, Records(crc, keep[..i]), offs, rec);
        RecordsAppend(crc, keep[..i], keep[i]);
        assert keep[..i + 1] == keep[..i] + [keep[i]];
        offs := offs + [|tmp|];
        tmp := tmp + rec;
        i := i + 1;
      }
      assert keep[..i] == keep;
      file, entries, offsets, end := tmp, keep, offs, |tmp|;
    }

    // ---- Reads ----

    method LastIndex() returns (r: nat)
      requires Valid()
      ensures r == Value().LastIndex()
    {
      if |entries| == 0 {
        return snapIndex;
      }
      r := entries[|entries| - 1].index;
    }

    method At(index: nat) returns (r: Option<Entry>)
      requires Valid()
      ensures r == Value().At(index)
      ensures r.Some? ==> r.value.index == index
    {
      var last := LastIndex();
      if |entries| == 0 || index < snapIndex + 1 || index > last {
        return None;
      }
      r := Some(entries[index - (snapIndex + 1)]);
    }

    method TermAt(index: nat) returns (r: Option<nat>)
      requires Valid()
      ensures r == Value().TermAt(index)
    {
      if index == snapIndex {
        return Some(snapTerm);
      }
      var last := LastIndex();
      if index < snapIndex + 1 || index > last || |entries| == 0 {
        return None;
      }
      r := Some(entries[index - (snapIndex + 1)].term);
    }

    method From(lo: nat) returns (r: seq<Entry>)
      requires Valid()
      ensures r == Value().From(lo)
      ensures Contiguous(r, Max(lo, snapIndex + 1))
    {
      if |entries| == 0 {
        return [];
      }
      var lo := lo;
      if lo < snapIndex + 1 {
        lo := snapIndex + 1;
      }
      var last := LastIndex();
      if lo > last {
        return [];
      }
      r := entries[lo - (snapIndex + 1)..];
    }

    // ---- Appending and truncating ----

    method AppendRecord(e: Entry)
      requires Valid() && Storable(e) && e.index == Value().LastIndex() + 1
      modifies this`file, this`entries, this`offsets, this`end
      ensures Valid() && Value() == old(Value()).AppendEntry(e)
      ensures file == old(file) + Record(crc, e)
    {
      var rec := Record(crc, e);
      LaidExtend(file, Records(crc, entries), offsets, rec);
      RecordsAppend(crc, entries, e);
      assert file[..end] == file;
      file := file[..end] + rec;
      entries := entries + [e];
      offsets := offsets + [end];
      end := end + |rec|;
    }

    method Append(term: nat, kind: Byte, data: Bytes) returns (e: Entry)
      requires Valid() && Storable(Entry(Value().LastIndex() + 1, term, kind, data))
      modifies this`file, this`entries, this`offsets, this`end
      ensures Valid() && Value() == old(Value()).Append(term, kind, data)
      ensures e == Entry(old(Value()).LastIndex() + 1, term, kind, data)
    {
      var last := LastIndex();
      e := Entry(last + 1, term, kind, data);
      AppendRecord(e);
    }

    /** Appends a fully formed entry; one that does not follow the last is refused. */
    method AppendEntry(e: Entry) returns (ok: bool)
      requires Valid() && Storable(e)
      modifies this`file, this`entries, this`offsets, this`end
      ensures Valid() && Value() == old(Value()).AppendEntry(e)
      ensures ok <==> e.index == old(Value()).LastIndex() + 1
    {
      var last := LastIndex();
      if e.index != last + 1 {
        return false;
      }
      AppendRecord(e);
      ok := true;
    }

    method TruncateSuffix(from: nat)
      requires Valid()
      modifies this`file, this`entries, this`offsets, this`end
      ensures Valid() && Value() == old(Value()).TruncateSuffix(from)
    {
      var last := LastIndex();
      if |entries| == 0 || from > last {
        return;
      }
      var first := snapIndex + 1;
      if from <= first {
        LaidEmpty();
        file, entries, offsets, end := [], [], [], 0;
        return;
      }
      var pos := from - first;
      var cut := offsets[pos];
      LaidPrefix(file, Records(crc, entries), offsets, pos);
      RecordsPrefix(crc, entries, pos);
      file := file[..cut];
      entries := entries[..pos];
      offsets := offsets[..pos];
      end := cut;
    }

    // ---- Snapshots ----

    /** Makes `s` the snapshot and `keep` the whole log above it. */
    method Reseed(s: SnapshotImage, keep: seq<Entry>)
      requires s.index < U64_END && s.term < U64_END && |s.data| < U32_END
      requires Contiguous(keep, s.index + 1) && AllStorable(keep)
      modifies this`file, this`entries, this`offsets, this`end, this`snapFile, this`snapIndex, this`snapTerm
      ensures Valid() && Value() == View(s.index, s.term, DataOf(s), keep)
      ensures snapFile == Some(EncodeSnapshot(crc, s))
    {
      SnapshotRoundTrip(crc, s);
      snapFile := Some(EncodeSnapshot(crc, s));
      snapIndex, snapTerm := s.index, s.term;
      Rewrite(keep);
    }

    /** Compacts the log up to `index`; refused beyond the last entry. */
    method Snapshot(index: nat, term: nat, data: Bytes) returns (ok: bool)
      requires Valid() && index < U64_END && term < U64_END && |data| < U32_END
      modifies this`file, this`entries, this`offsets, this`end, this`snapFile, this`snapIndex, this`snapTerm
      ensures Valid() && Value() == old(Value()).Snapshot(index, term, data)
      ensures ok <==> index <= old(Value()).LastIndex()
    {
      if index <= snapIndex {
        return true;
      }
      var last := LastIndex();
      if index > last {
        return false;
      }
      Reseed(SnapshotImage(index, term, data), entries[index - snapIndex..]);
      ok := true;
    }

    /** What the log keeps above the leader's snapshot. */
    method KeptSuffix(index: nat, term: nat, data: Bytes) returns (keep: seq<Entry>)
      requires Valid() && snapIndex < index
      ensures Value().InstallSnapshot(index, term, data) == View(index, term, data, keep)
      ensures Contiguous(keep, index + 1) && AllStorable(keep)
    {
      var last := LastIndex();
      keep := [];
      if index >= snapIndex + 1 && index <= last && entries[index - (snapIndex + 1)].term == term {
        keep := entries[index - snapIndex..];
      }
    }

    /** Takes over the leader's snapshot, keeping the suffix only if the log holds its last entry. */
    method InstallSnapshot(index: nat, term: nat, data: Bytes)
      requires Valid() && index < U64_END && term < U64_END && |data| < U32_END
      modifies this`file, this`entries, this`offsets, this`end, this`snapFile, this`snapIndex, this`snapTerm
      ensures Valid() && Value() == old(Value()).InstallSnapshot(index, term, data)
    {
      if index <= snapIndex {
        return;
      }
      var keep := KeptSuffix(index, term, data);
      Reseed(SnapshotImage(index, term, data), keep);
    }
  }
}
