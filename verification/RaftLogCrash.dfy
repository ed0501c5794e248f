/** What opening the log gives after a crash in the middle of an append, a compaction or a snapshot
    installation. */
module RaftLogCrash {
  import opened Entries
  import opened LogView
  import opened Codec
  import opened Layout
  import opened RaftLog

  /** Two files that are a log at rest: whole records, contiguous above a readable snapshot. */
  ghost predicate AtRest(crc: Crc, file: Bytes, snapFile: Option<Bytes>, v: View) {
    && (exists offsets: seq<nat> :: Laid(file, Records(crc, v.entries), offsets))
    && AllStorable(v.entries)
    && Contiguous(v.entries, v.snapIndex + 1)
    && SnapshotIs(crc, snapFile, v)
  }

  /** The snapshot file is the one `v` starts from. */
  ghost predicate SnapshotIs(crc: Crc, snapFile: Option<Bytes>, v: View) {
    match SnapshotOf(crc, snapFile)
    case None => false
    case Some(s) => v.snapIndex == s.index && v.snapTerm == s.term && v.snapData == DataOf(s)
  }

  /** A valid log object leaves its files at rest. */
  lemma ValidIsAtRest(l: Log)
    requires l.Valid()
    ensures AtRest(l.crc, l.file, l.snapFile, l.Value())
  {
  }

  /** The entries of `es`, numbered from `first`, that lie above `snap`. */
  function Above(es: seq<Entry>, first: nat, snap: nat): seq<Entry> {
    if snap < first then es else if snap + 1 - first >= |es| then [] else es[snap + 1 - first..]
  }

  /** Reading stops right after the records of `es`. */
  ghost predicate EndsAfter(crc: Crc, file: Bytes, es: seq<Entry>) {
    var ps := Records(crc, es);
    StartsWith(file, ps) && ReadRecord(crc, file, End(ps, |ps|)) == None
  }

  lemma PieceReads(crc: Crc, file: Bytes, es: seq<Entry>, i: nat)
    requires i < |es| && Storable(es[i]) && StartsWith(file, Records(crc, es))
    ensures ReadRecord(crc, file, End(Records(crc, es), i)) == Some((es[i], End(Records(crc, es), i + 1)))
  {
    var ps := Records(crc, es);
    assert PieceAt(file, ps, i);
    RecordsIndex(crc, es, i);
    RecordReadsBack(crc, file, End(ps, i), es[i]);
  }

  /** What replay from record `i` on must give. */
  ghost predicate KeepsAbove(r: Replayed, es: seq<Entry>, first: nat, snap: nat, i: nat, end: nat)
    requires i <= |es|
  {
    && r.entries == Above(es[i..], first + i, snap)
    && r.end == end
    && (r.skipped <==> i < |es| && first + i <= snap)
  }

  lemma AboveSkips(r: Replayed, rest: Replayed, es: seq<Entry>, first: nat, snap: nat, i: nat, next: nat, end: nat)
    requires i < |es| && next == i + 1 && KeepsAbove(rest, es, first, snap, next, end)
    requires first + i <= snap && r == rest.(skipped := true)
    ensures KeepsAbove(r, es, first, snap, i, end)
  {
    assert es[i..] == [es[i]] + es[next..];
  }

  lemma AboveKeeps(r: Replayed, rest: Replayed, es: seq<Entry>, first: nat, snap: nat, i: nat, next: nat, end: nat)
    requires i < |es| && next == i + 1 && KeepsAbove(rest, es, first, snap, next, end)
    requires first + i > snap && r == rest.(entries := [es[i]] + rest.entries)
    ensures KeepsAbove(r, es, first, snap, i, end)
  {
    assert es[i..] == [es[i]] + es[next..];
  }

  lemma ReplayStep(crc: Crc, file: Bytes, es: seq<Entry>, first: nat, snap: nat, i: nat, next: nat, off: nat, recEnd: nat,
                   expected: nat, after: nat, end: nat)
    requires i < |es| && es[i].index == first + i && next == i + 1
    requires ReadRecord(crc, file, off) == Some((es[i], recEnd))
    requires if first + i <= snap then after == expected else expected == first + i && after == expected + 1
    requires KeepsAbove(Replay(crc, file, snap, recEnd, after), es, first, snap, next, end)
    ensures KeepsAbove(Replay(crc, file, snap, off, expected), es, first, snap, i, end)
  {
    var r, rest := Replay(crc, file, snap, off, expected), Replay(crc, file, snap, recEnd, after);
    if first + i <= snap {
      ReplaySkips(crc, file, snap, off, expected, es[i], recEnd);
      AboveSkips(r, rest, es, first, snap, i, next, end);
    } else {
      ReplayKeeps(crc, file, snap, off, expected, es[i], recEnd);
      AboveKeeps(r, rest, es, first, snap, i, next, end);
    }
  }

  /** Replay, from record `i` on, keeps exactly the entries above the snapshot. */
  lemma {:induction false} ReplayKeepsAbove(crc: Crc, file: Bytes, es: seq<Entry>, first: nat, snap: nat, i: nat, off: nat, expected: nat, end: nat)
    requires EndsAfter(crc, file, es) && AllStorable(es) && Contiguous(es, first) && first <= snap + 1
    requires i <= |es| && off == End(Records(crc, es), i) && end == End(Records(crc, es), |es|)
    requires expected == Max(snap + 1, first + i)
    ensures KeepsAbove(Replay(crc, file, snap, off, expected), es, first, snap, i, end)
    decreases |es| - i
  {
    if i < |es| {
      PieceReads(crc, file, es, i);
      var next := i + 1;
      var recEnd, after := End(Records(crc, es), next), Max(snap + 1, first + next);
      ReplayKeepsAbove(crc, file, es, first, snap, next, recEnd, after, end);
      ReplayStep(crc, file, es, first, snap, i, next, off, recEnd, expected, after, end);
    }
  }

  lemma ReplayWhole(crc: Crc, file: Bytes, es: seq<Entry>, first: nat, snap: nat)
    requires EndsAfter(crc, file, es) && AllStorable(es) && Contiguous(es, first) && first <= snap + 1
    ensures Replay(crc, file, snap, 0, snap + 1)
      == Replayed(Above(es, first, snap), End(Records(crc, es), |es|), es != [] && first <= snap)
  {
    assert es[0..] == es;
    ReplayKeepsAbove(crc, file, es, first, snap, 0, 0, snap + 1, End(Records(crc, es), |es|));
  }

  lemma LaidEndsAfter(crc: Crc, file: Bytes, es: seq<Entry>, offsets: seq<nat>)
    requires Laid(file, Records(crc, es), offsets)
    ensures EndsAfter(crc, file, es)
  {
  }

  // ---- Reopening ----

  /** Reopening a log at rest gives the same log. */
  lemma ReopenIsIdentity(crc: Crc, file: Bytes, snapFile: Option<Bytes>, v: View)
    requires AtRest(crc, file, snapFile, v)
    ensures Opened(crc, file, snapFile) == Some(v)
  {
    var offsets: seq<nat> :| Laid(file, Records(crc, v.entries), offsets);
    LaidEndsAfter(crc, file, v.entries, offsets);
    EndsAfterRecovers(crc, file, snapFile, v);
  }

  // ---- A torn append ----

  /** Cutting an append at any byte loses at most the entry being appended: the log reopens as it
      was, or with the whole entry if the record was complete. What is cut off as torn starts exactly
      where the append began. */
  lemma TornAppendRecovers(crc: Crc, file: Bytes, snapFile: Option<Bytes>, v: View, e: Entry, cut: nat)
    requires AtRest(crc, file, snapFile, v) && Storable(e) && e.index == v.LastIndex() + 1
    requires cut <= |Record(crc, e)|
    ensures var torn := file + Record(crc, e)[..cut];
      if cut == |Record(crc, e)| then Recovers(crc, torn, snapFile, v.AppendEntry(e), |torn|)
      else Recovers(crc, torn, snapFile, v, |file|)
  {
    var offsets: seq<nat> :| Laid(file, Records(crc, v.entries), offsets);
    var rec := Record(crc, e);
    if cut == |rec| {
      assert rec[..cut] == rec;
      WholeRecovers(crc, file, snapFile, v, offsets, e, rec);
    } else {
      CutRecovers(crc, file, snapFile, v, offsets, e, cut);
    }
  }

  /** The two files reopen as `v`, and the log file is valid exactly up to `end`. */
  ghost predicate Recovers(crc: Crc, file: Bytes, snapFile: Option<Bytes>, v: View, end: nat) {
    Opened(crc, file, snapFile) == Some(v) && Replay(crc, file, v.snapIndex, 0, v.snapIndex + 1).end == end
  }

  lemma EndsAfterRecovers(crc: Crc, file: Bytes, snapFile: Option<Bytes>, v: View)
    requires EndsAfter(crc, file, v.entries) && AllStorable(v.entries) && Contiguous(v.entries, v.snapIndex + 1)
    requires SnapshotIs(crc, snapFile, v)
    ensures Recovers(crc, file, snapFile, v, End(Records(crc, v.entries), |v.entries|))
  {
    ReplayWhole(crc, file, v.entries, v.snapIndex + 1, v.snapIndex);
  }

  lemma WholeRecovers(crc: Crc, file: Bytes, snapFile: Option<Bytes>, v: View, offsets: seq<nat>, e: Entry, rec: Bytes)
    requires Laid(file, Records(crc, v.entries), offsets) && rec == Record(crc, e)
    requires AllStorable(v.entries) && Contiguous(v.entries, v.snapIndex + 1) && SnapshotIs(crc, snapFile, v)
    requires Storable(e) && e.index == v.LastIndex() + 1
    ensures Recovers(crc, file + rec, snapFile, v.AppendEntry(e), |file + rec|)
  {
    WholeEndsAfter(crc, file, v.entries, offsets, e, rec);
    EndsAfterRecovers(crc, file + rec, snapFile, v.AppendEntry(e));
  }

  lemma CutRecovers(crc: Crc, file: Bytes, snapFile: Option<Bytes>, v: View, offsets: seq<nat>, e: Entry, cut: nat)
    requires Laid(file, Records(crc, v.entries), offsets) && Storable(e) && cut < |Record(crc, e)|
    requires AllStorable(v.entries) && Contiguous(v.entries, v.snapIndex + 1) && SnapshotIs(crc, snapFile, v)
    ensures Recovers(crc, file + Record(crc, e)[..cut], snapFile, v, |file|)
  {
    TornEndsAfter(crc, file, v.entries, offsets, e, cut);
    EndsAfterRecovers(crc, file + Record(crc, e)[..cut], snapFile, v);
  }

  lemma WholeEndsAfter(crc: Crc, file: Bytes, es: seq<Entry>, offsets: seq<nat>, e: Entry, rec: Bytes)
    requires Laid(file, Records(crc, es), offsets) && rec == Record(crc, e)
    ensures EndsAfter(crc, file + rec, es + [e])
    ensures End(Records(crc, es + [e]), |es + [e]|) == |file + rec|
  {
    LaidExtend(file, Records(crc, es), offsets, rec);
    RecordsAppend(crc, es, e);
    LaidEndsAfter(crc, file + rec, es + [e], offsets + [|file|]);
  }

  lemma TornEndsAfter(crc: Crc, file: Bytes, es: seq<Entry>, offsets: seq<nat>, e: Entry, cut: nat)
    requires Laid(file, Records(crc, es), offsets) && Storable(e) && cut < |Record(crc, e)|
    ensures EndsAfter(crc, file + Record(crc, e)[..cut], es)
  {
    var ps, tail := Records(crc, es), Record(crc, e)[..cut];
    var torn := file + tail;
    forall i | 0 <= i < |ps| ensures PieceAt(torn, ps, i) {
      assert PieceAt(file, ps, i);
      PieceBefore(file, ps, tail, [], i);
      assert torn + [] == torn && file + tail + [] == torn;
      EndAgrees(ps, ps + [tail], i);
    }
    assert torn[|file|..] == tail;
    TornRecordUnread(crc, torn, |file|, e, cut);
  }

  // ---- A crash while compacting or installing ----

  /** The log reopened after the new snapshot is in place but the log file is still the old one. */
  lemma InterruptedRewrite(crc: Crc, file: Bytes, snapFile: Option<Bytes>, v: View, s: SnapshotImage)
    requires AtRest(crc, file, snapFile, v) && v.snapIndex < s.index
    requires s.index < U64_END && s.term < U64_END && |s.data| < U32_END
    ensures Opened(crc, file, Some(EncodeSnapshot(crc, s)))
      == Some(View(s.index, s.term, s.data, Above(v.entries, v.snapIndex + 1, s.index)))
  {
    var offsets: seq<nat> :| Laid(file, Records(crc, v.entries), offsets);
    SnapshotRoundTrip(crc, s);
    LaidEndsAfter(crc, file, v.entries, offsets);
    ReopensAbove(crc, file, Some(EncodeSnapshot(crc, s)), v.entries, v.snapIndex + 1, s);
  }

  lemma ReopensAbove(crc: Crc, file: Bytes, snapFile: Option<Bytes>, es: seq<Entry>, first: nat, s: SnapshotImage)
    requires EndsAfter(crc, file, es) && AllStorable(es) && Contiguous(es, first) && 0 < s.index && first <= s.index
    requires SnapshotOf(crc, snapFile) == Some(s)
    ensures Opened(crc, file, snapFile) == Some(View(s.index, s.term, s.data, Above(es, first, s.index)))
  {
    ReplayWhole(crc, file, es, first, s.index);
  }

  lemma AboveIs(v: View, index: nat)
    requires v.snapIndex < index
    ensures Above(v.entries, v.snapIndex + 1, index)
      == if index <= v.LastIndex() then v.entries[index - v.snapIndex..] else []
  {
  }

  /** Compaction is crash-atomic: before the snapshot is renamed into place the old log is reopened,
      and from then on the compacted one, whether or not the log file was rewritten. */
  lemma SnapshotIsAtomic(crc: Crc, file: Bytes, snapFile: Option<Bytes>, v: View, index: nat, term: nat, data: Bytes)
    requires AtRest(crc, file, snapFile, v) && v.snapIndex < index <= v.LastIndex()
    requires index < U64_END && term < U64_END && |data| < U32_END
    ensures Opened(crc, file, snapFile) == Some(v)
    ensures Opened(crc, file, Some(EncodeSnapshot(crc, SnapshotImage(index, term, data))))
      == Some(v.Snapshot(index, term, data))
  {
    ReopenIsIdentity(crc, file, snapFile, v);
    InterruptedRewrite(crc, file, snapFile, v, SnapshotImage(index, term, data));
    AboveIs(v, index);
  }

  /** The log holds an entry of another term where the leader's snapshot ends, and entries after it. */
  predicate DivergesBelowTail(v: View, index: nat, term: nat) {
    v.snapIndex < index < v.LastIndex() && v.entries[index - v.snapIndex - 1].term != term
  }

  /** Installing a snapshot is crash-atomic exactly when the log does not diverge at the snapshot's
      last entry with more entries after it; then the recovery keeps a suffix it should discard. */
  lemma InstallIsAtomicIff(crc: Crc, file: Bytes, snapFile: Option<Bytes>, v: View, index: nat, term: nat, data: Bytes)
    requires AtRest(crc, file, snapFile, v) && v.snapIndex < index
    requires index < U64_END && term < U64_END && |data| < U32_END
    ensures Opened(crc, file, Some(EncodeSnapshot(crc, SnapshotImage(index, term, data))))
        == Some(v.InstallSnapshot(index, term, data))
      <==> !DivergesBelowTail(v, index, term)
  {
    InterruptedRewrite(crc, file, snapFile, v, SnapshotImage(index, term, data));
    AboveIs(v, index);
  }

  /** The stale suffix can even break the order of terms: a log of two entries of term 1 that is
      interrupted while installing a snapshot of term 3 at index 1 reopens with term 1 above term 3. */
  lemma InterruptedInstallBreaksTermOrder(crc: Crc)
    ensures exists file, v :: AtRest(crc, file, None, v) && ReopensOutOfOrder(crc, file, v)
  {
    var e1, e2 := Entry(1, 1, KIND_COMMAND, []), Entry(2, 1, KIND_COMMAND, []);
    var r1, r2, v := Record(crc, e1), Record(crc, e2), View(0, 0, [], [e1, e2]);
    TwoRecordsLaid(crc, e1, e2, r1, r2);
    assert AtRest(crc, r1 + r2, None, v);
    StaleSuffix(crc, r1 + r2, v);
  }

  /** Interrupted while installing a snapshot of term 3 at index 1, `file` reopens with an entry of
      term 1 above it, which the finished installation would have dropped. */
  ghost predicate ReopensOutOfOrder(crc: Crc, file: Bytes, v: View) {
    match Opened(crc, file, Some(EncodeSnapshot(crc, SnapshotImage(1, 3, []))))
    case None => false
    case Some(w) =>
      w.TermAt(1) == Some(3) && w.TermAt(2) == Some(1) && v.InstallSnapshot(1, 3, []).TermAt(2) == None
  }

  lemma StaleSuffix(crc: Crc, file: Bytes, v: View)
    requires v == View(0, 0, [], [Entry(1, 1, KIND_COMMAND, []), Entry(2, 1, KIND_COMMAND, [])])
    requires AtRest(crc, file, None, v)
    ensures ReopensOutOfOrder(crc, file, v)
  {
    InterruptedRewrite(crc, file, None, v, SnapshotImage(1, 3, []));
  }

  lemma TwoRecordsLaid(crc: Crc, e1: Entry, e2: Entry, r1: Bytes, r2: Bytes)
    requires r1 == Record(crc, e1) && r2 == Record(crc, e2)
    ensures Laid(r1 + r2, Records(crc, [e1, e2]), [0, |r1|])
  {
    LaidEmpty();
    LaidExtend([], [], [], r1);
    assert [] + r1 == r1 && [] + [r1] == [r1] && [] + [0] == [0];
    LaidExtend(r1, [r1], [0], r2);
    RecordsAppend(crc, [], e1);
    RecordsAppend(crc, [e1], e2);
    assert [] + [e1] == [e1] && [e1] + [e2] == [e1, e2] && [0] + [|r1|] == [0, |r1|];
    assert Records(crc, [e1, e2]) == [r1] + [r2];
  }

  // ---- Whatever is on disk ----

  /** A record is read the same from any prefix of the file that holds it whole. */
  lemma ReadInPrefix(crc: Crc, file: Bytes, cut: Bytes, off: nat, e: Entry, recEnd: nat)
    requires ReadRecord(crc, file, off) == Some((e, recEnd)) && recEnd <= |cut| && cut <= file
    ensures ReadRecord(crc, cut, off) == Some((e, recEnd))
  {
    var mid := off + RECORD_HEADER;
    assert cut[off..off + 4] == file[off..off + 4] && cut[off + 4..off + 8] == file[off + 4..off + 8];
    assert cut[mid..recEnd] == file[mid..recEnd];
  }

  lemma {:induction false} ReplayMovesOn(crc: Crc, file: Bytes, snap: nat, off: nat, expected: nat)
    ensures off <= Replay(crc, file, snap, off, expected).end
    decreases |file| - off
  {
    match ReadRecord(crc, file, off)
    case None =>
    case Some((e, recEnd)) =>
      ReplayMovesOn(crc, file, snap, recEnd, expected);
      ReplayMovesOn(crc, file, snap, recEnd, expected + 1);
  }

  lemma SkipOfCut(crc: Crc, file: Bytes, cut: Bytes, snap: nat, off: nat, expected: nat, e: Entry, recEnd: nat)
    requires ReadRecord(crc, file, off) == Some((e, recEnd)) && e.index <= snap && recEnd <= |cut| && cut <= file
    requires Replay(crc, cut, snap, recEnd, expected) == Replay(crc, file, snap, recEnd, expected)
    ensures Replay(crc, cut, snap, off, expected) == Replay(crc, file, snap, off, expected)
  {
    ReadInPrefix(crc, file, cut, off, e, recEnd);
    ReplaySkips(crc, file, snap, off, expected, e, recEnd);
    ReplaySkips(crc, cut, snap, off, expected, e, recEnd);
  }

  lemma KeepOfCut(crc: Crc, file: Bytes, cut: Bytes, snap: nat, off: nat, expected: nat, next: nat, e: Entry, recEnd: nat)
    requires ReadRecord(crc, file, off) == Some((e, recEnd)) && snap < e.index == expected && next == expected + 1
    requires recEnd <= |cut| && cut <= file
    requires Replay(crc, cut, snap, recEnd, next) == Replay(crc, file, snap, recEnd, next)
    ensures Replay(crc, cut, snap, off, expected) == Replay(crc, file, snap, off, expected)
  {
    var rest := Replay(crc, file, snap, recEnd, next);
    ReadInPrefix(crc, file, cut, off, e, recEnd);
    KeepsThen(crc, file, snap, off, expected, next, e, recEnd, rest);
    KeepsThen(crc, cut, snap, off, expected, next, e, recEnd, rest);
  }

  lemma KeepsThen(crc: Crc, file: Bytes, snap: nat, off: nat, expected: nat, next: nat, e: Entry, recEnd: nat, rest: Replayed)
    requires ReadRecord(crc, file, off) == Some((e, recEnd)) && snap < e.index == expected && next == expected + 1
    requires Replay(crc, file, snap, recEnd, next) == rest
    ensures Replay(crc, file, snap, off, expected) == rest.(entries := [e] + rest.entries)
  {
    ReplayKeeps(crc, file, snap, off, expected, e, recEnd);
  }

  /** Replaying what is left after cutting the tail gives the same. */
  lemma {:induction false} ReplayOfCut(crc: Crc, file: Bytes, cut: Bytes, snap: nat, off: nat, expected: nat)
    requires off <= |cut| == Replay(crc, file, snap, off, expected).end && cut <= file
    ensures Replay(crc, cut, snap, off, expected) == Replay(crc, file, snap, off, expected)
    decreases |file| - off
  {
    match ReadRecord(crc, file, off)
    case None =>
    case Some((e, recEnd)) =>
      if e.index <= snap {
        ReplayMovesOn(crc, file, snap, recEnd, expected);
        ReplayOfCut(crc, file, cut, snap, recEnd, expected);
        SkipOfCut(crc, file, cut, snap, off, expected, e, recEnd);
      } else if e.index == expected {
        var next := expected + 1;
        ReplayMovesOn(crc, file, snap, recEnd, next);
        ReplayOfCut(crc, file, cut, snap, recEnd, next);
        KeepOfCut(crc, file, cut, snap, off, expected, next, e, recEnd);
      }
  }

  /** Recovery itself may be interrupted: whatever the two files hold, once the tail is cut and before
      anything is rewritten they still open as the same log. */
  lemma CutTailIsHarmless(crc: Crc, file: Bytes, snapFile: Option<Bytes>, s: SnapshotImage, cut: Bytes)
    requires SnapshotOf(crc, snapFile) == Some(s)
    requires cut <= file && |cut| == Replay(crc, file, s.index, 0, s.index + 1).end
    ensures Opened(crc, cut, snapFile) == Opened(crc, file, snapFile)
  {
    ReplayOfCut(crc, file, cut, s.index, 0, s.index + 1);
  }

  /** Opening any two files twice is opening them once: the first opening leaves files at rest that
      reopen to the same log. */
  method OpenTwice(crc: Crc, file: Bytes, snapFile: Option<Bytes>) returns (a: Log?, b: Log?)
    ensures a == null <==> b == null
    ensures a != null && b != null ==> a.Valid() && b.Valid() && a.Value() == b.Value() && a.file == b.file
  {
    a := Log.Open(crc, file, snapFile);
    b := null;
    if a != null {
      ValidIsAtRest(a);
      ReopenIsIdentity(crc, a.file, a.snapFile, a.Value());
      b := Log.Open(crc, a.file, a.snapFile);
      SameFile(crc, a.file, b.file, a.entries, a.offsets, b.offsets);
    }
  }

  /** The entries determine the file. */
  lemma SameFile(crc: Crc, f: Bytes, g: Bytes, es: seq<Entry>, fo: seq<nat>, go: seq<nat>)
    requires Laid(f, Records(crc, es), fo) && Laid(g, Records(crc, es), go)
    ensures f == g
  {
    var ps := Records(crc, es);
    SamePieces(f, g, ps, |ps|);
    assert f[..|f|] == f && g[..|g|] == g;
  }

  lemma {:induction false} SamePieces(f: Bytes, g: Bytes, ps: seq<Bytes>, k: nat)
    requires StartsWith(f, ps) && StartsWith(g, ps) && k <= |ps|
    ensures End(ps, k) <= |f| && End(ps, k) <= |g| && f[..End(ps, k)] == g[..End(ps, k)]
  {
    if k > 0 {
      SamePieces(f, g, ps, k - 1);
      var o := End(ps, k - 1);
      assert PieceAt(f, ps, k - 1) && PieceAt(g, ps, k - 1);
      assert f[..o + |ps[k - 1]|] == f[..o] + f[o..o + |ps[k - 1]|];
      assert g[..o + |ps[k - 1]|] == g[..o] + g[o..o + |ps[k - 1]|];
    }
  }
}
