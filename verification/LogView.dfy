/** The log as the Raft engine sees it: a snapshot boundary and the entries above it. The byte-level
    log of module RaftLog implements exactly these operations. */
module LogView {
  import opened Entries

  datatype View = View(snapIndex: nat, snapTerm: nat, snapData: seq<Byte>, entries: seq<Entry>) {

    function LastIndex(): nat {
      snapIndex + |entries|
    }

    /** The entry at `index`, if it is above the snapshot boundary and in the log. */
    function At(index: nat): Option<Entry> {
      if snapIndex < index <= LastIndex() then Some(entries[index - snapIndex - 1]) else None
    }

    /** The term at `index`; the boundary itself resolves to the snapshot's term. */
    function TermAt(index: nat): Option<nat> {
      if index == snapIndex then Some(snapTerm)
      else if snapIndex < index <= LastIndex() then Some(entries[index - snapIndex - 1].term)
      else None
    }

    /** The term at `index` with a missing entry read as 0. */
    function TermOrZero(index: nat): nat {
      if TermAt(index).Some? then TermAt(index).value else 0
    }

    /** All entries with index at least `lo`, clamped to the first index present. */
    function From(lo: nat): seq<Entry> {
      if lo <= snapIndex then entries
      else if lo > LastIndex() then []
      else entries[lo - snapIndex - 1..]
    }

    function Append(term: nat, kind: Byte, data: seq<Byte>): View {
      this.(entries := entries + [Entry(LastIndex() + 1, term, kind, data)])
    }

    /** Appends a fully formed entry; a non-contiguous one is refused and changes nothing. */
    function AppendEntry(e: Entry): View {
      if e.index == LastIndex() + 1 then this.(entries := entries + [e]) else this
    }

    /** Removes every entry with index at least `from`. */
    function TruncateSuffix(from: nat): View {
      if from > LastIndex() then this
      else if from <= snapIndex + 1 then this.(entries := [])
      else this.(entries := entries[..from - snapIndex - 1])
    }

    /** Compacts everything up to `index`, which must be above the boundary and in the log. */
    function Snapshot(index: nat, term: nat, data: seq<Byte>): View {
      if snapIndex < index <= LastIndex() then View(index, term, data, entries[index - snapIndex..]) else this
    }

    /** Takes over a snapshot sent by the leader: the suffix above it survives only if the log holds
        the snapshot's last entry. */
    function InstallSnapshot(index: nat, term: nat, data: seq<Byte>): View {
      if index <= snapIndex then this
      else if index <= LastIndex() && entries[index - snapIndex - 1].term == term then
        View(index, term, data, entries[index - snapIndex..])
      else View(index, term, data, [])
    }
  }

  const EMPTY := View(0, 0, [], [])

  function AppendAll(v: View, es: seq<Entry>): View
    decreases |es|
  {
    if es == [] then v else AppendAll(v.AppendEntry(es[0]), es[1..])
  }

  /** The follower's append: skip entries already held with the same term, cut at the first conflict,
      append the rest. `i` is the position reached in `es`. */
  function AppendMissing(v: View, prev: nat, es: seq<Entry>, i: nat): View
    requires i <= |es|
    decreases |es| - i
  {
    if i == |es| then v
    else
      var idx := prev + 1 + i;
      if idx <= v.LastIndex() && v.TermOrZero(idx) == es[i].term then AppendMissing(v, prev, es, i + 1)
      else AppendAll(v.TruncateSuffix(idx), es[i..])
  }

  /** The lowest index at or above `i` whose term is `term`; 1 if there is none. */
  function FirstIndexWithTerm(v: View, term: nat, i: nat): (r: nat)
    decreases v.LastIndex() + 1 - i
    ensures r == 1 || (i <= r <= v.LastIndex() && v.TermOrZero(r) == term)
    ensures forall j | i <= j <= v.LastIndex() && v.TermOrZero(j) == term :: r <= j || r == 1
  {
    if i > v.LastIndex() then 1
    else if v.TermOrZero(i) == term then i
    else FirstIndexWithTerm(v, term, i + 1)
  }

  /** The highest index at or below `i` whose term is `term`, searching while terms are above it and
      known; 0 if there is none. */
  function LastIndexWithTerm(v: View, term: nat, i: nat): (r: nat)
    ensures r <= i
    ensures r > 0 ==> v.TermAt(r) == Some(term) && forall j | r < j <= i :: v.TermAt(j) != Some(term)
  {
    if i == 0 then 0
    else
      match v.TermAt(i)
      case None => 0
      case Some(t) =>
        if t == term then i
        else if t < term then 0
        else LastIndexWithTerm(v, term, i - 1)
  }

  /** Terms never decrease along the log. */
  ghost predicate TermsInOrder(v: View) {
    forall j: nat, k: nat | j <= k && v.TermAt(j).Some? && v.TermAt(k).Some? :: v.TermAt(j).value <= v.TermAt(k).value
  }

  /** Stopping at the first smaller term misses nothing: in a log whose terms are in order the search
      finds the highest index of the term whenever there is one. */
  lemma {:induction false} LastIndexMissesNothing(v: View, term: nat, i: nat, j: nat)
    requires TermsInOrder(v) && i <= v.LastIndex() && 0 < j <= i && v.TermAt(j) == Some(term)
    ensures j <= LastIndexWithTerm(v, term, i)
    decreases i
  {
    assert v.TermAt(i).Some? && v.TermAt(j).value <= v.TermAt(i).value;
    if v.TermAt(i).value != term {
      LastIndexMissesNothing(v, term, i - 1, j);
    }
  }
}
