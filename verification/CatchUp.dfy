/** Replication brings any quiet peer up to date: from whatever the leader believes about it, through
    rejected probes and at most one snapshot, to holding the leader's whole log. */
module CatchUp {
  import opened Entries
  import opened LogView
  import opened RaftNode
  import opened Consensus
  import opened Cluster
  import opened ClusterFrame
  import opened ClusterElection
  import opened ClusterReplication
  import opened Safety
  import opened Backtracking

  /** One round trip of a snapshot. */
  function SnapExchange<S>(app: App<S>, s: Node<S>, f: Node<S>): (Node<S>, Node<S>) {
    var a := SnapRequestOf(s);
    var (f', r) := HandleInstallSnapshot(app, f, a);
    (OnSnapReply(s, f.id, a, r), f')
  }

  /** One round trip of replication: the snapshot if the peer is behind it, otherwise an append. */
  function Round<S>(app: App<S>, s: Node<S>, f: Node<S>): (Node<S>, Node<S>) {
    if NeedsSnapshot(s, f.id) then SnapExchange(app, s, f) else Exchange(s, f)
  }

  function Rounds<S>(app: App<S>, s: Node<S>, f: Node<S>, k: nat): (Node<S>, Node<S>)
    decreases k
  {
    if k == 0 then (s, f) else var (s', f') := Round(app, s, f); Rounds(app, s', f', k - 1)
  }

  /** The peer holds everything the leader holds, and the leader knows it and probes at its end. */
  ghost predicate CaughtUp<S>(s: Node<S>, f: Node<S>) {
    && Alike(s.log, f.log)
    && s.log.LastIndex() <= Get(s.matchIndex, f.id)
    && Get(s.nextIndex, f.id) == s.log.LastIndex() + 1
  }

  /** The peer has committed everything under the leader's snapshot. */
  predicate Covers<S>(s: Node<S>, f: Node<S>) {
    s.log.snapIndex <= f.commitIndex
  }

  // ---- The snapshot round ----

  /** The pair after the leader has acted. */
  lemma PairActs<S>(app: App<S>, h: History, h': History, s: Node<S>, f: Node<S>)
    requires NodeInv(app, h, f.id, f) && f.id != s.id && ActsOnly(h, h', s.id) && Inv(h') && NodeInv(app, h', s.id, s)
    requires s.role == Leader && f.id in s.peers && f.currentTerm == s.currentTerm
    ensures Pair(app, h', s, f)
  {
    OtherNodeKept(app, h, h', s.id, f.id, f);
  }

  lemma PeerIsOther<S>(app: App<S>, h: History, s: Node<S>, p: NodeId)
    requires NodeInv(app, h, s.id, s) && p in s.peers
    ensures p != s.id
  {
    assert p in PeerSet(s.peers);
  }

  /** After the snapshot round the peer covers the snapshot and the leader probes above it. */
  lemma SnapshotEffect<S>(app: App<S>, s: Node<S>, f: Node<S>)
    requires s.role == Leader && f.currentTerm == s.currentTerm && f.log.snapIndex <= f.commitIndex
    ensures var (s', f') := SnapExchange(app, s, f);
      && s'.log == s.log && s'.id == s.id && s'.role == Leader && s'.peers == s.peers && s'.currentTerm == s.currentTerm
      && f'.id == f.id && f'.currentTerm == f.currentTerm
      && Covers(s', f') && !NeedsSnapshot(s', f.id)
  {
  }

  lemma SnapshotRound<S(!new)>(app: App<S>, h: History, s: Node<S>, f: Node<S>) returns (h': History)
    requires AppOk(app) && Pair(app, h, s, f) && NeedsSnapshot(s, f.id)
    ensures var (s', f') := SnapExchange(app, s, f); Pair(app, h', s', f')
  {
    var a := SnapRequestOf(s);
    var (f', r) := HandleInstallSnapshot(app, f, a);
    SnapRequestSent(app, h, s.id, s, f.id);
    var h1 := SnapRequestNode(app, h, f.id, f, a);
    PeerIsOther(app, h, s, f.id);
    OtherNodeKept(app, h, h1, f.id, s.id, s);
    h' := SnapReplyNode(app, h1, s.id, s, f.id, a, r);
    SnapshotEffect(app, s, f);
    PairActs(app, h1, h', OnSnapReply(s, f.id, a, r), f');
  }

  // ---- Probing above the snapshot ----

  /** A term that stands at `first` and at `prev` stands at every index between. */
  lemma TermReaches(h: History, lf: seq<Entry>, k: nat, prev: nat, first: nat)
    requires ReignsOk(h) && LogOk(h, lf) && 0 < first <= k <= prev <= |lf|
    requires lf[first - 1].term == lf[prev - 1].term
    ensures lf[k - 1].term == lf[prev - 1].term
  {
    TermsOrdered(h, lf, first - 1, k - 1);
    TermsOrdered(h, lf, k - 1, prev - 1);
  }

  /** The search from `i` finds an index with the term, if there is one up to `p`. */
  lemma {:induction false} FirstMatches(v: View, term: nat, i: nat, p: nat)
    requires i <= p <= v.LastIndex() && v.TermOrZero(p) == term
    ensures i <= FirstIndexWithTerm(v, term, i) <= p && v.TermOrZero(FirstIndexWithTerm(v, term, i)) == term
    decreases p - i
  {
    if v.TermOrZero(i) != term {
      FirstMatches(v, term, i + 1, p);
    }
  }

  /** A search for the boundary's own term finds something. */
  lemma {:induction false} BoundaryTermFound(v: View, u: nat, i: nat)
    requires 0 < v.snapIndex <= i <= v.LastIndex() && v.snapTerm == u
    requires forall x | v.snapIndex <= x <= i :: v.TermAt(x).Some? && v.TermAt(x).value >= u
    ensures LastIndexWithTerm(v, u, i) >= v.snapIndex
  {
    assert v.TermAt(i).Some?;
    if v.TermAt(i).value != u {
      BoundaryTermFound(v, u, i - 1);
    }
  }

  /** The terms the view shows are in order from the boundary on. */
  lemma BoundaryOrdered<S>(app: App<S>, h: History, v: View, ls: seq<Entry>)
    requires ReignsOk(h) && LogOk(h, ls) && ViewOk(app, v, ls) && 0 < v.snapIndex
    ensures forall x | v.snapIndex <= x <= v.LastIndex() :: v.TermAt(x).Some? && v.TermAt(x).value >= v.snapTerm
  {
    ViewReads(app, v, ls);
    forall x | v.snapIndex <= x <= v.LastIndex() ensures v.TermAt(x).Some? && v.TermAt(x).value >= v.snapTerm {
      TermsOrdered(h, ls, v.snapIndex - 1, x - 1);
    }
  }

  /** The hint's index really has the conflicting term. */
  lemma FirstIsHeld<S>(app: App<S>, h: History, fv: View, lf: seq<Entry>, prev: nat, u: nat)
    requires ReignsOk(h) && LogOk(h, lf) && ViewOk(app, fv, lf) && fv.snapIndex <= prev <= |lf| && 0 < prev
    requires u == lf[prev - 1].term
    ensures var first := FirstIndexWithTerm(fv, u, 1); 0 < first <= prev && lf[first - 1].term == u
  {
    ViewReads(app, fv, lf);
    FirstMatches(fv, u, 1, prev);
    TermsOrdered(h, lf, prev - 1, prev - 1);
  }

  /** If the follower's conflicting term begins at or below the leader's snapshot, it is the term of
      the snapshot, and the leader finds it. */
  lemma TermHintAbove<S>(app: App<S>, h: History, v: View, ls: seq<Entry>, fv: View, lf: seq<Entry>, prev: nat, u: nat)
    requires ReignsOk(h) && LogOk(h, ls) && LogOk(h, lf) && ViewOk(app, v, ls) && ViewOk(app, fv, lf)
    requires Agree(lf, ls, v.snapIndex) && Max(v.snapIndex, fv.snapIndex) <= prev <= |lf| && 0 < prev
    requires u == lf[prev - 1].term && FirstIndexWithTerm(fv, u, 1) <= v.snapIndex
    ensures LastIndexWithTerm(v, u, v.LastIndex()) >= v.snapIndex
  {
    FirstIsHeld(app, h, fv, lf, prev, u);
    TermReaches(h, lf, v.snapIndex, prev, FirstIndexWithTerm(fv, u, 1));
    BoundaryOrdered(app, h, v, ls);
    BoundaryTermFound(v, u, v.LastIndex());
  }

  /** The peer's log agrees with the leader's wherever the peer has committed. */
  lemma CoveredAgrees<S>(app: App<S>, h: History, s: Node<S>, f: Node<S>)
    requires Pair(app, h, s, f) && Covers(s, f)
    ensures Agree(h.log[f.id], h.log[s.id], s.log.snapIndex)
  {
    assert LeaderOk(h, s.currentTerm);
    SettledInReign(h, f.currentTerm, h.log[f.id], f.commitIndex, s.currentTerm);
  }

  /** Going by a conflicting term, the leader resumes above its snapshot. */
  lemma TermBackUpAbove<S>(app: App<S>, h: History, v: View, ls: seq<Entry>, fv: View, lf: seq<Entry>, prev: nat, r: AppendReply)
    requires ReignsOk(h) && LogOk(h, ls) && LogOk(h, lf) && ViewOk(app, v, ls) && ViewOk(app, fv, lf)
    requires Agree(lf, ls, v.snapIndex) && Max(v.snapIndex, fv.snapIndex) <= prev <= |lf| && 0 < prev
    requires r.conflictTerm == lf[prev - 1].term && r.conflictIndex == FirstIndexWithTerm(fv, r.conflictTerm, 1)
    ensures BackUp(v, r) > v.snapIndex
  {
    TermsOrdered(h, lf, prev - 1, prev - 1);
    if r.conflictIndex <= v.snapIndex {
      TermHintAbove(app, h, v, ls, fv, lf, prev, r.conflictTerm);
    }
  }

  /** Against a peer that covers the leader's snapshot, a rejection never sends the leader back
      under it. */
  lemma HintStaysAbove<S>(app: App<S>, h: History, s: Node<S>, f: Node<S>)
    requires Pair(app, h, s, f) && Covers(s, f) && !NeedsSnapshot(s, f.id) && !Passes(s, f)
    requires f.log.snapIndex <= AppendRequestOf(s, f.id).prevIndex
    ensures BackUp(s.log, Hint(s, f)) > s.log.snapIndex
  {
    var prev := AppendRequestOf(s, f.id).prevIndex;
    var ls, lf := h.log[s.id], h.log[f.id];
    HintSays(app, f, lf, s);
    if prev <= |lf| {
      CoveredAgrees(app, h, s, f);
      assert NodeOk(h, s.id) && NodeOk(h, f.id);
      TermBackUpAbove(app, h, s.log, ls, f.log, lf, prev, Hint(s, f));
    }
  }

  // ---- Catching up ----

  /** An accepted append is the last round. */
  lemma LastRound<S>(app: App<S>, h: History, s: Node<S>, f: Node<S>)
    requires Pair(app, h, s, f) && !NeedsSnapshot(s, f.id) && Passes(s, f)
    ensures var (s', f') := Rounds(app, s, f, 1); CaughtUp(s', f')
  {
    AcceptedExchange(s, f);
    AcceptedCatchesUp(app, h, s, f);
    var (s', f') := Exchange(s, f);
    assert Rounds(app, s', f', 0) == (s', f');
  }

  /** A rejected append leads to the next round. */
  lemma RejectedRound<S>(app: App<S>, s: Node<S>, f: Node<S>, k: nat, k': nat)
    requires s.role == Leader && f.currentTerm == s.currentTerm && !NeedsSnapshot(s, f.id) && !Passes(s, f) && k' == k + 1
    ensures Rounds(app, s, f, k') == Rounds(app, Retried(s, f), FollowLeader(f, s.currentTerm, s.id), k)
  {
    RejectedExchange(s, f);
  }

  /** A bounce to the peer's snapshot boundary is followed by the last round. */
  lemma BounceRounds<S>(app: App<S>, h: History, s: Node<S>, f: Node<S>)
    requires Pair(app, h, s, f) && !NeedsSnapshot(s, f.id) && !Passes(s, f)
    requires f.log.snapIndex > AppendRequestOf(s, f.id).prevIndex
    ensures var (s', f') := Rounds(app, s, f, 2); CaughtUp(s', f')
  {
    RetriedPair(app, h, s, f);
    HintBounces(app, h, s, f);
    RejectedRound(app, s, f, 1, 2);
    LastRound(app, h, Retried(s, f), FollowLeader(f, s.currentTerm, s.id));
  }

  /** A peer that covers the leader's snapshot catches up by appends alone. */
  lemma {:induction false} CoveredCatchesUp<S>(app: App<S>, h: History, s: Node<S>, f: Node<S>) returns (k: nat)
    requires Pair(app, h, s, f) && Covers(s, f) && !NeedsSnapshot(s, f.id)
    ensures k <= ProbeIndex(s, f.id) + 1
    ensures var (s', f') := Rounds(app, s, f, k); CaughtUp(s', f')
    decreases ProbeIndex(s, f.id)
  {
    if Passes(s, f) {
      k := 1;
      LastRound(app, h, s, f);
    } else if f.log.snapIndex > AppendRequestOf(s, f.id).prevIndex {
      k := 2;
      BounceRounds(app, h, s, f);
    } else {
      var s', f' := Retried(s, f), FollowLeader(f, s.currentTerm, s.id);
      RetriedPair(app, h, s, f);
      HintLowers(app, h, s, f);
      HintStaysAbove(app, h, s, f);
      var j := CoveredCatchesUp(app, h, s', f');
      k := j + 1;
      RejectedRound(app, s, f, j, k);
    }
  }

  lemma CoveredBound<S>(app: App<S>, h: History, s: Node<S>, f: Node<S>) returns (k: nat)
    requires Pair(app, h, s, f) && Covers(s, f) && !NeedsSnapshot(s, f.id)
    ensures k <= s.log.LastIndex() + 2
    ensures var (s', f') := Rounds(app, s, f, k); CaughtUp(s', f')
  {
    ProbeBound(app, h, s, f);
    k := CoveredCatchesUp(app, h, s, f);
  }

  lemma SnapshotLeadsTo<S(!new)>(app: App<S>, h: History, s: Node<S>, f: Node<S>, s1: Node<S>, f1: Node<S>) returns (h': History)
    requires AppOk(app) && Pair(app, h, s, f) && NeedsSnapshot(s, f.id) && (s1, f1) == SnapExchange(app, s, f)
    ensures Pair(app, h', s1, f1) && Covers(s1, f1) && !NeedsSnapshot(s1, f1.id) && s1.log == s.log
  {
    h' := SnapshotRound(app, h, s, f);
    SnapshotEffect(app, s, f);
  }

  lemma SnapRounds<S>(app: App<S>, s: Node<S>, f: Node<S>, s1: Node<S>, f1: Node<S>, j: nat, k: nat)
    requires NeedsSnapshot(s, f.id) && (s1, f1) == SnapExchange(app, s, f) && k == j + 1
    ensures Rounds(app, s, f, k) == Rounds(app, s1, f1, j)
  {
  }

  /** A peer behind the leader's snapshot gets it, and then covers it. */
  lemma SnapshotCatchesUp<S(!new)>(app: App<S>, h: History, s: Node<S>, f: Node<S>, s1: Node<S>, f1: Node<S>) returns (k: nat)
    requires AppOk(app) && Pair(app, h, s, f) && NeedsSnapshot(s, f.id) && (s1, f1) == SnapExchange(app, s, f)
    ensures k <= s.log.LastIndex() + 3
    ensures var (s', f') := Rounds(app, s, f, k); CaughtUp(s', f')
  {
    var h' := SnapshotLeadsTo(app, h, s, f, s1, f1);
    var j := CoveredBound(app, h', s1, f1);
    k := j + 1;
    SnapRounds(app, s, f, s1, f1, j, k);
  }

  /** From any pair, the peer catches up within a bounded number of rounds. */
  lemma {:induction false} CatchesUp<S(!new)>(app: App<S>, h: History, s: Node<S>, f: Node<S>) returns (k: nat)
    requires AppOk(app) && Pair(app, h, s, f)
    ensures k <= ProbeIndex(s, f.id) + s.log.LastIndex() + 3
    ensures var (s', f') := Rounds(app, s, f, k); CaughtUp(s', f')
    decreases ProbeIndex(s, f.id)
  {
    if NeedsSnapshot(s, f.id) {
      var (s1, f1) := SnapExchange(app, s, f);
      k := SnapshotCatchesUp(app, h, s, f, s1, f1);
    } else if Passes(s, f) {
      k := 1;
      LastRound(app, h, s, f);
    } else if f.log.snapIndex > AppendRequestOf(s, f.id).prevIndex {
      k := 2;
      BounceRounds(app, h, s, f);
    } else {
      var s', f' := Retried(s, f), FollowLeader(f, s.currentTerm, s.id);
      RetriedPair(app, h, s, f);
      HintLowers(app, h, s, f);
      var j := CatchesUp(app, h, s', f');
      k := j + 1;
      RejectedRound(app, s, f, j, k);
    }
  }

  lemma ProbeBound<S>(app: App<S>, h: History, s: Node<S>, f: Node<S>)
    requires Pair(app, h, s, f)
    ensures ProbeIndex(s, f.id) <= s.log.LastIndex() + 1
  {
    assert PeerOk(h, s, f.id, |h.log[s.id]|);
    ViewReads(app, s.log, h.log[s.id]);
  }

  // ---- Passing the commit index on ----

  /** What a peer has committed lies within the log of the leader of its term. */
  lemma CommitWithinLeader<S>(app: App<S>, h: History, s: Node<S>, f: Node<S>)
    requires Pair(app, h, s, f)
    ensures f.commitIndex <= s.log.LastIndex()
  {
    assert LeaderOk(h, s.currentTerm);
    SettledInReign(h, f.currentTerm, h.log[f.id], f.commitIndex, s.currentTerm);
    ViewReads(app, s.log, h.log[s.id]);
  }

  /** The append to a peer that has caught up is an empty one at the leader's end, and passes. */
  lemma EmptyAppendPasses<S>(app: App<S>, h: History, s: Node<S>, f: Node<S>)
    requires Pair(app, h, s, f) && CaughtUp(s, f)
    ensures !NeedsSnapshot(s, f.id) && Passes(s, f)
    ensures var a := AppendRequestOf(s, f.id);
      a.prevIndex == s.log.LastIndex() && a.entries == [] && a.leaderCommit == s.commitIndex
  {
    CommitWithinLeader(app, h, s, f);
    assert s.log.TermAt(s.log.LastIndex()).Some? && f.log.TermAt(s.log.LastIndex()).Some?;
  }

  /** One more round trip with a peer that has caught up passes the leader's commit index on, and
      nothing else changes but what is committed. */
  lemma CommitSpreads<S>(app: App<S>, h: History, s: Node<S>, f: Node<S>)
    requires Pair(app, h, s, f) && CaughtUp(s, f)
    ensures var (s', f') := Round(app, s, f);
      && s.commitIndex <= f'.commitIndex && f'.log == f.log && CaughtUp(s', f')
  {
    EmptyAppendPasses(app, h, s, f);
    AcceptedExchange(s, f);
    AcceptedCatchesUp(app, h, s, f);
    ViewReads(app, s.log, h.log[s.id]);
  }

  /** In any state of any run, if a leader and a peer in its term exchange nothing but replication
      round trips, the peer comes to hold the leader's whole log, and the leader knows it, within a
      number of rounds bounded by twice the length of the log. */
  lemma PeersCatchUp<S(!new)>(app: App<S>, run: seq<State<S>>, i: nat, n: NodeId, p: NodeId) returns (k: nat)
    requires AppOk(app) && IsRun(app, run) && i < |run|
    requires n in run[i].nodes && p in run[i].nodes && p in run[i].nodes[n].peers
    requires run[i].nodes[n].role == Leader && run[i].nodes[p].currentTerm == run[i].nodes[n].currentTerm
    ensures k <= 2 * run[i].nodes[n].log.LastIndex() + 4
    ensures var (s', f') := Rounds(app, run[i].nodes[n], run[i].nodes[p], k); CaughtUp(s', f')
  {
    var hs := EveryRunAccounted(app, run);
    var s, f, h := run[i].nodes[n], run[i].nodes[p], hs[i];
    assert ClusterInv(app, run[i], h) && NodeInv(app, h, n, s) && NodeInv(app, h, p, f);
    ProbeBound(app, h, s, f);
    k := CatchesUp(app, h, s, f);
  }
}
