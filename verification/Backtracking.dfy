/** Replication to a quiet follower: what the hint of a rejected probe does to the next one, and what
    an accepted probe achieves. */
module Backtracking {
  import opened Entries
  import opened LogView
  import opened RaftNode
  import opened Consensus
  import opened Cluster
  import opened ClusterFrame
  import opened ClusterElection
  import opened ClusterReplication

  /** A leader and one of its peers in the leader's term, with nothing else going on. */
  ghost predicate Pair<S>(app: App<S>, h: History, s: Node<S>, f: Node<S>) {
    && Inv(h)
    && NodeInv(app, h, s.id, s) && s.role == Leader
    && NodeInv(app, h, f.id, f) && f.id in s.peers
    && f.currentTerm == s.currentTerm
  }

  /** The leader's next append to `f` passes the consistency check. */
  predicate Passes<S>(s: Node<S>, f: Node<S>) {
    Conflict(f.log, s.currentTerm, AppendRequestOf(s, f.id)).None?
  }

  /** One round trip of an append that the follower answers. */
  function Exchange<S>(s: Node<S>, f: Node<S>): (Node<S>, Node<S>) {
    var a := AppendRequestOf(s, f.id);
    var (f', r) := HandleAppendEntries(f, a);
    (OnAppendReply(s, f.id, a, r), f')
  }

  /** The hint of a rejection. */
  function Hint<S>(s: Node<S>, f: Node<S>): AppendReply
    requires !Passes(s, f)
  {
    Conflict(f.log, s.currentTerm, AppendRequestOf(s, f.id)).value
  }

  function Retried<S>(s: Node<S>, f: Node<S>): Node<S>
    requires !Passes(s, f)
  {
    s.(nextIndex := s.nextIndex[f.id := BackUp(s.log, Hint(s, f))])
  }

  lemma RejectedExchange<S>(s: Node<S>, f: Node<S>)
    requires s.role == Leader && f.currentTerm == s.currentTerm && !Passes(s, f)
    ensures Exchange(s, f) == (Retried(s, f), FollowLeader(f, s.currentTerm, s.id))
  {
  }

  /** What the leader's request carries, in terms of the whole logs. */
  lemma ProbeFacts<S>(app: App<S>, h: History, s: Node<S>, f: Node<S>)
    requires Pair(app, h, s, f) && !NeedsSnapshot(s, f.id)
    ensures var a := AppendRequestOf(s, f.id);
      var ls := h.log[s.id];
      && a.prevIndex + 1 == ProbeIndex(s, f.id) && s.log.snapIndex <= a.prevIndex <= |ls|
      && a.prevTerm == TermOf(ls, a.prevIndex) && a.entries == ls[a.prevIndex..]
      && ls == h.reigns[s.currentTerm].log && ls != []
  {
    assert LeaderOk(h, s.currentTerm) && ReignOk(h, s.currentTerm) && PeerOk(h, s, f.id, |h.log[s.id]|);
    ProbeReads(app, s, h.log[s.id], f.id);
  }

  /** Log matching excludes the hint that would move forward: if the follower's term at `prev`
      differs from the leader's, the leader's last entry of that term is below `prev`. */
  lemma ConflictTermBelow(h: History, ls: seq<Entry>, lf: seq<Entry>, prev: nat, last: nat)
    requires LogOk(h, ls) && LogOk(h, lf) && 0 < prev <= |ls| && prev <= |lf| && 0 < last <= |ls|
    requires lf[prev - 1].term != ls[prev - 1].term && ls[last - 1].term == lf[prev - 1].term
    ensures last < prev
  {
    assert EntryOk(h, ls, last - 1) && EntryOk(h, lf, prev - 1);
  }

  /** What a rejection above the peer's own snapshot says. */
  lemma HintSays<S>(app: App<S>, f: Node<S>, lf: seq<Entry>, s: Node<S>)
    requires ViewOk(app, f.log, lf) && !Passes(s, f) && f.log.snapIndex <= AppendRequestOf(s, f.id).prevIndex
    ensures var prev := AppendRequestOf(s, f.id).prevIndex;
      if prev > |lf| then Hint(s, f).conflictTerm == 0 && Hint(s, f).conflictIndex == |lf| + 1
      else && 0 < prev && Hint(s, f).conflictTerm == lf[prev - 1].term
           && Hint(s, f).conflictIndex == FirstIndexWithTerm(f.log, lf[prev - 1].term, 1)
  {
    ViewReads(app, f.log, lf);
  }

  /** Going by a conflicting term, the leader resumes below the rejected index. */
  lemma TermBackUpBelow<S>(app: App<S>, h: History, v: View, ls: seq<Entry>, fv: View, lf: seq<Entry>, prev: nat, r: AppendReply)
    requires ReignsOk(h) && LogOk(h, ls) && LogOk(h, lf) && ViewOk(app, v, ls) && ViewOk(app, fv, lf)
    requires 0 < prev <= |ls| && fv.snapIndex <= prev <= |lf| && lf[prev - 1].term != ls[prev - 1].term
    requires r.conflictTerm == lf[prev - 1].term && r.conflictIndex == FirstIndexWithTerm(fv, r.conflictTerm, 1)
    ensures 1 <= BackUp(v, r) <= prev
  {
    TermsOrdered(h, lf, prev - 1, prev - 1);
    ViewReads(app, fv, lf);
    assert fv.TermOrZero(prev) == r.conflictTerm;
    var last := LastIndexWithTerm(v, r.conflictTerm, v.LastIndex());
    if last > 0 {
      ViewReads(app, v, ls);
      assert v.TermAt(last) == Some(r.conflictTerm) && last >= v.snapIndex;
      ConflictTermBelow(h, ls, lf, prev, last);
    }
  }

  /** A rejection above the follower's snapshot strictly lowers the next index. */
  lemma HintLowers<S>(app: App<S>, h: History, s: Node<S>, f: Node<S>)
    requires Pair(app, h, s, f) && !NeedsSnapshot(s, f.id) && !Passes(s, f)
    requires f.log.snapIndex <= AppendRequestOf(s, f.id).prevIndex
    ensures 1 <= BackUp(s.log, Hint(s, f)) < ProbeIndex(s, f.id)
  {
    var prev := AppendRequestOf(s, f.id).prevIndex;
    var ls, lf := h.log[s.id], h.log[f.id];
    ProbeFacts(app, h, s, f);
    HintSays(app, f, lf, s);
    if prev <= |lf| {
      ConflictDiffers(app, f, lf, s, prev);
      assert NodeOk(h, s.id) && NodeOk(h, f.id);
      TermBackUpBelow(app, h, s.log, ls, f.log, lf, prev, Hint(s, f));
    }
  }

  /** A rejection by term is a real difference at the probed index. */
  lemma ConflictDiffers<S>(app: App<S>, f: Node<S>, lf: seq<Entry>, s: Node<S>, prev: nat)
    requires ViewOk(app, f.log, lf) && !Passes(s, f) && prev == AppendRequestOf(s, f.id).prevIndex
    requires f.log.snapIndex <= prev <= |lf| && 0 < prev
    ensures lf[prev - 1].term != AppendRequestOf(s, f.id).prevTerm
  {
    ViewReads(app, f.log, lf);
  }

  /** A probe at the follower's snapshot boundary passes if the leader has the snapshot's entries. */
  lemma BoundaryPasses(v: View, lf: seq<Entry>, ls: seq<Entry>, a: AppendArgs, t: nat)
    requires Shows(v, lf) && Agree(lf, ls, v.snapIndex)
    requires a.prevIndex == v.snapIndex && a.prevTerm == TermOf(ls, v.snapIndex)
    ensures Conflict(v, t, a).None?
  {
  }

  /** A leader probing at index `i` above its own boundary sends its term just below. */
  lemma ProbeAt<S>(app: App<S>, s: Node<S>, ls: seq<Entry>, p: NodeId, i: nat)
    requires ViewOk(app, s.log, ls) && s.log.snapIndex < i <= |ls| + 1 && Get(s.nextIndex, p) == i
    ensures !NeedsSnapshot(s, p)
    ensures var a := AppendRequestOf(s, p); a.prevIndex == i - 1 && a.prevTerm == TermOf(ls, i - 1)
  {
    ViewReads(app, s.log, ls);
  }

  /** A rejection below the follower's snapshot bounces the probe to just above the snapshot, where
      it is accepted: the follower's snapshot is committed, so the leader holds it. */
  lemma HintBounces<S>(app: App<S>, h: History, s: Node<S>, f: Node<S>)
    requires Pair(app, h, s, f) && !NeedsSnapshot(s, f.id) && !Passes(s, f)
    requires f.log.snapIndex > AppendRequestOf(s, f.id).prevIndex
    ensures BackUp(s.log, Hint(s, f)) == f.log.snapIndex + 1
    ensures !NeedsSnapshot(Retried(s, f), f.id) && Passes(Retried(s, f), f)
  {
    var ls, lf, si := h.log[s.id], h.log[f.id], f.log.snapIndex;
    var s' := Retried(s, f);
    assert s.log.snapIndex < si + 1 <= |ls| + 1 && Agree(lf, ls, si) by {
      ProbeFacts(app, h, s, f);
      SettledInReign(h, f.currentTerm, lf, f.commitIndex, s.currentTerm);
    }
    ProbeAt(app, s', ls, f.id, si + 1);
    BoundaryPasses(f.log, lf, ls, AppendRequestOf(s', f.id), s.currentTerm);
  }

  lemma RetriedPair<S>(app: App<S>, h: History, s: Node<S>, f: Node<S>)
    requires Pair(app, h, s, f) && !NeedsSnapshot(s, f.id) && !Passes(s, f)
    ensures Pair(app, h, Retried(s, f), FollowLeader(f, s.currentTerm, s.id))
  {
    AppendRequestSent(app, h, s.id, s, f.id);
    HintInRange(app, h, f.id, f, AppendRequestOf(s, f.id));
    BackedUpNode(app, h, s.id, s, f.id, Hint(s, f));
  }

  lemma AcceptedExchange<S>(s: Node<S>, f: Node<S>)
    requires s.role == Leader && f.currentTerm == s.currentTerm && Passes(s, f)
    ensures var a := AppendRequestOf(s, f.id);
      && Exchange(s, f).1 == TakeEntries(FollowLeader(f, s.currentTerm, s.id), a)
      && Exchange(s, f).0 == Acknowledge(s, f.id, a.LastNew())
  {
  }

  /** The follower's log after the append shows the leader's whole log. */
  lemma FollowerCatchesUp<S>(app: App<S>, h: History, s: Node<S>, f: Node<S>) returns (m: seq<Entry>)
    requires Pair(app, h, s, f) && !NeedsSnapshot(s, f.id) && Passes(s, f)
    ensures var a := AppendRequestOf(s, f.id);
      && a.LastNew() == |h.log[s.id]| && Agree(h.log[s.id], m, |h.log[s.id]|)
      && AppendMissing(f.log, a.prevIndex, a.entries, 0) == f.log.(entries := m[f.log.snapIndex..])
      && Shows(f.log.(entries := m[f.log.snapIndex..]), m)
  {
    var a := AppendRequestOf(s, f.id);
    var ls, lf := h.log[s.id], h.log[f.id];
    ProbeFacts(app, h, s, f);
    AppendRequestSent(app, h, s.id, s, f.id);
    assert NodeOk(h, f.id) && NodeOk(h, s.id);
    TakenEntries(h, f.log, lf, a);
    CheckedPrefix(h, f.log, lf, a, ls);
    assert ls[..|ls|] == ls;
    m := Merge(lf, ls);
  }

  /** The two views show the same terms and entries wherever both reach, up to the first's end. */
  ghost predicate Alike(v: View, w: View) {
    && v.LastIndex() <= w.LastIndex()
    && (forall x: nat | x <= v.LastIndex() && v.TermAt(x).Some? && w.TermAt(x).Some? :: v.TermAt(x) == w.TermAt(x))
    && (forall x: nat | x <= v.LastIndex() && v.At(x).Some? && w.At(x).Some? :: v.At(x) == w.At(x))
  }

  /** Two views of logs that agree are alike. */
  lemma ViewsAlike(v: View, log: seq<Entry>, w: View, m: seq<Entry>)
    requires Shows(v, log) && Shows(w, m) && Agree(log, m, |log|)
    ensures Alike(v, w)
  {
  }

  /** An accepted append brings the follower up to the leader: it then holds the leader's whole log,
      and the leader knows it. */
  lemma AcceptedCatchesUp<S>(app: App<S>, h: History, s: Node<S>, f: Node<S>)
    requires Pair(app, h, s, f) && !NeedsSnapshot(s, f.id) && Passes(s, f)
    ensures var (s', f') := Exchange(s, f);
      && Alike(s.log, f'.log)
      && Get(s'.matchIndex, f.id) >= s.log.LastIndex()
      && Get(s'.nextIndex, f.id) == s.log.LastIndex() + 1
  {
    AcceptedExchange(s, f);
    var m := FollowerCatchesUp(app, h, s, f);
    ViewReads(app, s.log, h.log[s.id]);
    ViewsAlike(s.log, h.log[s.id], f.log.(entries := m[f.log.snapIndex..]), m);
    AcknowledgedEnd(app, h, s, f.id);
  }

  /** Acknowledging the whole log leaves the next probe at its end. */
  lemma AcknowledgedEnd<S>(app: App<S>, h: History, s: Node<S>, p: NodeId)
    requires AcksOk(h) && LeadersOk(h) && NodeInv(app, h, s.id, s) && s.role == Leader && p in s.peers
    ensures var s' := Acknowledge(s, p, s.log.LastIndex());
      Get(s'.matchIndex, p) == s.log.LastIndex() && Get(s'.nextIndex, p) == s.log.LastIndex() + 1
  {
    assert PeerOk(h, s, p, |h.log[s.id]|) && LeaderOk(h, s.currentTerm);
    assert (p, s.currentTerm) in h.acks ==> AckOk(h, (p, s.currentTerm));
    ViewReads(app, s.log, h.log[s.id]);
  }
}
