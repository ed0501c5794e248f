/** What must happen, not only what must not: when a vote is granted, what a leader and a follower
    commit, and when a node compacts, in every state of every run. */
module Obligations {
  import opened Entries
  import opened LogView
  import opened RaftNode
  import opened Consensus
  import opened Cluster
  import opened ClusterFrame
  import opened ClusterElection
  import opened ClusterReplication
  import opened ClusterRecovery
  import opened Safety

  // ---- Votes ----

  /** Nothing on record keeps `n` from voting for `c` in term `t`. */
  ghost predicate FreeFor(h: History, n: NodeId, c: NodeId, t: nat) {
    (n, t) in h.votes ==> h.votes[(n, t)] == c
  }

  /** A vote is granted exactly when the candidate's term is not behind, the node has given no other
      vote in it, and the candidate's log is at least as up to date as the node's whole log. The reply
      carries the larger of the two terms. */
  lemma VoteGrantedIff<S>(app: App<S>, h: History, n: NodeId, s: Node<S>, a: VoteArgs)
    requires VotesOk(h) && NodeInv(app, h, n, s)
    ensures var r := HandleRequestVote(s, a).1;
      && (r.granted <==>
          s.currentTerm <= a.term && FreeFor(h, n, a.candidate, a.term) && UpToDate(a.lastIndex, a.lastTerm, h.log[n]))
      && r.term == Max(s.currentTerm, a.term)
  {
    ViewReads(app, s.log, h.log[n]);
    assert (n, a.term) in h.votes ==> VoteOk(h, (n, a.term));
  }

  /** The same in every state of every run, for the account of all votes ever given. */
  lemma VotesOverRuns<S(!new)>(app: App<S>, run: seq<State<S>>, i: nat, n: NodeId, a: VoteArgs) returns (hs: seq<History>)
    requires AppOk(app) && IsRun(app, run) && i < |run| && n in run[i].nodes
    ensures Accounts(app, run, hs) && n in hs[i].log
    ensures var s := run[i].nodes[n];
      var r := HandleRequestVote(s, a).1;
      && (r.granted <==>
          && s.currentTerm <= a.term && FreeFor(hs[i], n, a.candidate, a.term)
          && UpToDate(a.lastIndex, a.lastTerm, hs[i].log[n]))
      && r.term == Max(s.currentTerm, a.term)
  {
    hs := EveryRunAccounted(app, run);
    assert ClusterInv(app, run[i], hs[i]);
    assert NodeInv(app, hs[i], n, run[i].nodes[n]);
    VoteGrantedIff(app, hs[i], n, run[i].nodes[n], a);
  }

  // ---- Counting an election ----

  /** The candidate after the first `k` replies to its vote requests. */
  function AfterReplies<S>(s: Node<S>, replies: seq<(NodeId, VoteReply)>, k: nat): Node<S>
    requires k <= |replies|
  {
    if k == 0 then s
    else OnVoteReply(AfterReplies(s, replies, k - 1), replies[k - 1].0, s.currentTerm, replies[k - 1].1)
  }

  /** Reply `i` is its sender's first and grants the vote. */
  ghost predicate FirstGrant(replies: seq<(NodeId, VoteReply)>, i: nat) {
    && i < |replies| && replies[i].1.granted
    && forall j | 0 <= j < i :: replies[j].0 != replies[i].0
  }

  /** The peers whose first reply among the first `k` grants the vote. */
  ghost function Granters(peers: seq<NodeId>, replies: seq<(NodeId, VoteReply)>, k: nat): set<NodeId>
    requires k <= |replies|
  {
    set i: nat | i < k && FirstGrant(replies, i) && replies[i].0 in peers :: replies[i].0
  }

  /** The peers that have not replied yet. */
  ghost function Silent(peers: seq<NodeId>, replies: seq<(NodeId, VoteReply)>, k: nat): set<NodeId>
    requires k <= |replies|
  {
    set p | p in peers && forall j | 0 <= j < k :: replies[j].0 != p
  }

  /** The candidate's books, while it is one, and that it leads exactly on a majority. */
  ghost predicate Counts<S>(s0: Node<S>, s: Node<S>, replies: seq<(NodeId, VoteReply)>, k: nat)
    requires k <= |replies|
  {
    var g := Granters(s0.peers, replies, k);
    && s.currentTerm == s0.currentTerm && s.peers == s0.peers
    && (s.role == Leader <==> 2 * (1 + |g|) > |s0.peers| + 1)
    && (s.role != Leader ==> s.role == Candidate && s.votes == 1 + |g| && s.awaiting == Silent(s0.peers, replies, k))
  }

  lemma GrantersGrow(peers: seq<NodeId>, replies: seq<(NodeId, VoteReply)>, j: nat, k: nat)
    requires k == j + 1 <= |replies|
    ensures var g, g', p := Granters(peers, replies, j), Granters(peers, replies, k), replies[j].0;
      && (p in Silent(peers, replies, j) && replies[j].1.granted ==> p !in g && g' == g + {p})
      && (p !in Silent(peers, replies, j) || !replies[j].1.granted ==> g' == g)
      && Silent(peers, replies, k) == Silent(peers, replies, j) - {p}
  {
    var g, g', p := Granters(peers, replies, j), Granters(peers, replies, k), replies[j].0;
    if p in Silent(peers, replies, j) && replies[j].1.granted {
      assert FirstGrant(replies, j);
    }
    forall q | q in g ensures q in g' {
      var i: nat :| i < j && FirstGrant(replies, i) && replies[i].0 in peers && replies[i].0 == q;
      assert i < k && FirstGrant(replies, i);
    }
    forall q | q in g' && q != p ensures q in g {
      var i: nat :| i < k && FirstGrant(replies, i) && replies[i].0 in peers && replies[i].0 == q;
      assert i < j;
    }
  }

  /** A reply that comes while the candidate still counts. */
  lemma CountsOn<S>(s0: Node<S>, s: Node<S>, replies: seq<(NodeId, VoteReply)>, j: nat, k: nat)
    requires k == j + 1 <= |replies| && Counts(s0, s, replies, j) && s.role != Leader
    requires replies[j].1.term <= s0.currentTerm
    ensures Counts(s0, OnVoteReply(s, replies[j].0, s0.currentTerm, replies[j].1), replies, k)
  {
    GrantersGrow(s0.peers, replies, j, k);
  }

  /** A reply that comes after the election is won. */
  lemma CountsAfter<S>(s0: Node<S>, s: Node<S>, replies: seq<(NodeId, VoteReply)>, j: nat, k: nat)
    requires k == j + 1 <= |replies| && Counts(s0, s, replies, j) && s.role == Leader
    ensures Counts(s0, OnVoteReply(s, replies[j].0, s0.currentTerm, replies[j].1), replies, k)
  {
    GrantersGrow(s0.peers, replies, j, k);
    SubsetCardinality(Granters(s0.peers, replies, j), Granters(s0.peers, replies, k));
  }

  /** A candidate leads exactly when it and the peers whose first replies grant the vote are more than
      half of the cluster, however often and in whatever order replies arrive, as long as none of them
      shows a newer term. */
  lemma {:induction false} LeadsIffMajority<S>(s: Node<S>, replies: seq<(NodeId, VoteReply)>, k: nat)
    requires s.role != Leader && s.peers != [] && k <= |replies|
    requires forall i | 0 <= i < |replies| :: replies[i].1.term <= StartElection(s).currentTerm
    ensures Counts(StartElection(s), AfterReplies(StartElection(s), replies, k), replies, k)
  {
    var s0 := StartElection(s);
    if k == 0 {
      assert Granters(s0.peers, replies, 0) == {} && Silent(s0.peers, replies, 0) == PeerSet(s0.peers);
    } else {
      var j := k - 1;
      LeadsIffMajority(s, replies, j);
      var c := AfterReplies(s0, replies, j);
      if c.role == Leader {
        CountsAfter(s0, c, replies, j, k);
      } else {
        CountsOn(s0, c, replies, j, k);
      }
    }
  }

  /** A new leader's first append to each peer carries exactly the no-op of its term, on top of all
      that it held before. */
  lemma FirstAppend<S>(s: Node<S>, p: NodeId)
    requires p in s.peers
    ensures var a, last := AppendRequestOf(BecomeLeader(s), p), s.log.LastIndex();
      && !NeedsSnapshot(BecomeLeader(s), p) && BecomeLeader(s).leaderId == s.id
      && a.term == s.currentTerm && a.leader == s.id && a.leaderCommit == s.commitIndex
      && a.prevIndex == last && a.prevTerm == s.log.TermOrZero(last)
      && a.entries == [Entry(last + 1, s.currentTerm, KIND_NOOP, [])]
  {
    assert s.peers[..|s.peers|] == s.peers;
    SetAllSets(s.nextIndex, s.peers, s.log.LastIndex() + 1, |s.peers|, p);
  }

  // ---- What a node keeps in every run ----

  /** Entries applied since the last compaction stay below the threshold. */
  predicate WithinThreshold<S>(s: Node<S>) {
    s.threshold > 0 ==> s.lastApplied < s.log.snapIndex + s.threshold
  }

  /** The leader and the peers whose match index reaches `x`. */
  ghost function Holders<S>(s: Node<S>, x: nat): set<NodeId> {
    {s.id} + set p | p in s.peers && Get(s.matchIndex, p) >= x
  }

  /** The leader sees its own term's entry at `x` on more than half of the cluster. */
  ghost predicate OnMajority<S>(s: Node<S>, x: nat) {
    s.log.TermAt(x) == Some(s.currentTerm) && 2 * |Holders(s, x)| > |s.peers| + 1
  }

  /** A leader has peers and has committed every entry of its term that it sees on a majority. */
  ghost predicate CommitsAll<S>(s: Node<S>) {
    s.role == Leader ==> s.peers != [] && forall x: nat | OnMajority(s, x) :: x <= s.commitIndex
  }

  ghost predicate Kept<S>(s: Node<S>) {
    WithinThreshold(s) && s.awaiting <= PeerSet(s.peers) && CommitsAll(s)
  }

  /** What the cluster invariant says about one node by itself. */
  ghost predicate Sane<S>(s: Node<S>) {
    && s.log.snapIndex <= s.lastApplied <= s.commitIndex <= s.log.LastIndex()
    && Distinct(s.peers) && s.id !in s.peers
    && (s.role == Leader ==> forall p | p in s.peers :: Get(s.matchIndex, p) <= s.log.LastIndex())
  }

  lemma SaneNode<S>(app: App<S>, h: History, n: NodeId, s: Node<S>)
    requires AcksOk(h) && LeadersOk(h) && NodeInv(app, h, n, s)
    ensures Sane(s)
  {
    ViewReads(app, s.log, h.log[n]);
    assert s.id in s.peers ==> s.id in PeerSet(s.peers);
    if s.role == Leader {
      assert LeaderOk(h, s.currentTerm);
      forall p | p in s.peers ensures Get(s.matchIndex, p) <= s.log.LastIndex() {
        assert PeerOk(h, s, p, |h.log[n]|);
        assert (p, s.currentTerm) in h.acks ==> AckOk(h, (p, s.currentTerm));
      }
    }
  }

  // ---- The commit scan against the sets ----

  lemma {:induction false} ReachingComplete(peers: seq<NodeId>, m: map<NodeId, nat>, n: nat, k: nat, p: NodeId)
    requires k <= |peers| && p in peers[..k] && Get(m, p) >= n
    ensures p in Reaching(peers, m, n, k)
  {
    if p != peers[k - 1] {
      assert p in peers[..k - 1];
      ReachingComplete(peers, m, n, k - 1, p);
    }
  }

  lemma HoldersCounted<S>(s: Node<S>, x: nat)
    requires Distinct(s.peers) && s.id !in s.peers
    ensures |Holders(s, x)| == MatchCount(s.peers, s.matchIndex, x, |s.peers|)
  {
    var g := Reaching(s.peers, s.matchIndex, x, |s.peers|);
    var h := set p | p in s.peers && Get(s.matchIndex, p) >= x;
    assert s.peers[..|s.peers|] == s.peers;
    MatchCountIsSet(s.peers, s.matchIndex, x, |s.peers|);
    forall p | p in g ensures p in h {
      ReachingMembers(s.peers, s.matchIndex, x, |s.peers|, p);
    }
    forall p | p in h ensures p in g {
      ReachingComplete(s.peers, s.matchIndex, x, |s.peers|, p);
    }
    assert g == h && Holders(s, x) == {s.id} + h;
  }

  /** After the scan nothing that is on a majority is left uncommitted. */
  lemma ScanCommitsAll<S>(s: Node<S>)
    requires Distinct(s.peers) && s.id !in s.peers && s.peers != []
    ensures CommitsAll(AdvanceCommit(s))
  {
    var s' := AdvanceCommit(s);
    LargestIsLargest(s, s.log.LastIndex());
    forall x: nat | OnMajority(s', x) ensures x <= s'.commitIndex {
      assert Holders(s', x) == Holders(s, x);
      HoldersCounted(s, x);
      assert Committable(s, x);
    }
  }

  // ---- Every step ----

  /** A step that leaves log, applied index and, for a leader, its books alone. */
  ghost predicate SameBooks<S>(s: Node<S>, s': Node<S>) {
    && s'.log.snapIndex == s.log.snapIndex && s'.lastApplied == s.lastApplied && s'.threshold == s.threshold
    && s'.peers == s.peers && s'.awaiting <= s.awaiting
    && (s'.role == Leader ==>
        && s.role == Leader && s'.id == s.id && s'.log == s.log && s'.currentTerm == s.currentTerm
        && s'.matchIndex == s.matchIndex && s'.commitIndex == s.commitIndex)
  }

  lemma SameBooksKept<S>(s: Node<S>, s': Node<S>)
    requires Kept(s) && SameBooks(s, s')
    ensures Kept(s')
  {
    if s'.role == Leader {
      forall x: nat | OnMajority(s', x) ensures x <= s'.commitIndex {
        assert Holders(s', x) == Holders(s, x);
        assert OnMajority(s, x);
      }
    }
  }

  lemma {:induction false} AppendAllBoundary(v: View, es: seq<Entry>)
    ensures AppendAll(v, es).snapIndex == v.snapIndex
    decreases |es|
  {
    if es != [] {
      AppendAllBoundary(v.AppendEntry(es[0]), es[1..]);
    }
  }

  lemma {:induction false} AppendBoundary(v: View, prev: nat, es: seq<Entry>, i: nat)
    requires i <= |es|
    ensures AppendMissing(v, prev, es, i).snapIndex == v.snapIndex
    decreases |es| - i
  {
    if i < |es| {
      AppendBoundary(v, prev, es, i + 1);
      AppendAllBoundary(v.TruncateSuffix(prev + 1 + i), es[i..]);
    }
  }

  lemma RequestsKept<S>(s: Node<S>, va: VoteArgs)
    requires Kept(s)
    ensures Kept(HandleRequestVote(s, va).0)
  {
    SameBooksKept(s, HandleRequestVote(s, va).0);
  }

  lemma AppendsKept<S>(s: Node<S>, a: AppendArgs)
    requires Kept(s)
    ensures Kept(HandleAppendEntries(s, a).0)
  {
    AppendBoundary(s.log, a.prevIndex, a.entries, 0);
    SameBooksKept(s, HandleAppendEntries(s, a).0);
  }

  lemma SnapshotsKept<S>(app: App<S>, s: Node<S>, a: SnapArgs)
    requires Kept(s) && Sane(s)
    ensures Kept(HandleInstallSnapshot(app, s, a).0)
  {
    var s' := HandleInstallSnapshot(app, s, a).0;
    if s'.log == s.log {
      SameBooksKept(s, s');
    }
  }

  lemma ElectionKept<S>(s: Node<S>)
    requires Kept(s)
    ensures Kept(StartElection(s))
  {
  }

  /** A new leader sees nothing of its term on a majority: it has peers, and knows of none. */
  lemma NewLeaderKept<S>(s: Node<S>)
    requires WithinThreshold(s) && s.awaiting <= PeerSet(s.peers) && s.peers != []
    ensures Kept(BecomeLeader(s))
  {
    var s' := BecomeLeader(s);
    assert s.peers[..|s.peers|] == s.peers;
    forall p | p in s'.peers ensures Get(s'.matchIndex, p) == 0 {
      SetAllSets(s.matchIndex, s.peers, 0, |s.peers|, p);
    }
    forall x: nat | x > 0 ensures Holders(s', x) == {s.id} {
    }
  }

  lemma VoteReplyKept<S>(s: Node<S>, peer: NodeId, term: nat, r: VoteReply)
    requires Kept(s)
    ensures Kept(OnVoteReply(s, peer, term, r))
  {
    if !IgnoresVote(s, peer, term) && r.term <= s.currentTerm && r.granted && s.votes + 1 >= Majority(s.peers) {
      assert peer in PeerSet(s.peers);
      NewLeaderKept(CountReply(s, peer, true));
    } else {
      SameBooksKept(s, OnVoteReply(s, peer, term, r));
    }
  }

  /** A new entry is on nobody else yet. */
  lemma ProposeKept<S>(s: Node<S>, data: seq<Byte>)
    requires Kept(s) && Sane(s)
    ensures Kept(Propose(s, data))
  {
    var s' := Propose(s, data);
    if s.role == Leader {
      forall x: nat | x > s.log.LastIndex() ensures Holders(s', x) == {s.id} {
      }
      forall x: nat | x <= s.log.LastIndex() && OnMajority(s', x) ensures x <= s'.commitIndex {
        assert Holders(s', x) == Holders(s, x);
        assert OnMajority(s, x);
      }
    }
  }

  lemma AcknowledgeKept<S>(s: Node<S>, peer: NodeId, index: nat)
    requires Kept(s) && Sane(s) && s.role == Leader
    ensures Kept(Acknowledge(s, peer, index))
  {
    ScanCommitsAll(RaiseMatch(s, peer, index));
  }

  lemma AppendReplyKept<S>(s: Node<S>, peer: NodeId, a: AppendArgs, r: AppendReply)
    requires Kept(s) && Sane(s)
    ensures Kept(OnAppendReply(s, peer, a, r))
  {
    if s.role == Leader && s.currentTerm == a.term && r.term <= s.currentTerm && r.success {
      AcknowledgeKept(s, peer, a.LastNew());
    } else {
      SameBooksKept(s, OnAppendReply(s, peer, a, r));
    }
  }

  lemma SnapReplyKept<S>(s: Node<S>, peer: NodeId, a: SnapArgs, r: SnapReply)
    requires Kept(s) && Sane(s)
    ensures Kept(OnSnapReply(s, peer, a, r))
  {
    if s.role == Leader && s.currentTerm == a.term && r.term <= s.currentTerm {
      AcknowledgeKept(s, peer, a.lastIndex);
    } else {
      SameBooksKept(s, OnSnapReply(s, peer, a, r));
    }
  }

  /** One turn of the apply loop moves the boundary exactly when the distance from it to the applied
      entry reaches a threshold that is set, and then to that entry. */
  lemma CompactsIffDue<S>(app: App<S>, s: Node<S>)
    requires Sane(s)
    ensures ApplyNext(app, s).log.snapIndex
      == if s.lastApplied < s.commitIndex && 0 < s.threshold <= s.lastApplied + 1 - s.log.snapIndex then s.lastApplied + 1
         else s.log.snapIndex
  {
  }

  /** Applying changes nothing above the commit index and nothing in the leader's books. */
  lemma ApplyBooks<S>(app: App<S>, s: Node<S>, s': Node<S>)
    requires Sane(s) && s' == ApplyNext(app, s)
    ensures s' == s.(log := s'.log, lastApplied := s'.lastApplied, machine := s'.machine)
    ensures s.lastApplied <= s'.lastApplied <= s.lastApplied + 1
    ensures forall x: nat | x > s.commitIndex :: s'.log.TermAt(x) == s.log.TermAt(x)
  {
    if s.lastApplied < s.commitIndex {
      var idx := s.lastApplied + 1;
      CompactionKeeps(s.log, idx, s.log.TermOrZero(idx), app.save(s'.machine));
    }
  }

  lemma CompactionKeeps(v: View, idx: nat, term: nat, data: seq<Byte>)
    ensures forall x: nat | x > idx && x > v.snapIndex :: v.Snapshot(idx, term, data).TermAt(x) == v.TermAt(x)
  {
  }

  lemma ApplyKept<S>(app: App<S>, s: Node<S>, s': Node<S>)
    requires Kept(s) && Sane(s) && s' == ApplyNext(app, s)
    ensures Kept(s')
  {
    CompactsIffDue(app, s);
    ApplyBooks(app, s, s');
    BooksAboveCommit(s, s');
  }

  lemma BooksAboveCommit<S>(s: Node<S>, s': Node<S>)
    requires CommitsAll(s) && s' == s.(log := s'.log, lastApplied := s'.lastApplied, machine := s'.machine)
    requires forall x: nat | x > s.commitIndex :: s'.log.TermAt(x) == s.log.TermAt(x)
    ensures CommitsAll(s')
  {
    forall x: nat | x > s.commitIndex && OnMajority(s', x) ensures OnMajority(s, x) {
      assert Holders(s', x) == Holders(s, x);
    }
  }

  lemma HandlersKept<S>(app: App<S>, c: State<S>, step: Step, n: NodeId)
    requires Enabled(c, step) && n in c.nodes && Kept(c.nodes[n]) && Sane(c.nodes[n])
    requires step.TakeVoteRequest? || step.TakeAppendRequest? || step.TakeSnapRequest?
    ensures n in Do(app, c, step).nodes && Kept(Do(app, c, step).nodes[n])
  {
    var s := c.nodes[n];
    match step {
      case TakeVoteRequest(m) => RequestsKept(s, m.va);
      case TakeAppendRequest(m) => AppendsKept(s, m.aa);
      case TakeSnapRequest(m) => SnapshotsKept(app, s, m.sa);
    }
  }

  lemma RepliesKept<S>(app: App<S>, c: State<S>, step: Step, n: NodeId)
    requires Enabled(c, step) && n in c.nodes && Kept(c.nodes[n]) && Sane(c.nodes[n])
    requires step.TakeVoteResponse? || step.TakeAppendResponse? || step.TakeSnapResponse?
    ensures n in Do(app, c, step).nodes && Kept(Do(app, c, step).nodes[n])
  {
    var s := c.nodes[n];
    match step {
      case TakeVoteResponse(m) => VoteReplyKept(s, m.from, m.va.term, m.vr);
      case TakeAppendResponse(m) => AppendReplyKept(s, m.from, m.aa, m.ar);
      case TakeSnapResponse(m) => SnapReplyKept(s, m.from, m.sa, m.sr);
    }
  }

  lemma CrashesKept<S>(app: App<S>, c: State<S>, step: Step, n: NodeId)
    requires Enabled(c, step) && n in c.nodes && Kept(c.nodes[n])
    requires step.Crash? || step.CrashOnNewTerm? || step.CrashOnAppend? || step.CrashOnCut?
    ensures n in Do(app, c, step).nodes && Kept(Do(app, c, step).nodes[n])
  {
    if Restarts(step, n) {
      var s' := Do(app, c, step).nodes[n];
      assert s'.awaiting == {} && s'.role == Follower && s'.lastApplied == s'.log.snapIndex;
    }
  }

  /** Every step of the cluster keeps what every node keeps. */
  lemma StepKept<S(!new)>(app: App<S>, c: State<S>, step: Step, n: NodeId)
    requires Enabled(c, step) && n in c.nodes && Kept(c.nodes[n]) && Sane(c.nodes[n])
    ensures n in Do(app, c, step).nodes && Kept(Do(app, c, step).nodes[n])
  {
    var s := c.nodes[n];
    match step {
      case Timeout(_) => ElectionKept(s);
      case Submit(_, data) => ProposeKept(s, data);
      case Replicate(_, _) =>
      case Apply(_) => ApplyKept(app, s, ApplyNext(app, s));
      case TakeVoteRequest(_) => HandlersKept(app, c, step, n);
      case TakeAppendRequest(_) => HandlersKept(app, c, step, n);
      case TakeSnapRequest(_) => HandlersKept(app, c, step, n);
      case TakeVoteResponse(_) => RepliesKept(app, c, step, n);
      case TakeAppendResponse(_) => RepliesKept(app, c, step, n);
      case TakeSnapResponse(_) => RepliesKept(app, c, step, n);
      case Crash(_) => CrashesKept(app, c, step, n);
      case CrashOnNewTerm(_, _) => CrashesKept(app, c, step, n);
      case CrashOnAppend(_, _) => CrashesKept(app, c, step, n);
      case CrashOnCut(_) => CrashesKept(app, c, step, n);
    }
  }

  // ---- Every run ----

  ghost predicate AllKept<S>(c: State<S>) {
    forall n {:trigger c.nodes[n]} | n in c.nodes :: Kept(c.nodes[n])
  }

  lemma NextKept<S(!new)>(app: App<S>, c: State<S>, c': State<S>, h: History)
    requires ClusterInv(app, c, h) && Next(app, c, c') && AllKept(c)
    ensures AllKept(c')
  {
    var step :| Enabled(c, step) && c' == Do(app, c, step);
    forall n | n in c'.nodes ensures Kept(c'.nodes[n]) {
      assert n in c.nodes;
      assert NodeInv(app, h, n, c.nodes[n]);
      SaneNode(app, h, n, c.nodes[n]);
      StepKept(app, c, step, n);
    }
  }

  lemma {:induction false} RunKept<S(!new)>(app: App<S>, run: seq<State<S>>, hs: seq<History>, i: nat)
    requires AppOk(app) && IsRun(app, run) && Accounts(app, run, hs) && i < |run|
    ensures AllKept(run[i])
  {
    if i == 0 {
      forall n | n in run[0].nodes ensures Kept(run[0].nodes[n]) {
        assert run[0].nodes[n] == Boot(app, n, run[0].nodes[n].peers, run[0].nodes[n].threshold);
      }
    } else {
      var j := i - 1;
      RunKept(app, run, hs, j);
      assert StepsTo(app, run, i) && ClusterInv(app, run[j], hs[j]);
      NextKept(app, run[j], run[i], hs[j]);
    }
  }

  lemma NodeOfRun<S(!new)>(app: App<S>, run: seq<State<S>>, i: nat, n: NodeId)
    requires AppOk(app) && IsRun(app, run) && i < |run| && n in run[i].nodes
    ensures Kept(run[i].nodes[n]) && Sane(run[i].nodes[n]) && run[i].nodes[n].id == n
    ensures PeerSet(run[i].nodes[n].peers) == run[i].nodes.Keys - {n} && |run[i].nodes| == |run[i].nodes[n].peers| + 1
  {
    var hs := EveryRunAccounted(app, run);
    RunKept(app, run, hs, i);
    assert ClusterInv(app, run[i], hs[i]);
    var s := run[i].nodes[n];
    assert NodeInv(app, hs[i], n, s);
    SaneNode(app, hs[i], n, s);
    DistinctCount(s.peers);
    assert run[i].nodes.Keys == PeerSet(s.peers) + {n};
  }

  /** In every state of every run, a leader has committed every index that holds an entry of its own
      term and that it and the peers with a match index at least that high, together more than half of
      the cluster, hold. */
  lemma LeadersCommitAll<S(!new)>(app: App<S>, run: seq<State<S>>, i: nat, n: NodeId, x: nat)
    requires AppOk(app) && IsRun(app, run) && i < |run| && n in run[i].nodes && run[i].nodes[n].role == Leader
    requires run[i].nodes[n].log.TermAt(x) == Some(run[i].nodes[n].currentTerm)
    requires 2 * |{n} + set p | p in run[i].nodes[n].peers && Get(run[i].nodes[n].matchIndex, p) >= x| > |run[i].nodes|
    ensures x <= run[i].nodes[n].commitIndex
  {
    NodeOfRun(app, run, i, n);
    assert OnMajority(run[i].nodes[n], x);
  }

  /** In every state of every run, a node has applied fewer entries since its snapshot than its
      threshold allows. */
  lemma CompactionKeepsUp<S(!new)>(app: App<S>, run: seq<State<S>>, i: nat, n: NodeId)
    requires AppOk(app) && IsRun(app, run) && i < |run| && n in run[i].nodes && run[i].nodes[n].threshold > 0
    ensures run[i].nodes[n].lastApplied - run[i].nodes[n].log.snapIndex < run[i].nodes[n].threshold
  {
    NodeOfRun(app, run, i, n);
  }

  /** In every run, an apply step moves the snapshot boundary exactly when the distance from it to the
      newly applied entry reaches a threshold that is set, and then to that entry. */
  lemma ApplyCompactsIffDue<S(!new)>(app: App<S>, run: seq<State<S>>, i: nat, n: NodeId)
    requires AppOk(app) && IsRun(app, run) && i < |run| && n in run[i].nodes
    ensures var s, s' := run[i].nodes[n], Do(app, run[i], Apply(n)).nodes[n];
      && (s'.log.snapIndex != s.log.snapIndex <==>
          s.lastApplied < s.commitIndex && s.threshold > 0 && s.lastApplied + 1 - s.log.snapIndex >= s.threshold)
      && (s'.log.snapIndex != s.log.snapIndex ==> s'.log.snapIndex == s'.lastApplied == s.lastApplied + 1)
  {
    NodeOfRun(app, run, i, n);
    CompactsIffDue(app, run[i].nodes[n]);
    ApplyBooks(app, run[i].nodes[n], ApplyNext(app, run[i].nodes[n]));
  }

  /** In every run, an accepted append commits, on the follower, everything that the leader had
      committed and the append vouches for, and nothing else; a rejected one commits nothing. */
  lemma AppendsCommit<S(!new)>(app: App<S>, run: seq<State<S>>, i: nat, m: Message)
    requires AppOk(app) && IsRun(app, run) && i < |run| && Enabled(run[i], TakeAppendRequest(m))
    ensures var s, s' := run[i].nodes[m.to], Do(app, run[i], TakeAppendRequest(m)).nodes[m.to];
      var carried := m.aa.prevIndex + |m.aa.entries|;
      if HandleAppendEntries(s, m.aa).1.success then
        && (m.aa.leaderCommit <= s'.commitIndex || carried <= s'.commitIndex)
        && (s'.commitIndex != s.commitIndex ==> s'.commitIndex <= m.aa.leaderCommit && s'.commitIndex <= carried)
        && s.commitIndex <= s'.commitIndex
      else s'.commitIndex == s.commitIndex
  {
  }

  // ---- The leader's books ----

  /** Every match index is at least what it was, for a leader that leads on in the same term. */
  ghost predicate BooksOnward<S>(s: Node<S>, s': Node<S>) {
    s.role == Leader && s'.role == Leader && s'.currentTerm == s.currentTerm ==>
      forall p :: Get(s.matchIndex, p) <= Get(s'.matchIndex, p)
  }

  /** In any run, no step lowers a match index of a leader that leads on: late and repeated replies do
      not undo what is known. */
  lemma MatchNeverFalls<S(!new)>(app: App<S>, run: seq<State<S>>, i: nat, step: Step, n: NodeId)
    requires AppOk(app) && IsRun(app, run) && i < |run| && Enabled(run[i], step) && n in run[i].nodes
    ensures n in Do(app, run[i], step).nodes && BooksOnward(run[i].nodes[n], Do(app, run[i], step).nodes[n])
  {
    NodeOfRun(app, run, i, n);
    if step == Apply(n) {
      ApplyBooks(app, run[i].nodes[n], ApplyNext(app, run[i].nodes[n]));
    }
  }

  /** In any run, a current success raises the peer's match index to all that the append carried, and
      the next probe goes right above the match index. */
  lemma SuccessRaisesMatch<S(!new)>(app: App<S>, run: seq<State<S>>, i: nat, m: Message)
    requires AppOk(app) && IsRun(app, run) && i < |run| && Enabled(run[i], TakeAppendResponse(m)) && m.ar.success
    requires Leads(run[i], m.aa.leader, m.aa.term) && m.ar.term <= m.aa.term
    ensures var s' := Do(app, run[i], TakeAppendResponse(m)).nodes[m.aa.leader];
      && m.aa.prevIndex + |m.aa.entries| <= Get(s'.matchIndex, m.from)
      && Get(s'.nextIndex, m.from) == Get(s'.matchIndex, m.from) + 1
      && CommitsAll(s')
  {
    var n := m.aa.leader;
    NodeOfRun(app, run, i, n);
    AppendReplyKept(run[i].nodes[n], m.from, m.aa, m.ar);
  }

  // ---- Newer terms ----

  /** The message is still of interest to `s`: a request, or a reply to what `s` is doing. */
  predicate Concerns<S>(s: Node<S>, m: Message) {
    match m
    case VoteResponse(from, a, _) => s.role == Candidate && s.currentTerm == a.term && from in s.awaiting
    case AppendResponse(_, a, _) => s.role == Leader && s.currentTerm == a.term
    case SnapResponse(_, a, _) => s.role == Leader && s.currentTerm == a.term
    case _ => true
  }

  /** The step in which a node takes the message up, and the node. */
  function Taking(m: Message): (Step, NodeId) {
    match m
    case VoteRequest(to, _) => (TakeVoteRequest(m), to)
    case VoteResponse(_, a, _) => (TakeVoteResponse(m), a.candidate)
    case AppendRequest(to, _) => (TakeAppendRequest(m), to)
    case AppendResponse(_, a, _) => (TakeAppendResponse(m), a.leader)
    case SnapRequest(to, _) => (TakeSnapRequest(m), to)
    case SnapResponse(_, a, _) => (TakeSnapResponse(m), a.leader)
  }

  /** Whatever message of a newer term a node takes up, it is then a follower in that term, having
      voted for nobody unless the message asked for its vote. */
  lemma NewerTermAdopted<S>(app: App<S>, c: State<S>, m: Message)
    requires Enabled(c, Taking(m).0) && TermOfMessage(m) > c.nodes[Taking(m).1].currentTerm
    requires Concerns(c.nodes[Taking(m).1], m)
    ensures var s' := Do(app, c, Taking(m).0).nodes[Taking(m).1];
      && s'.currentTerm == TermOfMessage(m) && s'.role == Follower
      && (s'.votedFor == 0 || (m.VoteRequest? && s'.votedFor == m.va.candidate))
  {
  }

  /** A node that a leader of its own or a newer term writes to follows that leader. */
  lemma LeaderFollowed<S>(app: App<S>, c: State<S>, m: Message)
    requires (m.AppendRequest? || m.SnapRequest?) && Enabled(c, Taking(m).0)
    requires TermOfMessage(m) >= c.nodes[m.to].currentTerm
    ensures var s' := Do(app, c, Taking(m).0).nodes[m.to];
      && s'.currentTerm == TermOfMessage(m) && s'.role == Follower
      && s'.leaderId == if m.AppendRequest? then m.aa.leader else m.sa.leader
  {
  }
}
