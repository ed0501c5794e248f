/** The replication steps: appends, snapshots and their replies, against the consensus core. */
module ClusterReplication {
  import opened Entries
  import opened LogView
  import opened RaftNode
  import opened Consensus
  import opened ConsensusSteps
  import opened Cluster
  import opened ClusterFrame
  import opened ClusterElection

  // ---- The follower's append is a merge with the leader's prefix ----

  lemma {:induction false} AppendAllContiguous(v: View, es: seq<Entry>)
    requires forall j | 0 <= j < |es| :: es[j].index == v.LastIndex() + 1 + j
    ensures AppendAll(v, es) == v.(entries := v.entries + es)
    decreases |es|
  {
    if es == [] {
      assert v.entries + es == v.entries;
    } else {
      var v1, rest := v.AppendEntry(es[0]), es[1..];
      forall j | 0 <= j < |rest| ensures rest[j].index == v1.LastIndex() + 1 + j {
        assert rest[j] == es[j + 1];
      }
      AppendAllContiguous(v1, rest);
      assert v.entries + es == v1.entries + rest;
    }
  }

  /** The stretch of a leader's log that an append request carries. */
  ghost predicate Carries(leader: seq<Entry>, prev: nat, es: seq<Entry>) {
    prev + |es| <= |leader| && es == leader[prev..prev + |es|]
  }

  /** `v` shows `log` from its boundary on. */
  ghost predicate Shows(v: View, log: seq<Entry>) {
    v.snapIndex <= |log| && v.entries == log[v.snapIndex..] && v.snapTerm == TermOf(log, v.snapIndex)
  }

  /** Cutting at position `i`, where the logs stop agreeing, and appending the leader's rest gives
      the leader's prefix. */
  lemma CutAndAppend(h: History, v: View, log: seq<Entry>, leader: seq<Entry>, prev: nat, es: seq<Entry>, i: nat)
    requires LogOk(h, leader) && Shows(v, log) && Carries(leader, prev, es)
    requires v.snapIndex <= prev && i < |es| && Agree(log, leader, prev + i)
    ensures AppendAll(v.TruncateSuffix(prev + 1 + i), es[i..]) == v.(entries := leader[v.snapIndex..prev + |es|])
  {
    var v1 := v.TruncateSuffix(prev + 1 + i);
    assert v1.entries == leader[v.snapIndex..prev + i];
    forall j | 0 <= j < |es[i..]| ensures es[i..][j].index == v1.LastIndex() + 1 + j {
      assert es[i..][j] == leader[prev + i + j];
      assert EntryOk(h, leader, prev + i + j);
    }
    AppendAllContiguous(v1, es[i..]);
    assert leader[v.snapIndex..prev + |es|] == leader[v.snapIndex..prev + i] + es[i..];
  }

  /** From the first position where the logs differ on, the append gives the leader's prefix. */
  lemma ConflictIsMerge(h: History, v: View, log: seq<Entry>, leader: seq<Entry>, prev: nat, es: seq<Entry>, i: nat, k: nat)
    requires LogOk(h, leader) && Shows(v, log) && Carries(leader, prev, es) && k == prev + |es|
    requires v.snapIndex <= prev && i < |es| && Agree(log, leader, prev + i)
    requires prev + i >= |log| || log[prev + i] != leader[prev + i]
    ensures Merge(log, leader[..k]) == leader[..k]
    ensures AppendAll(v.TruncateSuffix(prev + 1 + i), es[i..]) == v.(entries := leader[..k][v.snapIndex..])
  {
    CutAndAppend(h, v, log, leader, prev, es, i);
    assert !(leader[..k] <= log) by {
      assert leader[..k][prev + i] == leader[prev + i];
    }
    assert leader[..k][v.snapIndex..] == leader[v.snapIndex..k];
  }

  /** The append loop refines the simple merge. */
  lemma {:induction false} AppendIsMerge(h: History, v: View, log: seq<Entry>, leader: seq<Entry>, prev: nat, es: seq<Entry>,
                                         i: nat, at: nat, p: seq<Entry>)
    requires LogOk(h, log) && LogOk(h, leader) && Shows(v, log) && Carries(leader, prev, es)
    requires v.snapIndex <= prev && i <= |es| && at == prev + i && p == leader[..prev + |es|] && Agree(log, leader, at)
    ensures v.snapIndex <= |Merge(log, p)|
    ensures AppendMissing(v, prev, es, i) == v.(entries := Merge(log, p)[v.snapIndex..])
    decreases |es| - i
  {
    if i == |es| {
      assert p <= log;
    } else if at < |log| && log[at].term == leader[at].term {
      LogMatching(h, log, leader, at);
      AppendIsMerge(h, v, log, leader, prev, es, i + 1, at + 1, p);
    } else {
      ConflictIsMerge(h, v, log, leader, prev, es, i, |p|);
    }
  }

  /** Passing the consistency check means agreeing with the leader up to the probed index. */
  lemma CheckedPrefix(h: History, v: View, log: seq<Entry>, a: AppendArgs, leader: seq<Entry>)
    requires LogOk(h, log) && LogOk(h, leader) && Shows(v, log)
    requires a.prevIndex <= |leader| && a.prevTerm == TermOf(leader, a.prevIndex)
    requires Conflict(v, a.term, a).None?
    ensures v.snapIndex <= a.prevIndex && Agree(log, leader, a.prevIndex)
  {
    if a.prevIndex > 0 {
      assert v.TermOrZero(a.prevIndex) == TermOf(log, a.prevIndex);
      LogMatching(h, log, leader, a.prevIndex - 1);
    }
  }

  // ---- Accepting at the core ----

  lemma AcceptActs(h: History, n: NodeId, t: nat, m: nat)
    requires Shape(h) && ReignsSafe(h) && MayAccept(h, n, t, m)
    ensures ActsOnly(h, Accept(h, n, t, m), n)
  {
    AcceptExtends(h, n, t, m);
    forall k: nat | Settled(h, h.term[n], h.log[n], k)
      ensures Agree(h.log[n], Accept(h, n, t, m).log[n], k)
    {
      CommittedSurvives(h, n, t, m, k);
    }
  }

  /** What a node has committed is never cut by accepting from a current leader. */
  lemma CommittedSurvives(h: History, n: NodeId, t: nat, m: nat, commit: nat)
    requires ReignsSafe(h) && MayAccept(h, n, t, m) && commit <= |h.log[n]|
    requires Settled(h, h.term[n], h.log[n], commit)
    ensures Agree(h.log[n], Merge(h.log[n], h.reigns[t].log[..m]), commit)
  {
    var log, leader := h.log[n], h.reigns[t].log;
    SettledInReign(h, h.term[n], log, commit, t);
    MergeHolds(log, log, leader, m, commit);
  }

  /** The commit index a follower moves to is settled. */
  lemma FollowerSettled(h: History, n: NodeId, t: nat, m: nat, commit: nat, leaderCommit: nat)
    requires Shape(h) && ReignsSafe(h) && MayAccept(h, n, t, m) && commit <= |h.log[n]|
    requires Settled(h, h.term[n], h.log[n], commit)
    requires leaderCommit <= |h.reigns[t].log| && Settled(h, t, h.reigns[t].log, leaderCommit)
    ensures var log' := Accept(h, n, t, m).log[n];
      var c := Max(commit, Min(leaderCommit, m));
      c <= |log'| && Settled(Accept(h, n, t, m), t, log', c)
  {
    var h' := Accept(h, n, t, m);
    var log, leader, log' := h.log[n], h.reigns[t].log, h'.log[n];
    var c := Max(commit, Min(leaderCommit, m));
    AcceptExtends(h, n, t, m);
    CommittedSurvives(h, n, t, m, commit);
    if c == commit {
      SettledStable(h, h', h.term[n], t, log, commit);
      SettledAgree(h', t, log, commit, log', c);
    } else {
      SettledStable(h, h', t, t, leader, leaderCommit);
      assert Agree(leader, log', m);
      SettledAgree(h', t, leader, leaderCommit, log', c);
    }
  }

  // ---- An append request arrives ----

  /** The view after an accepted append shows the merged log. */
  lemma TakenEntries(h: History, v: View, log: seq<Entry>, a: AppendArgs)
    requires ReignsOk(h) && LogOk(h, log) && Shows(v, log) && AppendRequestOk(h, a) && Conflict(v, a.term, a).None?
    ensures var m := Merge(log, h.reigns[a.term].log[..a.LastNew()]);
      v.snapIndex <= |m| && AppendMissing(v, a.prevIndex, a.entries, 0) == v.(entries := m[v.snapIndex..])
  {
    assert ReignOk(h, a.term);
    CheckedPrefix(h, v, log, a, h.reigns[a.term].log);
    AppendIsMerge(h, v, log, h.reigns[a.term].log, a.prevIndex, a.entries, 0, a.prevIndex, h.reigns[a.term].log[..a.LastNew()]);
  }

  lemma AcceptProgress<S>(app: App<S>, h: History, n: NodeId, s: Node<S>, a: AppendArgs)
    requires NodesOk(h) && ReignsOk(h) && ReignsSafe(h) && n in h.members
    requires ProgressOk(app, h, n, s) && h.term[n] == s.currentTerm && AppendRequestOk(h, a)
    requires a.term == s.currentTerm && Conflict(s.log, a.term, a).None?
    ensures MayAccept(h, n, a.term, a.LastNew())
    ensures ProgressOk(app, Accept(h, n, a.term, a.LastNew()), n, TakeEntries(s, a))
  {
    var k := a.LastNew();
    assert NodeOk(h, n);
    TakenEntries(h, s.log, h.log[n], a);
    CommittedSurvives(h, n, a.term, k, s.commitIndex);
    FollowerSettled(h, n, a.term, k, s.commitIndex, a.leaderCommit);
    ProgressMoved(app, h, Accept(h, n, a.term, k), n, s, TakeEntries(s, a));
  }

  lemma AcceptedNode<S>(app: App<S>, h: History, n: NodeId, s: Node<S>, a: AppendArgs) returns (h': History)
    requires Inv(h) && NodeInv(app, h, n, s) && s.role == Follower && AppendRequestOk(h, a)
    requires a.term == s.currentTerm && Conflict(s.log, a.term, a).None?
    ensures Inv(h') && ActsOnly(h, h', n) && NodeInv(app, h', n, TakeEntries(s, a))
    ensures a.LastNew() <= Acked(h', n, a.term)
  {
    var k := a.LastNew();
    h' := Accept(h, n, a.term, k);
    AcceptProgress(app, h, n, s, a);
    AcceptKeepsInv(h, n, a.term, k);
    AcceptActs(h, n, a.term, k);
  }

  /** A rejection's hint points into the leader's log. */
  lemma HintInRange<S>(app: App<S>, h: History, n: NodeId, s: Node<S>, a: AppendArgs)
    requires ReignsSafe(h) && ProgressOk(app, h, n, s) && AppendRequestOk(h, a) && s.currentTerm == a.term
    requires Conflict(s.log, a.term, a).Some?
    ensures Conflict(s.log, a.term, a).value.conflictIndex <= |h.reigns[a.term].log| + 1
    ensures !Conflict(s.log, a.term, a).value.success
  {
    var log := h.log[n];
    SettledInReign(h, s.currentTerm, log, s.commitIndex, a.term);
    if s.log.snapIndex <= a.prevIndex <= s.log.LastIndex() {
      var ours := s.log.TermOrZero(a.prevIndex);
      assert FirstIndexWithTerm(s.log, ours, 1) <= a.prevIndex;
    }
  }

  /** The term rules leave a follower of the request's term. */
  lemma Follow<S>(app: App<S>, h: History, n: NodeId, s: Node<S>, t: nat, leader: NodeId) returns (h': History)
    requires Inv(h) && NodeInv(app, h, n, s) && t >= s.currentTerm
    ensures Inv(h') && ActsOnly(h, h', n) && NodeInv(app, h', n, FollowLeader(s, t, leader))
  {
    h' := StepDown(app, h, n, s, t);
  }

  /** The handler's work once the term rules have run. */
  lemma FollowerAppends<S>(app: App<S>, h: History, n: NodeId, s: Node<S>, a: AppendArgs) returns (h': History)
    requires Inv(h) && NodeInv(app, h, n, s) && s.role == Follower && AppendRequestOk(h, a) && a.term == s.currentTerm
    ensures Inv(h') && ActsOnly(h, h', n)
    ensures NodeInv(app, h', n, AnswerAppend(s, a).0) && AppendResponseOk(h', n, a, AnswerAppend(s, a).1)
  {
    if Conflict(s.log, a.term, a).Some? {
      h' := h;
      NothingHappens(h, n);
      HintInRange(app, h, n, s, a);
    } else {
      h' := AcceptedNode(app, h, n, s, a);
      assert a.term in h'.reigns;
    }
  }

  lemma AppendRequestNode<S>(app: App<S>, h: History, n: NodeId, s: Node<S>, a: AppendArgs) returns (h': History)
    requires Inv(h) && NodeInv(app, h, n, s) && AppendRequestOk(h, a)
    ensures Inv(h') && ActsOnly(h, h', n) && NodeInv(app, h', n, HandleAppendEntries(s, a).0)
    ensures AppendResponseOk(h', n, a, HandleAppendEntries(s, a).1)
  {
    if a.term < s.currentTerm {
      h' := h;
      NothingHappens(h, n);
    } else {
      var h1 := Follow(app, h, n, s, a.term, a.leader);
      AppendRequestKept(h, h1, a);
      h' := FollowerAppends(app, h1, n, FollowLeader(s, a.term, a.leader), a);
      ActsTwice(h, h1, h', n);
    }
  }

  lemma AppendRequestStep<S(!new)>(app: App<S>, c: State<S>, h: History, m: Message) returns (h': History)
    requires ClusterInv(app, c, h) && Enabled(c, TakeAppendRequest(m))
    ensures ClusterInv(app, Do(app, c, TakeAppendRequest(m)), h') && Follows(h, h')
  {
    var n := m.to;
    assert NodeInv(app, h, n, c.nodes[n]) && MessageOk(app, h, m);
    h' := AppendRequestNode(app, h, n, c.nodes[n], m.aa);
    AppendRequestLeadsOn(c.nodes[n], m.aa);
    AppendRequestKept(h, h', m.aa);
    var r := HandleAppendEntries(c.nodes[n], m.aa);
    ReplyStep(app, c, h, h', n, r.0, AppendResponse(n, m.aa, r.1));
  }

  lemma AppendRequestLeadsOn<S>(s: Node<S>, a: AppendArgs)
    ensures LeadsOn(s, HandleAppendEntries(s, a).0)
  {
  }

  // ---- A snapshot arrives ----

  /** Installing a snapshot is a merge with the leader's prefix up to the snapshot. */
  lemma InstallIsMerge(h: History, v: View, log: seq<Entry>, leader: seq<Entry>, k: nat, data: seq<Byte>)
    requires LogOk(h, log) && LogOk(h, leader) && Shows(v, log) && v.snapIndex < k <= |leader|
    ensures var m := Merge(log, leader[..k]);
      k <= |m| && v.InstallSnapshot(k, leader[k - 1].term, data) == View(k, leader[k - 1].term, data, m[k..])
  {
    assert v.LastIndex() == |log|;
    if k <= |log| && log[k - 1].term == leader[k - 1].term {
      LogMatching(h, log, leader, k - 1);
      assert leader[..k] <= log;
    } else {
      assert !(leader[..k] <= log) by {
        assert leader[..k][k - 1] == leader[k - 1];
      }
    }
  }

  lemma InstallProgress<S(!new)>(app: App<S>, h: History, n: NodeId, s: Node<S>, a: SnapArgs)
    requires AppOk(app) && Shape(h) && NodesOk(h) && ReignsOk(h) && ReignsSafe(h)
    requires ProgressOk(app, h, n, s) && DurableOk(h, n, s) && SnapRequestOk(app, h, a)
    requires n in h.members && a.term == s.currentTerm && a.lastIndex > s.log.snapIndex && a.lastIndex > s.commitIndex
    ensures MayAccept(h, n, a.term, a.lastIndex)
    ensures ProgressOk(app, Accept(h, n, a.term, a.lastIndex), n, TakeSnapshot(app, s, a))
  {
    var k := a.lastIndex;
    var log, leader := h.log[n], h.reigns[a.term].log;
    var h' := Accept(h, n, a.term, k);
    var log' := h'.log[n];
    assert NodeOk(h, n) && ReignOk(h, a.term);
    InstallIsMerge(h, s.log, log, leader, k, a.data);
    AcceptExtends(h, n, a.term, k);
    assert Agree(leader, log', k);
    FoldAgrees(app, leader, log', k);
    SettledStable(h, h', a.term, a.term, leader, k);
    SettledAgree(h', a.term, leader, k, log', k);
  }

  lemma InstalledNode<S(!new)>(app: App<S>, h: History, n: NodeId, s: Node<S>, a: SnapArgs) returns (h': History)
    requires AppOk(app) && Inv(h) && NodeInv(app, h, n, s) && s.role == Follower && SnapRequestOk(app, h, a)
    requires a.term == s.currentTerm && a.lastIndex > s.log.snapIndex && a.lastIndex > s.commitIndex
    ensures Inv(h') && ActsOnly(h, h', n) && NodeInv(app, h', n, TakeSnapshot(app, s, a))
  {
    h' := Accept(h, n, a.term, a.lastIndex);
    InstallProgress(app, h, n, s, a);
    AcceptKeepsInv(h, n, a.term, a.lastIndex);
    AcceptActs(h, n, a.term, a.lastIndex);
  }

  lemma FollowerInstalls<S(!new)>(app: App<S>, h: History, n: NodeId, s: Node<S>, a: SnapArgs) returns (h': History)
    requires AppOk(app) && Inv(h) && NodeInv(app, h, n, s) && s.role == Follower && SnapRequestOk(app, h, a)
    requires a.term == s.currentTerm
    ensures Inv(h') && ActsOnly(h, h', n) && NodeInv(app, h', n, AnswerSnapshot(app, s, a))
  {
    if a.lastIndex <= s.log.snapIndex || a.lastIndex <= s.commitIndex {
      h' := h;
      NothingHappens(h, n);
    } else {
      h' := InstalledNode(app, h, n, s, a);
    }
  }

  lemma FollowSnapshot<S>(app: App<S>, h: History, n: NodeId, s: Node<S>, a: SnapArgs) returns (h': History)
    requires Inv(h) && NodeInv(app, h, n, s) && SnapRequestOk(app, h, a) && a.term >= s.currentTerm
    ensures Inv(h') && ActsOnly(h, h', n) && SnapRequestOk(app, h', a)
    ensures NodeInv(app, h', n, FollowLeader(s, a.term, a.leader))
  {
    h' := Follow(app, h, n, s, a.term, a.leader);
    SnapRequestKept(app, h, h', a);
  }

  lemma CurrentSnapNode<S(!new)>(app: App<S>, h: History, n: NodeId, s: Node<S>, s1: Node<S>, a: SnapArgs) returns (h': History)
    requires AppOk(app) && Inv(h) && NodeInv(app, h, n, s) && SnapRequestOk(app, h, a) && a.term >= s.currentTerm
    requires s1 == FollowLeader(s, a.term, a.leader)
    ensures Inv(h') && ActsOnly(h, h', n) && NodeInv(app, h', n, AnswerSnapshot(app, s1, a))
  {
    var h1 := FollowSnapshot(app, h, n, s, a);
    h' := FollowerInstalls(app, h1, n, s1, a);
    ActsTwice(h, h1, h', n);
  }

  lemma SnapRequestNode<S(!new)>(app: App<S>, h: History, n: NodeId, s: Node<S>, a: SnapArgs) returns (h': History)
    requires AppOk(app) && Inv(h) && NodeInv(app, h, n, s) && SnapRequestOk(app, h, a)
    ensures Inv(h') && ActsOnly(h, h', n) && NodeInv(app, h', n, HandleInstallSnapshot(app, s, a).0)
  {
    if a.term < s.currentTerm {
      h' := h;
      NothingHappens(h, n);
    } else {
      h' := CurrentSnapNode(app, h, n, s, FollowLeader(s, a.term, a.leader), a);
    }
  }

  lemma SnapRequestLeadsOn<S>(app: App<S>, s: Node<S>, a: SnapArgs)
    ensures LeadsOn(s, HandleInstallSnapshot(app, s, a).0)
  {
  }

  lemma SnapReplyCovered<S>(app: App<S>, c: State<S>, h: History, h': History, s': Node<S>, m: Message, r: SnapReply)
    requires NodesInv(app, c, h) && NetInv(app, c, h) && m in c.net && m.SnapRequest? && m.to in c.nodes
    requires Extends(h, h') && LeadsOn(c.nodes[m.to], s')
    ensures var response := SnapResponse(m.to, m.sa, r);
      MessageOk(app, h', response) && SnapCovered(Put(c, m.to, s', {response}), response)
  {
    var response := SnapResponse(m.to, m.sa, r);
    assert NodeInv(app, h, m.to, c.nodes[m.to]) && MessageOk(app, h, m) && SnapCovered(c, m);
    SnapRequestKept(app, h, h', m.sa);
    SnapCoveredKept(app, c, h, m.to, s', {response}, m);
  }

  /** A step that answers a snapshot request. */
  lemma SnapReplyStep<S>(app: App<S>, c: State<S>, h: History, h': History, s': Node<S>, m: Message, r: SnapReply)
    requires ClusterInv(app, c, h) && m in c.net && m.SnapRequest? && m.to in c.nodes
    requires Inv(h') && ActsOnly(h, h', m.to) && NodeInv(app, h', m.to, s') && LeadsOn(c.nodes[m.to], s')
    ensures ClusterInv(app, Put(c, m.to, s', {SnapResponse(m.to, m.sa, r)}), h') && Follows(h, h')
  {
    SnapReplyCovered(app, c, h, h', s', m, r);
    StepKeepsInv(app, c, h, h', m.to, s', {SnapResponse(m.to, m.sa, r)});
  }

  lemma SnapRequestStep<S(!new)>(app: App<S>, c: State<S>, h: History, m: Message) returns (h': History)
    requires AppOk(app) && ClusterInv(app, c, h) && Enabled(c, TakeSnapRequest(m))
    ensures ClusterInv(app, Do(app, c, TakeSnapRequest(m)), h') && Follows(h, h')
  {
    var n := m.to;
    assert NodeInv(app, h, n, c.nodes[n]) && MessageOk(app, h, m);
    h' := SnapRequestNode(app, h, n, c.nodes[n], m.sa);
    SnapRequestLeadsOn(app, c.nodes[n], m.sa);
    var r := HandleInstallSnapshot(app, c.nodes[n], m.sa);
    SnapReplyStep(app, c, h, h', r.0, m, r.1);
  }

  // ---- Replies advance the leader ----

  /** Those of the first `k` peers whose match index reaches `n`. */
  ghost function Reaching(peers: seq<NodeId>, m: map<NodeId, nat>, n: nat, k: nat): set<NodeId>
    requires k <= |peers|
  {
    if k == 0 then {} else Reaching(peers, m, n, k - 1) + if Get(m, peers[k - 1]) >= n then {peers[k - 1]} else {}
  }

  lemma {:induction false} ReachingMembers(peers: seq<NodeId>, m: map<NodeId, nat>, n: nat, k: nat, p: NodeId)
    requires k <= |peers| && p in Reaching(peers, m, n, k)
    ensures p in peers[..k] && Get(m, p) >= n
  {
    if p in Reaching(peers, m, n, k - 1) {
      ReachingMembers(peers, m, n, k - 1, p);
      assert p in peers[..k];
    } else {
      assert p == peers[k - 1] == peers[..k][k - 1];
    }
  }

  lemma NotReachedTwice(peers: seq<NodeId>, m: map<NodeId, nat>, n: nat, k: nat)
    requires Distinct(peers) && k < |peers|
    ensures peers[k] !in Reaching(peers, m, n, k)
  {
    if peers[k] in Reaching(peers, m, n, k) {
      ReachingMembers(peers, m, n, k, peers[k]);
    }
  }

  /** Counting distinct peers counts a set of them. */
  lemma {:induction false} MatchCountIsSet(peers: seq<NodeId>, m: map<NodeId, nat>, n: nat, k: nat)
    requires Distinct(peers) && k <= |peers|
    ensures MatchCount(peers, m, n, k) == 1 + |Reaching(peers, m, n, k)|
  {
    if k > 0 {
      var j := k - 1;
      MatchCountIsSet(peers, m, n, j);
      NotReachedTwice(peers, m, n, j);
      CountOneMore(peers, m, n, j, k);
    }
  }

  lemma CountOneMore(peers: seq<NodeId>, m: map<NodeId, nat>, n: nat, j: nat, k: nat)
    requires k == j + 1 <= |peers| && peers[j] !in Reaching(peers, m, n, j)
    requires MatchCount(peers, m, n, j) == 1 + |Reaching(peers, m, n, j)|
    ensures MatchCount(peers, m, n, k) == 1 + |Reaching(peers, m, n, k)|
  {
  }

  lemma MatchesAreQuorum(h: History, n: NodeId, peers: seq<NodeId>, m: map<NodeId, nat>, k: nat)
    requires WellConnected(h.members, n, peers) && n in h.members
    requires MatchCount(peers, m, k, |peers|) >= Majority(peers)
    ensures IsQuorum(h, Reaching(peers, m, k, |peers|) + {n})
  {
    var g := Reaching(peers, m, k, |peers|);
    MatchCountIsSet(peers, m, k, |peers|);
    DistinctCount(peers);
    assert |h.members| == |peers| + 1 by { assert h.members == PeerSet(peers) + {n}; }
    forall p | p in g ensures p in PeerSet(peers) {
      ReachingMembers(peers, m, k, |peers|, p);
    }
    assert n !in PeerSet(peers);
    assert |g + {n}| == |g| + 1;
  }

  /** What the leader may commit by its match indices is chosen. */
  lemma CommittableIsChosen<S>(app: App<S>, h: History, n: NodeId, s: Node<S>, k: nat)
    requires LeadersOk(h) && ReignsOk(h) && NodeInv(app, h, n, s) && s.role == Leader
    requires k > s.commitIndex && Committable(s, k)
    ensures Chosen(h, s.currentTerm, k)
  {
    var t := s.currentTerm;
    var q := Reaching(s.peers, s.matchIndex, k, |s.peers|) + {n};
    assert LeaderOk(h, t) && ReignOk(h, t);
    ViewReads(app, s.log, h.log[n]);
    MatchesAreQuorum(h, n, s.peers, s.matchIndex, k);
    forall m | m in q ensures Acked(h, m, t) >= k {
      if m != n {
        ReachingMembers(s.peers, s.matchIndex, k, |s.peers|, m);
        assert PeerOk(h, s, m, |h.log[n]|);
      }
    }
    assert AckedBy(h, q, t, k);
    assert h.log[n][k - 1].term == t;
  }

  /** `h'` differs from `h` at most in what is committed. */
  ghost predicate OnlyCommits(h: History, h': History) {
    Extends(h, h') && h' == h.(committed := h'.committed)
  }

  lemma AdvancedNode<S>(app: App<S>, h: History, h': History, n: NodeId, s: Node<S>, k: nat)
    requires NodeInv(app, h, n, s) && s.role == Leader && OnlyCommits(h, h')
    requires s.commitIndex <= k <= |h.log[n]| && Settled(h', s.currentTerm, h.log[n], k)
    ensures NodeInv(app, h', n, s.(commitIndex := k))
  {
    var s' := s.(commitIndex := k);
    forall p | p in s'.peers ensures PeerOk(h', s', p, |h'.log[n]|) {
      assert PeerOk(h, s, p, |h.log[n]|);
      assert p in PeerSet(s.peers);
      assert Acked(h, p, s.currentTerm) <= Acked(h', p, s.currentTerm);
    }
  }

  lemma CommitActs(h: History, n: NodeId, t: nat, k: nat)
    requires Inv(h) && Chosen(h, t, k)
    ensures var h' := Commit(h, t, k); Inv(h') && ActsOnly(h, h', n) && OnlyCommits(h, h') && Settled(h', t, h.reigns[t].log, k)
  {
    CommitKeepsInv(h, t, k);
    if n in h.members {
      RetainsSame(h, Commit(h, t, k), n);
    }
  }

  lemma CommitNode<S>(app: App<S>, h: History, n: NodeId, s: Node<S>, k: nat) returns (h': History)
    requires Inv(h) && NodeInv(app, h, n, s) && s.role == Leader && k <= |h.log[n]|
    requires k > s.commitIndex && Chosen(h, s.currentTerm, k)
    ensures Inv(h') && ActsOnly(h, h', n) && NodeInv(app, h', n, s.(commitIndex := k))
  {
    h' := Commit(h, s.currentTerm, k);
    assert LeaderOk(h, s.currentTerm);
    CommitActs(h, n, s.currentTerm, k);
    AdvancedNode(app, h, h', n, s, k);
  }

  lemma AdvanceNode<S>(app: App<S>, h: History, n: NodeId, s: Node<S>) returns (h': History)
    requires Inv(h) && NodeInv(app, h, n, s) && s.role == Leader
    ensures Inv(h') && ActsOnly(h, h', n) && NodeInv(app, h', n, AdvanceCommit(s))
  {
    var k := LargestCommittable(s, s.log.LastIndex());
    LargestIsLargest(s, s.log.LastIndex());
    if k == s.commitIndex {
      h' := h;
      NothingHappens(h, n);
    } else {
      CommittableIsChosen(app, h, n, s, k);
      h' := CommitNode(app, h, n, s, k);
    }
  }

  /** A match index may rise to what the peer acknowledged, or to what is committed anyway. */
  lemma RaisedNode<S>(app: App<S>, h: History, n: NodeId, s: Node<S>, peer: NodeId, index: nat)
    requires AcksOk(h) && LeadersOk(h) && NodeInv(app, h, n, s) && s.role == Leader
    requires index <= Max(s.commitIndex, Acked(h, peer, s.currentTerm))
    ensures NodeInv(app, h, n, RaiseMatch(s, peer, index))
  {
    var s' := RaiseMatch(s, peer, index);
    var t := s.currentTerm;
    assert LeaderOk(h, t);
    forall p | p in s'.peers ensures PeerOk(h, s', p, |h.log[n]|) {
      assert PeerOk(h, s, p, |h.log[n]|);
      assert (p, t) in h.acks ==> AckOk(h, (p, t));
    }
  }

  lemma BackedUpNode<S>(app: App<S>, h: History, n: NodeId, s: Node<S>, peer: NodeId, r: AppendReply)
    requires LeadersOk(h) && NodeInv(app, h, n, s) && s.role == Leader
    requires r.conflictIndex <= |h.reigns[s.currentTerm].log| + 1
    ensures NodeInv(app, h, n, s.(nextIndex := s.nextIndex[peer := BackUp(s.log, r)]))
  {
    var s' := s.(nextIndex := s.nextIndex[peer := BackUp(s.log, r)]);
    assert LeaderOk(h, s.currentTerm);
    forall p | p in s'.peers ensures PeerOk(h, s', p, |h.log[n]|) {
      assert PeerOk(h, s, p, |h.log[n]|);
    }
  }

  lemma AcknowledgedNode<S>(app: App<S>, h: History, n: NodeId, s: Node<S>, peer: NodeId, index: nat) returns (h': History)
    requires Inv(h) && NodeInv(app, h, n, s) && s.role == Leader
    requires index <= Max(s.commitIndex, Acked(h, peer, s.currentTerm))
    ensures Inv(h') && ActsOnly(h, h', n) && NodeInv(app, h', n, Acknowledge(s, peer, index))
  {
    RaisedNode(app, h, n, s, peer, index);
    h' := AdvanceNode(app, h, n, RaiseMatch(s, peer, index));
  }

  lemma AppendReplyNode<S>(app: App<S>, h: History, n: NodeId, s: Node<S>, peer: NodeId, a: AppendArgs, r: AppendReply)
      returns (h': History)
    requires Inv(h) && NodeInv(app, h, n, s) && AppendResponseOk(h, peer, a, r)
    ensures Inv(h') && ActsOnly(h, h', n) && NodeInv(app, h', n, OnAppendReply(s, peer, a, r))
  {
    if s.currentTerm != a.term || s.role != Leader {
      h' := h;
      NothingHappens(h, n);
    } else if r.term > s.currentTerm {
      h' := StepDown(app, h, n, s, r.term);
    } else if r.success {
      h' := AcknowledgedNode(app, h, n, s, peer, a.LastNew());
    } else {
      h' := h;
      NothingHappens(h, n);
      BackedUpNode(app, h, n, s, peer, r);
    }
  }

  lemma AppendReplyLeadsOn<S>(s: Node<S>, peer: NodeId, a: AppendArgs, r: AppendReply)
    ensures LeadsOn(s, OnAppendReply(s, peer, a, r))
  {
    var s1 := RaiseMatch(s, peer, a.LastNew());
    LargestIsLargest(s1, s1.log.LastIndex());
  }

  lemma AppendResponseStep<S(!new)>(app: App<S>, c: State<S>, h: History, m: Message) returns (h': History)
    requires ClusterInv(app, c, h) && Enabled(c, TakeAppendResponse(m))
    ensures ClusterInv(app, Do(app, c, TakeAppendResponse(m)), h') && Follows(h, h')
  {
    var n := m.aa.leader;
    assert NodeInv(app, h, n, c.nodes[n]) && MessageOk(app, h, m);
    h' := AppendReplyNode(app, h, n, c.nodes[n], m.from, m.aa, m.ar);
    AppendReplyLeadsOn(c.nodes[n], m.from, m.aa, m.ar);
    StepKeepsInv(app, c, h, h', n, OnAppendReply(c.nodes[n], m.from, m.aa, m.ar), {});
  }

  /** A snapshot reply carries no success flag; it is harmless because the snapshot is committed. */
  lemma SnapReplyNode<S>(app: App<S>, h: History, n: NodeId, s: Node<S>, peer: NodeId, a: SnapArgs, r: SnapReply)
      returns (h': History)
    requires Inv(h) && NodeInv(app, h, n, s)
    requires s.role == Leader && s.currentTerm == a.term ==> a.lastIndex <= s.commitIndex
    ensures Inv(h') && ActsOnly(h, h', n) && NodeInv(app, h', n, OnSnapReply(s, peer, a, r))
  {
    if s.currentTerm != a.term || s.role != Leader {
      h' := h;
      NothingHappens(h, n);
    } else if r.term > s.currentTerm {
      h' := StepDown(app, h, n, s, r.term);
    } else {
      h' := AcknowledgedNode(app, h, n, s, peer, a.lastIndex);
    }
  }

  lemma SnapReplyLeadsOn<S>(s: Node<S>, peer: NodeId, a: SnapArgs, r: SnapReply)
    ensures LeadsOn(s, OnSnapReply(s, peer, a, r))
  {
    var s1 := RaiseMatch(s, peer, a.lastIndex);
    LargestIsLargest(s1, s1.log.LastIndex());
  }

  lemma SnapResponseStep<S(!new)>(app: App<S>, c: State<S>, h: History, m: Message) returns (h': History)
    requires ClusterInv(app, c, h) && Enabled(c, TakeSnapResponse(m))
    ensures ClusterInv(app, Do(app, c, TakeSnapResponse(m)), h') && Follows(h, h')
  {
    var n := m.sa.leader;
    assert NodeInv(app, h, n, c.nodes[n]) && MessageOk(app, h, m) && SnapCovered(c, m);
    h' := SnapReplyNode(app, h, n, c.nodes[n], m.from, m.sa, m.sr);
    SnapReplyLeadsOn(c.nodes[n], m.from, m.sa, m.sr);
    StepKeepsInv(app, c, h, h', n, OnSnapReply(c.nodes[n], m.from, m.sa, m.sr), {});
  }
}
