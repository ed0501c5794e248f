/** The election steps, proposals and sends, against the consensus core. */
module ClusterElection {
  import opened Entries
  import opened LogView
  import opened RaftNode
  import opened Consensus
  import opened ConsensusSteps
  import opened Cluster
  import opened ClusterFrame

  /** What a compacted view answers is what the whole log holds. */
  lemma ViewReads<S>(app: App<S>, v: View, log: seq<Entry>)
    requires ViewOk(app, v, log)
    ensures v.LastIndex() == |log|
    ensures forall k | v.snapIndex <= k <= |log| :: v.TermAt(k) == Some(TermOf(log, k)) && v.TermOrZero(k) == TermOf(log, k)
    ensures forall k | v.snapIndex < k <= |log| :: v.At(k) == Some(log[k - 1])
    ensures forall k | v.snapIndex < k <= |log| + 1 :: v.From(k) == log[k - 1..]
  {
  }

  /** Steps that change nothing but the node's volatile bookkeeping. */
  lemma NothingHappens(h: History, n: NodeId)
    requires Inv(h)
    ensures ActsOnly(h, h, n)
  {
    ExtendsReflexive(h);
    if n in h.members {
      RetainsSame(h, h, n);
    }
  }

  /** Sets the progress of a node whose whole log moved from one value to another that keeps the
      committed part. */
  lemma ProgressMoved<S>(app: App<S>, h: History, h': History, n: NodeId, s: Node<S>, s': Node<S>)
    requires ProgressOk(app, h, n, s) && n in h'.log
    requires Agree(h.log[n], h'.log[n], s.commitIndex)
    requires s'.log == s.log.(entries := h'.log[n][s.log.snapIndex..])
    requires s'.lastApplied == s.lastApplied && s'.machine == s.machine
    requires s.commitIndex <= s'.commitIndex <= |h'.log[n]|
    requires Settled(h', s'.currentTerm, h'.log[n], s'.commitIndex)
    ensures ProgressOk(app, h', n, s')
  {
    var log, log' := h.log[n], h'.log[n];
    FoldAgrees(app, log, log', s.log.snapIndex);
    FoldAgrees(app, log, log', s.lastApplied);
  }

  // ---- Stepping down ----

  lemma StepDownNode<S>(app: App<S>, h: History, n: NodeId, s: Node<S>, t: nat)
    requires Shape(h) && VotesOk(h) && NodeInv(app, h, n, s)
    ensures NodeInv(app, Bump(h, n, Max(t, s.currentTerm)), n, BecomeFollower(s, t))
  {
    var h' := Bump(h, n, Max(t, s.currentTerm));
    BumpExtends(h, n, Max(t, s.currentTerm));
    SettledStable(h, h', s.currentTerm, Max(t, s.currentTerm), h.log[n], s.commitIndex);
    assert (n, t) in h.votes ==> VoteOk(h, (n, t));
  }

  lemma BumpActs(h: History, n: NodeId, t: nat)
    requires Shape(h) && n in h.members && t >= h.term[n]
    ensures ActsOnly(h, Bump(h, n, t), n)
  {
    BumpExtends(h, n, t);
    RetainsSame(h, Bump(h, n, t), n);
  }

  lemma StepDown<S>(app: App<S>, h: History, n: NodeId, s: Node<S>, t: nat) returns (h': History)
    requires Inv(h) && NodeInv(app, h, n, s)
    ensures h' == Bump(h, n, Max(t, s.currentTerm))
    ensures Inv(h') && ActsOnly(h, h', n) && NodeInv(app, h', n, BecomeFollower(s, t))
  {
    h' := Bump(h, n, Max(t, s.currentTerm));
    BumpKeepsInv(h, n, Max(t, s.currentTerm));
    BumpActs(h, n, Max(t, s.currentTerm));
    StepDownNode(app, h, n, s, t);
  }

  // ---- Timeout ----

  lemma StandNode<S>(app: App<S>, h: History, n: NodeId, s: Node<S>)
    requires Inv(h) && NodeInv(app, h, n, s) && s.role != Leader
    ensures NodeInv(app, Stand(h, n), n, StartElection(s))
  {
    var h', t := Stand(h, n), s.currentTerm + 1;
    StandExtends(h, n);
    SettledStable(h, h', s.currentTerm, t, h.log[n], s.commitIndex);
    assert t in h.reigns ==> LeaderOk(h, t);
  }

  lemma TimeoutStep<S(!new)>(app: App<S>, c: State<S>, h: History, n: NodeId) returns (h': History)
    requires ClusterInv(app, c, h) && Enabled(c, Timeout(n))
    ensures ClusterInv(app, Do(app, c, Timeout(n)), h') && Follows(h, h')
  {
    var s := c.nodes[n];
    assert NodeInv(app, h, n, s);
    if s.role == Leader {
      h' := h;
      NothingHappens(h, n);
      StepKeepsInv(app, c, h, h, n, s, {});
    } else {
      h' := Stand(h, n);
      var s' := StartElection(s);
      StandKeepsInv(h, n);
      RetainsSame(h, h', n);
      StandNode(app, h, n, s);
      ViewReads(app, s.log, h.log[n]);
      forall m | m in VoteRequestsOf(s')
        ensures MessageOk(app, h', m) && SnapCovered(Put(c, n, s', VoteRequestsOf(s')), m)
      {
        var p :| p in s'.peers && m == VoteRequest(p, VoteRequestOf(s'));
        assert p in PeerSet(s'.peers);
      }
      StepKeepsInv(app, c, h, h', n, s', VoteRequestsOf(s'));
    }
  }

  // ---- A vote request arrives ----

  lemma VotedNode<S>(app: App<S>, h: History, n: NodeId, s: Node<S>, v: NodeId)
    requires Shape(h) && NodeInv(app, h, n, s) && v > 0 && MayVote(h, n, v, s.currentTerm)
    ensures NodeInv(app, CastVote(h, n, v, s.currentTerm), n, Persist(s.(votedFor := v)))
    ensures ActsOnly(h, CastVote(h, n, v, s.currentTerm), n)
  {
    var h' := CastVote(h, n, v, s.currentTerm);
    var s' := Persist(s.(votedFor := v));
    CastVoteExtends(h, n, v, s.currentTerm);
    ProgressKept(app, h, h', n, s);
    CandidateKept(h, h', n, s);
    LeaderNodeKept(h, h', n, s);
    SameLeader(h', n, s, s');
    RetainsSame(h, h', n);
  }

  lemma GrantNode<S>(app: App<S>, h: History, n: NodeId, s: Node<S>, a: VoteArgs) returns (h': History)
    requires Inv(h) && NodeInv(app, h, n, s) && VoteRequestOk(h, a)
    requires a.term == s.currentTerm && (s.votedFor == 0 || s.votedFor == a.candidate)
    requires UpToDate(a.lastIndex, a.lastTerm, h.log[n])
    ensures Inv(h') && ActsOnly(h, h', n) && NodeInv(app, h', n, Persist(s.(votedFor := a.candidate)))
    ensures (n, a.term) in h'.votes && h'.votes[(n, a.term)] == a.candidate
  {
    h' := CastVote(h, n, a.candidate, a.term);
    CastVoteKeepsInv(h, n, a.candidate, a.term);
    VotedNode(app, h, n, s, a.candidate);
  }

  /** The leader's bookkeeping does not depend on its vote. */
  lemma SameLeader<S>(h: History, n: NodeId, s: Node<S>, s': Node<S>)
    requires LeaderNodeOk(h, n, s)
    requires s'.role == s.role && s'.currentTerm == s.currentTerm && s'.commitIndex == s.commitIndex
    requires s'.peers == s.peers && s'.matchIndex == s.matchIndex && s'.nextIndex == s.nextIndex
    ensures LeaderNodeOk(h, n, s')
  {
    if s.role == Leader {
      forall p | p in s'.peers ensures PeerOk(h, s', p, |h.log[n]|) {
        assert PeerOk(h, s, p, |h.log[n]|);
      }
    }
  }

  lemma ActsTwice(h: History, h1: History, h2: History, n: NodeId)
    requires ActsOnly(h, h1, n) && ActsOnly(h1, h2, n)
    ensures ActsOnly(h, h2, n)
  {
    ExtendsTransitive(h, h1, h2);
    if n in h.members {
      RetainsTwice(h, h1, h2, n);
    }
  }

  lemma RetainsTwice(h: History, h1: History, h2: History, n: NodeId)
    requires Extends(h, h1) && Extends(h1, h2) && n in h.members && Retains(h, h1, n) && Retains(h1, h2, n)
    ensures Retains(h, h2, n)
  {
    forall k: nat | Settled(h, h.term[n], h.log[n], k)
      ensures Agree(h.log[n], h2.log[n], k)
    {
      SettledStable(h, h1, h.term[n], h1.term[n], h.log[n], k);
      SettledAgree(h1, h1.term[n], h.log[n], k, h1.log[n], k);
    }
  }

  /** The term rule at the head of the vote handler. */
  lemma VoterCatchesUp<S>(app: App<S>, h: History, n: NodeId, s: Node<S>, t: nat) returns (h': History)
    requires Inv(h) && NodeInv(app, h, n, s) && t >= s.currentTerm
    ensures Inv(h') && ActsOnly(h, h', n) && NodeInv(app, h', n, CatchUp(s, t))
    ensures h'.log[n] == h.log[n]
  {
    if t > s.currentTerm {
      h' := StepDown(app, h, n, s, t);
    } else {
      h' := h;
      NothingHappens(h, n);
    }
  }

  /** The answer of a node that is in the candidate's term. */
  lemma CurrentVoteNode<S>(app: App<S>, h: History, n: NodeId, s: Node<S>, a: VoteArgs) returns (h': History)
    requires Inv(h) && NodeInv(app, h, n, s) && VoteRequestOk(h, a) && a.term == s.currentTerm
    ensures Inv(h') && ActsOnly(h, h', n) && NodeInv(app, h', n, HandleRequestVote(s, a).0)
    ensures HandleRequestVote(s, a).1.granted ==> (n, a.term) in h'.votes && h'.votes[(n, a.term)] == a.candidate
  {
    ViewReads(app, s.log, h.log[n]);
    if HandleRequestVote(s, a).1.granted {
      h' := GrantNode(app, h, n, s, a);
    } else {
      h' := h;
      NothingHappens(h, n);
    }
  }

  lemma VoteAfterCatchUp<S>(s: Node<S>, a: VoteArgs)
    requires a.term >= s.currentTerm
    ensures HandleRequestVote(CatchUp(s, a.term), a) == HandleRequestVote(s, a)
    ensures CatchUp(s, a.term).currentTerm == a.term
  {
  }

  lemma VoteRequestNode<S>(app: App<S>, h: History, n: NodeId, s: Node<S>, a: VoteArgs) returns (h': History)
    requires Inv(h) && NodeInv(app, h, n, s) && VoteRequestOk(h, a)
    ensures Inv(h') && ActsOnly(h, h', n) && NodeInv(app, h', n, HandleRequestVote(s, a).0)
    ensures HandleRequestVote(s, a).1.granted ==> (n, a.term) in h'.votes && h'.votes[(n, a.term)] == a.candidate
  {
    if a.term < s.currentTerm {
      h' := h;
      NothingHappens(h, n);
    } else {
      var h1 := VoterCatchesUp(app, h, n, s, a.term);
      VoteAfterCatchUp(s, a);
      h' := CurrentVoteNode(app, h1, n, CatchUp(s, a.term), a);
      ActsTwice(h, h1, h', n);
    }
  }

  lemma VoteRequestLeadsOn<S>(s: Node<S>, a: VoteArgs)
    ensures LeadsOn(s, HandleRequestVote(s, a).0)
  {
  }

  lemma VoteRequestStep<S(!new)>(app: App<S>, c: State<S>, h: History, m: Message) returns (h': History)
    requires ClusterInv(app, c, h) && Enabled(c, TakeVoteRequest(m))
    ensures ClusterInv(app, Do(app, c, TakeVoteRequest(m)), h') && Follows(h, h')
  {
    var n := m.to;
    assert NodeInv(app, h, n, c.nodes[n]) && MessageOk(app, h, m);
    h' := VoteRequestNode(app, h, n, c.nodes[n], m.va);
    VoteRequestLeadsOn(c.nodes[n], m.va);
    var r := HandleRequestVote(c.nodes[n], m.va);
    ReplyStep(app, c, h, h', n, r.0, VoteResponse(n, m.va, r.1));
  }

  // ---- A vote reply arrives ----

  lemma DistinctCount(ps: seq<NodeId>)
    requires Distinct(ps)
    ensures |PeerSet(ps)| == |ps|
    decreases |ps|
  {
    if ps != [] {
      var rest := ps[..|ps| - 1];
      DistinctCount(rest);
      assert PeerSet(ps) == PeerSet(rest) + {ps[|ps| - 1]};
    }
  }

  /** A candidate that counted a majority really has one, and nobody else leads its term. */
  lemma WonMajority<S>(h: History, n: NodeId, s: Node<S>)
    requires Inv(h) && CandidateOk(h, n, s) && s.role == Candidate && n in h.members && n in h.term
    requires WellConnected(h.members, n, s.peers) && h.term[n] == s.currentTerm
    requires s.votes >= Majority(s.peers)
    ensures var q := {n} + Granted(h, n, s.currentTerm, s.awaiting);
      MayLead(h, n, q, Entry(|h.log[n]| + 1, s.currentTerm, KIND_NOOP, []))
  {
    var t := s.currentTerm;
    var g := Granted(h, n, t, s.awaiting);
    var q := {n} + g;
    assert BallotOk(h, (n, t));
    DistinctCount(s.peers);
    assert |h.members| == |s.peers| + 1 by { assert h.members == PeerSet(s.peers) + {n}; }
    assert |q| == 1 + |g|;
    assert IsQuorum(h, q);
    if t in h.reigns {
      assert ReignOk(h, t);
      var x := MajoritiesMeet(q, h.reigns[t].voters, h.members);
      assert false;
    }
  }

  lemma LeadActs(h: History, n: NodeId, q: set<NodeId>, e: Entry)
    requires Shape(h) && AcksOk(h) && MayLead(h, n, q, e)
    ensures ActsOnly(h, Lead(h, n, q, e), n)
  {
    LeadExtends(h, n, q, e);
    RetainsSame(h, Lead(h, n, q, e), n);
  }

  lemma FreshLeader<S>(h: History, n: NodeId, s: Node<S>)
    requires n in h.log && |h.log[n]| == s.log.LastIndex() + 1
    requires s.currentTerm in h.reigns && h.reigns[s.currentTerm].leader == n
    ensures LeaderNodeOk(h, n, BecomeLeader(s))
  {
    var s' := BecomeLeader(s);
    assert s.peers[..|s.peers|] == s.peers;
    forall p | p in s'.peers ensures PeerOk(h, s', p, |h.log[n]|) {
      SetAllSets(s.nextIndex, s.peers, s.log.LastIndex() + 1, |s.peers|, p);
      SetAllSets(s.matchIndex, s.peers, 0, |s.peers|, p);
    }
  }

  lemma LeadProgress<S>(app: App<S>, h: History, n: NodeId, q: set<NodeId>, s: Node<S>, e: Entry)
    requires Shape(h) && AcksOk(h) && ProgressOk(app, h, n, s) && MayLead(h, n, q, e)
    requires e == Entry(|h.log[n]| + 1, s.currentTerm, KIND_NOOP, [])
    ensures ProgressOk(app, Lead(h, n, q, e), n, BecomeLeader(s))
  {
    LeadExtends(h, n, q, e);
    GrownProgress(app, h, Lead(h, n, q, e), n, s, BecomeLeader(s), e);
  }

  lemma LeadNode<S>(app: App<S>, h: History, h': History, n: NodeId, s: Node<S>)
    requires NodeInv(app, h, n, s) && ProgressOk(app, h', n, BecomeLeader(s))
    requires h'.members == h.members && h'.term == h.term && h'.votes == h.votes
    requires s.currentTerm in h'.reigns && h'.reigns[s.currentTerm].leader == n
    ensures NodeInv(app, h', n, BecomeLeader(s))
  {
    FreshLeader(h', n, s);
  }

  lemma WinNode<S>(app: App<S>, h: History, n: NodeId, s: Node<S>) returns (h': History)
    requires Inv(h) && NodeInv(app, h, n, s) && s.role == Candidate && s.votes >= Majority(s.peers)
    ensures Inv(h') && ActsOnly(h, h', n) && NodeInv(app, h', n, BecomeLeader(s))
  {
    var q := {n} + Granted(h, n, s.currentTerm, s.awaiting);
    var e := Entry(|h.log[n]| + 1, s.currentTerm, KIND_NOOP, []);
    WonMajority(h, n, s);
    h' := Lead(h, n, q, e);
    LeadKeepsInv(h, n, q, e);
    LeadActs(h, n, q, e);
    LeadProgress(app, h, n, q, s, e);
    LeadNode(app, h, h', n, s);
  }

  /** Appending one entry to a node's log keeps its progress. */
  lemma GrownProgress<S>(app: App<S>, h: History, h': History, n: NodeId, s: Node<S>, s': Node<S>, e: Entry)
    requires Extends(h, h') && ProgressOk(app, h, n, s) && n in h'.log && h'.log[n] == h.log[n] + [e]
    requires s'.log == s.log.(entries := s.log.entries + [e])
    requires s'.lastApplied == s.lastApplied && s'.machine == s.machine && s'.commitIndex == s.commitIndex
    requires s'.currentTerm == s.currentTerm
    ensures ProgressOk(app, h', n, s')
  {
    var log, log' := h.log[n], h'.log[n];
    SettledStable(h, h', s.currentTerm, s.currentTerm, log, s.commitIndex);
    SettledAgree(h', s.currentTerm, log, s.commitIndex, log', s.commitIndex);
    assert log'[s.log.snapIndex..] == log[s.log.snapIndex..] + [e];
    ProgressMoved(app, h, h', n, s, s');
  }

  lemma CountedNode<S>(app: App<S>, h: History, n: NodeId, s: Node<S>, peer: NodeId, granted: bool)
    requires VotesOk(h) && NodeInv(app, h, n, s) && s.role == Candidate && peer in s.awaiting && peer != n
    requires granted ==> (peer, s.currentTerm) in h.votes && h.votes[(peer, s.currentTerm)] == n
    ensures NodeInv(app, h, n, CountReply(s, peer, granted))
  {
    var g := Granted(h, n, s.currentTerm, s.awaiting);
    var g' := Granted(h, n, s.currentTerm, s.awaiting - {peer});
    if granted {
      assert VoteOk(h, (peer, s.currentTerm));
      assert g' == g + {peer};
    } else {
      SubsetCardinality(g, g');
    }
  }

  /** The reply is stale, ends the candidacy, is only counted, or wins the election. */
  lemma VoteReplyNode<S>(app: App<S>, h: History, n: NodeId, s: Node<S>, peer: NodeId, term: nat, r: VoteReply) returns (h': History)
    requires Inv(h) && NodeInv(app, h, n, s) && peer != n
    requires r.granted ==> (peer, term) in h.votes && h.votes[(peer, term)] == n
    ensures Inv(h') && ActsOnly(h, h', n) && NodeInv(app, h', n, OnVoteReply(s, peer, term, r))
  {
    if IgnoresVote(s, peer, term) {
      h' := h;
      NothingHappens(h, n);
    } else {
      var granted := r.granted && r.term <= s.currentTerm;
      var s1 := CountReply(s, peer, granted);
      CountedNode(app, h, n, s, peer, granted);
      if r.term > s.currentTerm {
        h' := StepDown(app, h, n, s1, r.term);
      } else if granted && s1.votes >= Majority(s1.peers) {
        h' := WinNode(app, h, n, s1);
      } else {
        h' := h;
        NothingHappens(h, n);
      }
    }
  }

  lemma VoteReplyLeadsOn<S>(s: Node<S>, peer: NodeId, term: nat, r: VoteReply)
    ensures LeadsOn(s, OnVoteReply(s, peer, term, r))
  {
  }

  lemma VoteResponseStep<S(!new)>(app: App<S>, c: State<S>, h: History, m: Message) returns (h': History)
    requires ClusterInv(app, c, h) && Enabled(c, TakeVoteResponse(m))
    ensures ClusterInv(app, Do(app, c, TakeVoteResponse(m)), h') && Follows(h, h')
  {
    var n := m.va.candidate;
    assert NodeInv(app, h, n, c.nodes[n]) && MessageOk(app, h, m);
    h' := VoteReplyNode(app, h, n, c.nodes[n], m.from, m.va.term, m.vr);
    VoteReplyLeadsOn(c.nodes[n], m.from, m.va.term, m.vr);
    StepKeepsInv(app, c, h, h', n, OnVoteReply(c.nodes[n], m.from, m.va.term, m.vr), {});
  }

  // ---- A command is proposed ----

  lemma AppendActs(h: History, n: NodeId, e: Entry)
    requires Shape(h) && AcksOk(h) && MayAppend(h, n, e)
    ensures ActsOnly(h, AppendOwn(h, n, e), n)
  {
    AppendOwnExtends(h, n, e);
    RetainsSame(h, AppendOwn(h, n, e), n);
  }

  lemma ProposedNode<S>(app: App<S>, h: History, n: NodeId, s: Node<S>, data: seq<Byte>, e: Entry)
    requires Shape(h) && AcksOk(h) && NodeInv(app, h, n, s) && s.role == Leader && MayAppend(h, n, e)
    requires e == Entry(|h.log[n]| + 1, s.currentTerm, KIND_COMMAND, data)
    ensures NodeInv(app, AppendOwn(h, n, e), n, Propose(s, data))
  {
    var h' := AppendOwn(h, n, e);
    AppendOwnExtends(h, n, e);
    GrownProgress(app, h, h', n, s, Propose(s, data), e);
    LeaderNodeKept(h, h', n, s);
    SameLeader(h', n, s, Propose(s, data));
  }

  lemma ProposeNode<S>(app: App<S>, h: History, n: NodeId, s: Node<S>, data: seq<Byte>) returns (h': History)
    requires Inv(h) && NodeInv(app, h, n, s) && s.role == Leader
    ensures Inv(h') && ActsOnly(h, h', n) && NodeInv(app, h', n, Propose(s, data))
  {
    var e := Entry(|h.log[n]| + 1, s.currentTerm, KIND_COMMAND, data);
    assert LeaderOk(h, s.currentTerm);
    h' := AppendOwn(h, n, e);
    AppendOwnKeepsInv(h, n, e);
    AppendActs(h, n, e);
    ProposedNode(app, h, n, s, data, e);
  }

  lemma SubmitStep<S(!new)>(app: App<S>, c: State<S>, h: History, n: NodeId, data: seq<Byte>) returns (h': History)
    requires ClusterInv(app, c, h) && Enabled(c, Submit(n, data))
    ensures ClusterInv(app, Do(app, c, Submit(n, data)), h') && Follows(h, h')
  {
    var s := c.nodes[n];
    assert NodeInv(app, h, n, s);
    if s.role == Leader {
      h' := ProposeNode(app, h, n, s, data);
    } else {
      h' := h;
      NothingHappens(h, n);
    }
    StepKeepsInv(app, c, h, h', n, Propose(s, data), {});
  }

  // ---- A leader replicates to a peer ----

  /** What a leader reads from its compacted log is the stretch of the whole log after the probe. */
  lemma ProbeReads<S>(app: App<S>, s: Node<S>, log: seq<Entry>, peer: NodeId)
    requires ViewOk(app, s.log, log) && !NeedsSnapshot(s, peer) && Get(s.nextIndex, peer) <= |log| + 1 && log != []
    ensures var a := AppendRequestOf(s, peer);
      a.LastNew() == |log| && a.entries == log[a.prevIndex..] && a.prevTerm == TermOf(log, a.prevIndex)
  {
    var a := AppendRequestOf(s, peer);
    ViewReads(app, s.log, log);
    assert a.prevIndex <= |log| && a.entries == log[a.prevIndex..];
  }

  lemma AppendRequestSent<S>(app: App<S>, h: History, n: NodeId, s: Node<S>, peer: NodeId)
    requires LeadersOk(h) && ReignsOk(h) && NodeInv(app, h, n, s)
    requires s.role == Leader && peer in s.peers && !NeedsSnapshot(s, peer)
    ensures AppendRequestOk(h, AppendRequestOf(s, peer))
  {
    var a := AppendRequestOf(s, peer);
    var log := h.log[n];
    assert LeaderOk(h, s.currentTerm) && PeerOk(h, s, peer, |log|) && ReignOk(h, s.currentTerm);
    ProbeReads(app, s, log, peer);
    assert log[a.prevIndex..] == log[a.prevIndex..a.LastNew()];
  }

  lemma SnapRequestSent<S>(app: App<S>, h: History, n: NodeId, s: Node<S>, peer: NodeId)
    requires Inv(h) && NodeInv(app, h, n, s) && s.role == Leader && NeedsSnapshot(s, peer)
    ensures SnapRequestOk(app, h, SnapRequestOf(s))
  {
    var log := h.log[n];
    assert LeaderOk(h, s.currentTerm);
    SettledAgree(h, s.currentTerm, log, s.commitIndex, log, s.log.snapIndex);
  }

  lemma SendSnapshotStep<S(!new)>(app: App<S>, c: State<S>, h: History, n: NodeId, peer: NodeId)
    requires ClusterInv(app, c, h) && n in c.nodes && c.nodes[n].role == Leader && NeedsSnapshot(c.nodes[n], peer)
    ensures var m := SnapRequest(peer, SnapRequestOf(c.nodes[n]));
      ClusterInv(app, Put(c, n, c.nodes[n], {m}), h) && Follows(h, h)
  {
    var s := c.nodes[n];
    var m := SnapRequest(peer, SnapRequestOf(s));
    assert NodeInv(app, h, n, s);
    SnapRequestSent(app, h, n, s, peer);
    NothingHappens(h, n);
    assert SnapCovered(Put(c, n, s, {m}), m);
    StepKeepsInv(app, c, h, h, n, s, {m});
  }

  lemma SendAppendStep<S(!new)>(app: App<S>, c: State<S>, h: History, n: NodeId, peer: NodeId)
    requires ClusterInv(app, c, h) && n in c.nodes && c.nodes[n].role == Leader
    requires peer in c.nodes[n].peers && !NeedsSnapshot(c.nodes[n], peer)
    ensures var m := AppendRequest(peer, AppendRequestOf(c.nodes[n], peer));
      ClusterInv(app, Put(c, n, c.nodes[n], {m}), h) && Follows(h, h)
  {
    assert NodeInv(app, h, n, c.nodes[n]);
    AppendRequestSent(app, h, n, c.nodes[n], peer);
    NothingHappens(h, n);
    ReplyStep(app, c, h, h, n, c.nodes[n], AppendRequest(peer, AppendRequestOf(c.nodes[n], peer)));
  }

  lemma ReplicateStep<S(!new)>(app: App<S>, c: State<S>, h: History, n: NodeId, peer: NodeId)
    requires ClusterInv(app, c, h) && Enabled(c, Replicate(n, peer))
    ensures ClusterInv(app, Do(app, c, Replicate(n, peer)), h) && Follows(h, h)
  {
    if NeedsSnapshot(c.nodes[n], peer) {
      SendSnapshotStep(app, c, h, n, peer);
    } else {
      SendAppendStep(app, c, h, n, peer);
    }
  }
}
