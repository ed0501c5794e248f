/** What a step of one node leaves alone: the other nodes and the messages already sent. */
module ClusterFrame {
  import opened Entries
  import opened LogView
  import opened RaftNode
  import opened Consensus
  import opened Cluster

  /** Node `n` still holds every entry that was settled in its log. */
  ghost predicate Retains(h: History, h': History, n: NodeId)
    requires n in h.term && n in h.log && n in h'.log
  {
    forall k: nat {:trigger Settled(h, h.term[n], h.log[n], k)} | Settled(h, h.term[n], h.log[n], k) ::
      Agree(h.log[n], h'.log[n], k)
  }

  /** `h'` continues `h` and nobody loses settled entries. */
  ghost predicate Follows(h: History, h': History) {
    Extends(h, h') && forall n {:trigger Retains(h, h', n)} | n in h.members :: Retains(h, h', n)
  }

  lemma RetainsSame(h: History, h': History, n: NodeId)
    requires n in h.term && n in h.log && n in h'.log
    requires Agree(h.log[n], h'.log[n], |h.log[n]|)
    ensures Retains(h, h', n)
  {
  }

  /** From `h` to `h'` only node `n` voted, came to lead, changed its term or changed its log. */
  ghost predicate ActsOnly(h: History, h': History, n: NodeId) {
    && Extends(h, h')
    && (forall m | m in h.members && m != n :: h'.term[m] == h.term[m] && h'.log[m] == h.log[m])
    && (forall v | v in h'.votes :: v in h.votes || v.0 == n)
    && (forall t | t in h'.reigns :: t in h.reigns || h'.reigns[t].leader == n)
    && (n in h.members ==> Retains(h, h', n))
  }

  lemma ActsFollows(h: History, h': History, n: NodeId)
    requires ActsOnly(h, h', n)
    ensures Follows(h, h')
  {
    forall m | m in h.members ensures Retains(h, h', m) {
      if m != n {
        RetainsSame(h, h', m);
      }
    }
  }

  lemma AgreeSlices(a: seq<Entry>, b: seq<Entry>, i: nat, j: nat)
    requires i <= j && Agree(a, b, j)
    ensures a[i..j] == b[i..j] && TermOf(a, i) == TermOf(b, i)
  {
  }

  lemma {:induction false} FoldAgrees<S>(app: App<S>, a: seq<Entry>, b: seq<Entry>, k: nat)
    requires Agree(a, b, k)
    ensures Fold(app, a, k) == Fold(app, b, k)
  {
    if k > 0 {
      FoldAgrees(app, a, b, k - 1);
    }
  }

  lemma GrantedGrows(h: History, h': History, n: NodeId, t: nat, awaiting: set<NodeId>)
    requires Extends(h, h')
    ensures |Granted(h, n, t, awaiting)| <= |Granted(h', n, t, awaiting)|
  {
    SubsetCardinality(Granted(h, n, t, awaiting), Granted(h', n, t, awaiting));
  }

  lemma CandidateKept<S>(h: History, h': History, n: NodeId, s: Node<S>)
    requires Extends(h, h') && CandidateOk(h, n, s) && n in h.members && h'.log[n] == h.log[n]
    requires s.currentTerm in h'.reigns && h'.reigns[s.currentTerm].leader == n ==> s.currentTerm in h.reigns
    ensures CandidateOk(h', n, s)
  {
    GrantedGrows(h, h', n, s.currentTerm, s.awaiting);
  }

  lemma LeaderNodeKept<S>(h: History, h': History, n: NodeId, s: Node<S>)
    requires Extends(h, h') && LeaderNodeOk(h, n, s) && n in h.members && |h'.log[n]| >= |h.log[n]|
    requires WellConnected(h.members, n, s.peers)
    ensures LeaderNodeOk(h', n, s)
  {
    if s.role == Leader {
      forall p | p in s.peers ensures PeerOk(h', s, p, |h'.log[n]|) {
        assert PeerOk(h, s, p, |h.log[n]|);
        assert p in PeerSet(s.peers);
        assert Acked(h, p, s.currentTerm) <= Acked(h', p, s.currentTerm);
      }
    }
  }

  lemma ProgressKept<S>(app: App<S>, h: History, h': History, n: NodeId, s: Node<S>)
    requires Extends(h, h') && ProgressOk(app, h, n, s) && h'.log[n] == h.log[n]
    ensures ProgressOk(app, h', n, s)
  {
    SettledStable(h, h', s.currentTerm, s.currentTerm, h.log[n], s.commitIndex);
  }

  lemma OtherNodeKept<S>(app: App<S>, h: History, h': History, n: NodeId, m: NodeId, s: Node<S>)
    requires ActsOnly(h, h', n) && NodeInv(app, h, m, s) && m != n
    ensures NodeInv(app, h', m, s)
  {
    CandidateKept(h, h', m, s);
    LeaderNodeKept(h, h', m, s);
    ProgressKept(app, h, h', m, s);
  }

  lemma AppendRequestKept(h: History, h': History, a: AppendArgs)
    requires Extends(h, h') && AppendRequestOk(h, a)
    ensures AppendRequestOk(h', a)
  {
    var log, log' := h.reigns[a.term].log, h'.reigns[a.term].log;
    AgreeSlices(log, log', a.prevIndex, a.LastNew());
    SettledStable(h, h', a.term, a.term, log, a.leaderCommit);
    SettledAgree(h', a.term, log, a.leaderCommit, log', a.leaderCommit);
  }

  lemma SnapRequestKept<S>(app: App<S>, h: History, h': History, a: SnapArgs)
    requires Extends(h, h') && SnapRequestOk(app, h, a)
    ensures SnapRequestOk(app, h', a)
  {
    var log, log' := h.reigns[a.term].log, h'.reigns[a.term].log;
    FoldAgrees(app, log, log', a.lastIndex);
    SettledStable(h, h', a.term, a.term, log, a.lastIndex);
    SettledAgree(h', a.term, log, a.lastIndex, log', a.lastIndex);
  }

  lemma MessageKept<S>(app: App<S>, h: History, h': History, m: Message)
    requires Extends(h, h') && MessageOk(app, h, m)
    ensures MessageOk(app, h', m)
  {
    match m {
      case VoteRequest(_, _) =>
      case VoteResponse(_, _, _) =>
      case AppendRequest(_, a) => AppendRequestKept(h, h', a);
      case AppendResponse(from, a, _) =>
        AppendRequestKept(h, h', a);
        assert Acked(h, from, a.term) <= Acked(h', from, a.term);
      case SnapRequest(_, a) => SnapRequestKept(app, h, h', a);
      case SnapResponse(_, a, _) => SnapRequestKept(app, h, h', a);
    }
  }

  /** The node keeps leading the same term with no smaller commit index, or does not lead, or has
      just won its election. */
  ghost predicate LeadsOn<S>(s: Node<S>, s': Node<S>) {
    s'.role == Leader ==>
      s.role != Follower && s'.currentTerm == s.currentTerm && s.commitIndex <= s'.commitIndex
  }

  lemma SnapCoveredKept<S>(app: App<S>, c: State<S>, h: History, n: NodeId, s': Node<S>, sent: set<Message>, m: Message)
    requires n in c.nodes && CandidateOk(h, n, c.nodes[n]) && MessageOk(app, h, m) && SnapCovered(c, m)
    requires LeadsOn(c.nodes[n], s')
    ensures SnapCovered(Put(c, n, s', sent), m)
  {
  }

  /** A step of node `n` keeps the cluster invariant if it leaves `n` and what it sent in order. */
  lemma StepKeepsInv<S>(app: App<S>, c: State<S>, h: History, h': History, n: NodeId, s': Node<S>, sent: set<Message>)
    requires ClusterInv(app, c, h) && n in c.nodes
    requires Inv(h') && ActsOnly(h, h', n)
    requires NodeInv(app, h', n, s') && LeadsOn(c.nodes[n], s')
    requires forall m | m in sent :: MessageOk(app, h', m) && SnapCovered(Put(c, n, s', sent), m)
    ensures ClusterInv(app, Put(c, n, s', sent), h') && Follows(h, h')
  {
    ActsFollows(h, h', n);
    NodesStep(app, c, h, h', n, s', sent);
    NetStep(app, c, h, h', n, s', sent);
  }

  /** A step that sends one message other than a snapshot. */
  lemma ReplyStep<S>(app: App<S>, c: State<S>, h: History, h': History, n: NodeId, s': Node<S>, m: Message)
    requires ClusterInv(app, c, h) && n in c.nodes
    requires Inv(h') && ActsOnly(h, h', n)
    requires NodeInv(app, h', n, s') && LeadsOn(c.nodes[n], s')
    requires MessageOk(app, h', m) && SnapArgsOf(m).None?
    ensures ClusterInv(app, Put(c, n, s', {m}), h') && Follows(h, h')
  {
    StepKeepsInv(app, c, h, h', n, s', {m});
  }

  lemma NodesStep<S>(app: App<S>, c: State<S>, h: History, h': History, n: NodeId, s': Node<S>, sent: set<Message>)
    requires NodesInv(app, c, h) && n in c.nodes && ActsOnly(h, h', n) && NodeInv(app, h', n, s')
    ensures NodesInv(app, Put(c, n, s', sent), h')
  {
    var c' := Put(c, n, s', sent);
    forall m | m in c'.nodes ensures NodeInv(app, h', m, c'.nodes[m]) {
      if m != n {
        assert NodeInv(app, h, m, c.nodes[m]);
        OtherNodeKept(app, h, h', n, m, c.nodes[m]);
      }
    }
  }

  lemma NetStep<S>(app: App<S>, c: State<S>, h: History, h': History, n: NodeId, s': Node<S>, sent: set<Message>)
    requires NetInv(app, c, h) && NodesInv(app, c, h) && n in c.nodes && Extends(h, h') && LeadsOn(c.nodes[n], s')
    requires forall m | m in sent :: MessageOk(app, h', m) && SnapCovered(Put(c, n, s', sent), m)
    ensures NetInv(app, Put(c, n, s', sent), h')
  {
    var c' := Put(c, n, s', sent);
    assert NodeInv(app, h, n, c.nodes[n]);
    forall m | m in c'.net ensures MessageOk(app, h', m) && SnapCovered(c', m) {
      if m in c.net {
        assert MessageOk(app, h, m) && SnapCovered(c, m);
        MessageKept(app, h, h', m);
        SnapCoveredKept(app, c, h, n, s', sent, m);
      }
    }
  }
}
