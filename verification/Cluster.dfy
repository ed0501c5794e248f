/** A cluster of Raft nodes over a network that loses, duplicates and reorders messages, and the
    invariant that ties it to the consensus core. */
module Cluster {
  import opened Entries
  import opened LogView
  import opened RaftNode
  import opened Consensus

  /** A message in flight. Responses carry the request they answer, as the calling goroutine does. */
  datatype Message =
    | VoteRequest(to: NodeId, va: VoteArgs)
    | VoteResponse(from: NodeId, va: VoteArgs, vr: VoteReply)
    | AppendRequest(to: NodeId, aa: AppendArgs)
    | AppendResponse(from: NodeId, aa: AppendArgs, ar: AppendReply)
    | SnapRequest(to: NodeId, sa: SnapArgs)
    | SnapResponse(from: NodeId, sa: SnapArgs, sr: SnapReply)

  /** The network only grows: a lost message is one that is never taken up, a duplicated or late one
      is taken up again or later. */
  datatype State<S> = State(nodes: map<NodeId, Node<S>>, net: set<Message>)

  datatype Step =
    | Timeout(n: NodeId)
    | TakeVoteRequest(m: Message)
    | TakeVoteResponse(m: Message)
    | Submit(n: NodeId, data: seq<Byte>)
    | Replicate(n: NodeId, peer: NodeId)
    | TakeAppendRequest(m: Message)
    | TakeAppendResponse(m: Message)
    | TakeSnapRequest(m: Message)
    | TakeSnapResponse(m: Message)
    | Apply(n: NodeId)
    | Crash(n: NodeId)
    | CrashOnNewTerm(n: NodeId, m: Message)        // the newer term reached the disk, nothing else did
    | CrashOnAppend(m: Message, kept: nat)         // the append stopped after `kept` entries
    | CrashOnCut(m: Message)                       // the append stopped after cutting a conflicting tail

  function TermOfMessage(m: Message): nat {
    match m
    case VoteRequest(_, a) => a.term
    case VoteResponse(_, _, r) => r.term
    case AppendRequest(_, a) => a.term
    case AppendResponse(_, _, r) => r.term
    case SnapRequest(_, a) => a.term
    case SnapResponse(_, _, r) => r.term
  }

  /** The log after cutting at the first conflict with `es`, before anything is appended. */
  function CutConflict(v: View, prev: nat, es: seq<Entry>, i: nat): View
    requires i <= |es|
    decreases |es| - i
  {
    if i == |es| then v
    else
      var idx := prev + 1 + i;
      if idx <= v.LastIndex() && v.TermOrZero(idx) == es[i].term then CutConflict(v, prev, es, i + 1)
      else v.TruncateSuffix(idx)
  }

  /** The handler of `args` got past the consistency check and was about to write entries. */
  predicate ReachesAppend<S>(s: Node<S>, args: AppendArgs) {
    args.term >= s.currentTerm && Conflict(s.log, args.term, args).None?
  }

  predicate Enabled<S>(c: State<S>, step: Step) {
    match step
    case Timeout(n) => n in c.nodes
    case TakeVoteRequest(m) => m.VoteRequest? && m in c.net && m.to in c.nodes
    case TakeVoteResponse(m) => m.VoteResponse? && m in c.net && m.va.candidate in c.nodes
    case Submit(n, _) => n in c.nodes
    case Replicate(n, peer) => n in c.nodes && c.nodes[n].role == Leader && peer in c.nodes[n].peers
    case TakeAppendRequest(m) => m.AppendRequest? && m in c.net && m.to in c.nodes
    case TakeAppendResponse(m) => m.AppendResponse? && m in c.net && m.aa.leader in c.nodes
    case TakeSnapRequest(m) => m.SnapRequest? && m in c.net && m.to in c.nodes
    case TakeSnapResponse(m) => m.SnapResponse? && m in c.net && m.sa.leader in c.nodes
    case Apply(n) => n in c.nodes
    case Crash(n) => n in c.nodes
    case CrashOnNewTerm(n, m) => n in c.nodes && m in c.net
    case CrashOnAppend(m, kept) =>
      && m.AppendRequest? && m in c.net && m.to in c.nodes
      && ReachesAppend(c.nodes[m.to], m.aa) && kept <= |m.aa.entries|
    case CrashOnCut(m) =>
      m.AppendRequest? && m in c.net && m.to in c.nodes && ReachesAppend(c.nodes[m.to], m.aa)
  }

  function Put<S>(c: State<S>, n: NodeId, s: Node<S>, sent: set<Message>): State<S> {
    State(c.nodes[n := s], c.net + sent)
  }

  function VoteRequestsOf<S>(s: Node<S>): set<Message> {
    set p | p in s.peers :: VoteRequest(p, VoteRequestOf(s))
  }

  function Do<S>(app: App<S>, c: State<S>, step: Step): State<S>
    requires Enabled(c, step)
  {
    match step
    case Timeout(n) =>
      var s := StartElection(c.nodes[n]);
      Put(c, n, s, if c.nodes[n].role == Leader then {} else VoteRequestsOf(s))
    case TakeVoteRequest(m) =>
      var (s, r) := HandleRequestVote(c.nodes[m.to], m.va);
      Put(c, m.to, s, {VoteResponse(m.to, m.va, r)})
    case TakeVoteResponse(m) =>
      Put(c, m.va.candidate, OnVoteReply(c.nodes[m.va.candidate], m.from, m.va.term, m.vr), {})
    case Submit(n, data) => Put(c, n, Propose(c.nodes[n], data), {})
    case Replicate(n, peer) =>
      var s := c.nodes[n];
      Put(c, n, s, {if NeedsSnapshot(s, peer) then SnapRequest(peer, SnapRequestOf(s))
                    else AppendRequest(peer, AppendRequestOf(s, peer))})
    case TakeAppendRequest(m) =>
      var (s, r) := HandleAppendEntries(c.nodes[m.to], m.aa);
      Put(c, m.to, s, {AppendResponse(m.to, m.aa, r)})
    case TakeAppendResponse(m) =>
      Put(c, m.aa.leader, OnAppendReply(c.nodes[m.aa.leader], m.from, m.aa, m.ar), {})
    case TakeSnapRequest(m) =>
      var (s, r) := HandleInstallSnapshot(app, c.nodes[m.to], m.sa);
      Put(c, m.to, s, {SnapResponse(m.to, m.sa, r)})
    case TakeSnapResponse(m) =>
      Put(c, m.sa.leader, OnSnapReply(c.nodes[m.sa.leader], m.from, m.sa, m.sr), {})
    case Apply(n) => Put(c, n, ApplyNext(app, c.nodes[n]), {})
    case Crash(n) => Put(c, n, Restart(app, c.nodes[n]), {})
    case CrashOnNewTerm(n, m) => Put(c, n, Restart(app, BecomeFollower(c.nodes[n], TermOfMessage(m))), {})
    case CrashOnAppend(m, kept) =>
      var s := BecomeFollower(c.nodes[m.to], m.aa.term);
      Put(c, m.to, Restart(app, s.(log := AppendMissing(s.log, m.aa.prevIndex, m.aa.entries[..kept], 0))), {})
    case CrashOnCut(m) =>
      var s := BecomeFollower(c.nodes[m.to], m.aa.term);
      Put(c, m.to, Restart(app, s.(log := CutConflict(s.log, m.aa.prevIndex, m.aa.entries, 0))), {})
  }

  ghost predicate Next<S(!new)>(app: App<S>, c: State<S>, c': State<S>) {
    exists step :: Enabled(c, step) && c' == Do(app, c, step)
  }

  // ---- Start ----

  predicate Distinct(ps: seq<NodeId>) {
    forall i, j | 0 <= i < j < |ps| :: ps[i] != ps[j]
  }

  /** Peer lists are distinct, leave out the node itself, and name every other node. */
  ghost predicate WellConnected(members: set<NodeId>, n: NodeId, peers: seq<NodeId>) {
    && n > 0
    && Distinct(peers)
    && PeerSet(peers) == members - {n}
  }

  ghost predicate Init<S(!new)>(app: App<S>, c: State<S>) {
    && c.net == {}
    && forall n | n in c.nodes ::
      && WellConnected(c.nodes.Keys, n, c.nodes[n].peers)
      && c.nodes[n] == Boot(app, n, c.nodes[n].peers, c.nodes[n].threshold)
  }

  // ---- State machines ----

  /** The machine after applying the first `k` entries of `log` in order. */
  ghost function Fold<S>(app: App<S>, log: seq<Entry>, k: nat): S
    requires k <= |log|
  {
    if k == 0 then app.init else app.apply(Fold(app, log, k - 1), log[k - 1])
  }

  /** Loading a saved machine gives it back. */
  ghost predicate AppOk<S(!new)>(app: App<S>) {
    forall x: S :: app.load(app.save(x)) == x
  }

  // ---- The invariant ----

  /** `v` is the log `log` compacted at its boundary, with the machine's image there as snapshot. */
  ghost predicate ViewOk<S>(app: App<S>, v: View, log: seq<Entry>) {
    && v.snapIndex <= |log|
    && v.entries == log[v.snapIndex..]
    && v.snapTerm == TermOf(log, v.snapIndex)
    && (v.snapIndex > 0 ==> v.snapData == app.save(Fold(app, log, v.snapIndex)))
  }

  ghost predicate DurableOk<S>(h: History, n: NodeId, s: Node<S>) {
    && s.saved == HardState(s.currentTerm, s.votedFor)
    && n in h.term && h.term[n] == s.currentTerm
    && (s.votedFor == 0 ==> (n, s.currentTerm) !in h.votes)
    && (s.votedFor != 0 ==> (n, s.currentTerm) in h.votes && h.votes[(n, s.currentTerm)] == s.votedFor)
  }

  ghost predicate ProgressOk<S>(app: App<S>, h: History, n: NodeId, s: Node<S>) {
    && n in h.log
    && ViewOk(app, s.log, h.log[n])
    && s.log.snapIndex <= s.lastApplied <= s.commitIndex <= |h.log[n]|
    && Settled(h, s.currentTerm, h.log[n], s.commitIndex)
    && s.machine == Fold(app, h.log[n], s.lastApplied)
  }

  /** Peers whose vote for `n` in `t` has been counted. */
  ghost function Granted(h: History, n: NodeId, t: nat, awaiting: set<NodeId>): set<NodeId> {
    set p | p in h.members && p != n && p !in awaiting && (p, t) in h.votes && h.votes[(p, t)] == n
  }

  /** A candidate stands with its own log, does not lead yet, and counted only real votes. */
  ghost predicate CandidateOk<S>(h: History, n: NodeId, s: Node<S>) {
    match s.role
    case Candidate =>
      && s.currentTerm > 0
      && n in h.log && (n, s.currentTerm) in h.ballots && h.ballots[(n, s.currentTerm)] == h.log[n]
      && !(s.currentTerm in h.reigns && h.reigns[s.currentTerm].leader == n)
      && s.votes <= 1 + |Granted(h, n, s.currentTerm, s.awaiting)|
    case _ => true
  }

  /** A match index above the commit index is a real acknowledgement; probes stay within the log. */
  ghost predicate PeerOk<S>(h: History, s: Node<S>, p: NodeId, last: nat) {
    && Get(s.matchIndex, p) <= Max(s.commitIndex, Acked(h, p, s.currentTerm))
    && Get(s.nextIndex, p) <= last + 1
  }

  ghost predicate LeaderNodeOk<S>(h: History, n: NodeId, s: Node<S>) {
    match s.role
    case Leader =>
      && s.currentTerm in h.reigns && h.reigns[s.currentTerm].leader == n
      && n in h.log
      && forall p {:trigger PeerOk(h, s, p, |h.log[n]|)} | p in s.peers :: PeerOk(h, s, p, |h.log[n]|)
    case _ => true
  }

  ghost predicate NodeInv<S>(app: App<S>, h: History, n: NodeId, s: Node<S>) {
    && s.id == n
    && n in h.members
    && WellConnected(h.members, n, s.peers)
    && DurableOk(h, n, s)
    && ProgressOk(app, h, n, s)
    && CandidateOk(h, n, s)
    && LeaderNodeOk(h, n, s)
  }

  ghost predicate VoteRequestOk(h: History, a: VoteArgs) {
    && a.candidate > 0
    && (a.candidate, a.term) in h.ballots
    && a.lastIndex == |h.ballots[(a.candidate, a.term)]|
    && a.lastTerm == LastTerm(h.ballots[(a.candidate, a.term)])
  }

  /** An append carries a stretch of its leader's log and a settled commit index. */
  ghost predicate AppendRequestOk(h: History, a: AppendArgs) {
    && a.term in h.reigns
    && h.reigns[a.term].leader == a.leader
    && var log := h.reigns[a.term].log;
    && a.LastNew() <= |log|
    && a.entries == log[a.prevIndex..a.LastNew()]
    && a.prevTerm == TermOf(log, a.prevIndex)
    && a.leaderCommit <= |log|
    && Settled(h, a.term, log, a.leaderCommit)
  }

  ghost predicate SnapRequestOk<S>(app: App<S>, h: History, a: SnapArgs) {
    && a.term in h.reigns
    && h.reigns[a.term].leader == a.leader
    && var log := h.reigns[a.term].log;
    && 0 < a.lastIndex <= |log|
    && a.lastTerm == TermOf(log, a.lastIndex)
    && a.data == app.save(Fold(app, log, a.lastIndex))
    && Settled(h, a.term, log, a.lastIndex)
  }

  /** A success was acknowledged; a rejection in the request's own term points into the leader's log. */
  ghost predicate AppendResponseOk(h: History, from: NodeId, a: AppendArgs, r: AppendReply) {
    && a.term in h.reigns
    && (r.success ==> a.LastNew() <= Acked(h, from, a.term))
    && (!r.success && r.term <= a.term ==> r.conflictIndex <= |h.reigns[a.term].log| + 1)
  }

  ghost predicate MessageOk<S>(app: App<S>, h: History, m: Message) {
    match m
    case VoteRequest(to, a) => VoteRequestOk(h, a) && to != a.candidate
    case VoteResponse(from, a, r) =>
      from != a.candidate && (r.granted ==> (from, a.term) in h.votes && h.votes[(from, a.term)] == a.candidate)
    case AppendRequest(to, a) => AppendRequestOk(h, a)
    case AppendResponse(from, a, r) => from in h.members && AppendRequestOk(h, a) && AppendResponseOk(h, from, a, r)
    case SnapRequest(to, a) => SnapRequestOk(app, h, a)
    case SnapResponse(from, a, r) => from in h.members && SnapRequestOk(app, h, a)
  }

  function SnapArgsOf(m: Message): Option<SnapArgs> {
    match m
    case SnapRequest(_, a) => Some(a)
    case SnapResponse(_, a, _) => Some(a)
    case _ => None
  }

  /** A snapshot in flight is covered by its sender's commit index while that sender still leads. */
  ghost predicate SnapCovered<S>(c: State<S>, m: Message) {
    match SnapArgsOf(m)
    case None => true
    case Some(a) =>
      a.leader in c.nodes && c.nodes[a.leader].role == Leader && c.nodes[a.leader].currentTerm == a.term ==>
        a.lastIndex <= c.nodes[a.leader].commitIndex
  }

  ghost predicate NodesInv<S>(app: App<S>, c: State<S>, h: History) {
    && c.nodes.Keys == h.members
    && forall n {:trigger NodeInv(app, h, n, c.nodes[n])} | n in c.nodes :: NodeInv(app, h, n, c.nodes[n])
  }

  ghost predicate NetInv<S>(app: App<S>, c: State<S>, h: History) {
    forall m {:trigger MessageOk(app, h, m)} {:trigger SnapCovered(c, m)} | m in c.net ::
      MessageOk(app, h, m) && SnapCovered(c, m)
  }

  ghost predicate ClusterInv<S>(app: App<S>, c: State<S>, h: History) {
    Inv(h) && NodesInv(app, c, h) && NetInv(app, c, h)
  }
}
