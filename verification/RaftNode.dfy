/** One Raft node as a value, and each of its mutex-guarded blocks as a step on that value. */
module RaftNode {
  import opened Entries
  import opened LogView

  datatype Role = Follower | Candidate | Leader

  /** The user's state machine: how it starts, applies an entry, and is saved and loaded. */
  datatype App<!S> = App(init: S, apply: (S, Entry) -> S, save: S -> seq<Byte>, load: seq<Byte> -> S)

  /** What is on disk besides the log: the current term and the vote given in it. */
  datatype HardState = HardState(term: nat, votedFor: NodeId)

  datatype Node<S> = Node(
    id: NodeId,
    peers: seq<NodeId>,
    threshold: nat,                    // compact after this many entries; 0 disables compaction
    saved: HardState,
    log: View,
    role: Role,
    currentTerm: nat,
    votedFor: NodeId,
    leaderId: NodeId,
    commitIndex: nat,
    lastApplied: nat,
    nextIndex: map<NodeId, nat>,
    matchIndex: map<NodeId, nat>,
    machine: S,
    votes: nat,                        // votes counted in the current election
    awaiting: set<NodeId>)             // peers whose vote reply has not been handled yet

  // ---- RPC payloads ----

  datatype VoteArgs = VoteArgs(term: nat, candidate: NodeId, lastIndex: nat, lastTerm: nat)
  datatype VoteReply = VoteReply(term: nat, granted: bool)
  datatype AppendArgs = AppendArgs(
    term: nat, leader: NodeId, prevIndex: nat, prevTerm: nat, entries: seq<Entry>, leaderCommit: nat)
  {
    /** The index of the last new entry. */
    function LastNew(): nat {
      prevIndex + |entries|
    }
  }
  datatype AppendReply = AppendReply(term: nat, success: bool, conflictTerm: nat, conflictIndex: nat)
  datatype SnapArgs = SnapArgs(term: nat, leader: NodeId, lastIndex: nat, lastTerm: nat, data: seq<Byte>)
  datatype SnapReply = SnapReply(term: nat)

  /** A map read the way Go reads one: a missing key is 0. */
  function Get(m: map<NodeId, nat>, p: NodeId): nat {
    if p in m then m[p] else 0
  }

  function PeerSet(peers: seq<NodeId>): set<NodeId> {
    set p | p in peers
  }

  function Majority(peers: seq<NodeId>): nat {
    (|peers| + 1) / 2 + 1
  }

  // ---- Role transitions ----

  function Persist<S>(s: Node<S>): Node<S> {
    s.(saved := HardState(s.currentTerm, s.votedFor))
  }

  function BecomeFollower<S>(s: Node<S>, term: nat): Node<S> {
    if term > s.currentTerm then Persist(s.(currentTerm := term, votedFor := 0, role := Follower))
    else s.(role := Follower)
  }

  /** The map with the first `k` of `ps` set to `v`. */
  function SetAll(m: map<NodeId, nat>, ps: seq<NodeId>, v: nat, k: nat): map<NodeId, nat>
    requires k <= |ps|
  {
    if k == 0 then m else SetAll(m, ps, v, k - 1)[ps[k - 1] := v]
  }

  lemma {:induction false} SetAllSets(m: map<NodeId, nat>, ps: seq<NodeId>, v: nat, k: nat, p: NodeId)
    requires k <= |ps|
    ensures Get(SetAll(m, ps, v, k), p) == if p in ps[..k] then v else Get(m, p)
  {
    if k > 0 {
      SetAllSets(m, ps, v, k - 1, p);
      assert ps[..k] == ps[..k - 1] + [ps[k - 1]];
    }
  }

  function BecomeLeader<S>(s: Node<S>): Node<S> {
    s.(role := Leader,
       leaderId := s.id,
       nextIndex := SetAll(s.nextIndex, s.peers, s.log.LastIndex() + 1, |s.peers|),
       matchIndex := SetAll(s.matchIndex, s.peers, 0, |s.peers|),
       log := s.log.Append(s.currentTerm, KIND_NOOP, []))
  }

  // ---- Election ----

  function StartElection<S>(s: Node<S>): Node<S> {
    if s.role == Leader then s
    else Persist(s.(role := Candidate, currentTerm := s.currentTerm + 1, votedFor := s.id,
                    votes := 1, awaiting := PeerSet(s.peers)))
  }

  function VoteRequestOf<S>(s: Node<S>): VoteArgs {
    VoteArgs(s.currentTerm, s.id, s.log.LastIndex(), s.log.TermOrZero(s.log.LastIndex()))
  }

  function CatchUp<S>(s: Node<S>, term: nat): Node<S> {
    if term > s.currentTerm then BecomeFollower(s, term) else s
  }

  function HandleRequestVote<S>(s: Node<S>, args: VoteArgs): (Node<S>, VoteReply) {
    if args.term < s.currentTerm then (s, VoteReply(s.currentTerm, false))
    else
      var s := CatchUp(s, args.term);
      var lastIndex := s.log.LastIndex();
      var lastTerm := s.log.TermOrZero(lastIndex);
      var upToDate := args.lastTerm > lastTerm || (args.lastTerm == lastTerm && args.lastIndex >= lastIndex);
      if (s.votedFor == 0 || s.votedFor == args.candidate) && upToDate then
        (Persist(s.(votedFor := args.candidate)), VoteReply(s.currentTerm, true))
      else (s, VoteReply(s.currentTerm, false))
  }

  /** The election the reply belongs to is over, or this peer's goroutine has already run. */
  predicate IgnoresVote<S>(s: Node<S>, peer: NodeId, term: nat) {
    s.currentTerm != term || s.role != Candidate || peer !in s.awaiting
  }

  function CountReply<S>(s: Node<S>, peer: NodeId, granted: bool): Node<S> {
    s.(awaiting := s.awaiting - {peer}, votes := s.votes + if granted then 1 else 0)
  }

  /** The peer's goroutine handles its one reply to the vote request of term `term`. */
  function OnVoteReply<S>(s: Node<S>, peer: NodeId, term: nat, reply: VoteReply): Node<S> {
    if IgnoresVote(s, peer, term) then s
    else if reply.term > s.currentTerm then BecomeFollower(CountReply(s, peer, false), reply.term)
    else
      var s := CountReply(s, peer, reply.granted);
      if reply.granted && s.votes >= Majority(s.peers) then BecomeLeader(s) else s
  }

  // ---- Replication, leader side ----

  function Propose<S>(s: Node<S>, data: seq<Byte>): Node<S> {
    if s.role != Leader then s else s.(log := s.log.Append(s.currentTerm, KIND_COMMAND, data))
  }

  function ProbeIndex<S>(s: Node<S>, peer: NodeId): nat {
    Max(1, Get(s.nextIndex, peer))
  }

  predicate NeedsSnapshot<S>(s: Node<S>, peer: NodeId) {
    ProbeIndex(s, peer) <= s.log.snapIndex
  }

  function SnapRequestOf<S>(s: Node<S>): SnapArgs {
    SnapArgs(s.currentTerm, s.id, s.log.snapIndex, s.log.snapTerm, s.log.snapData)
  }

  function AppendRequestOf<S>(s: Node<S>, peer: NodeId): AppendArgs {
    var ni := ProbeIndex(s, peer);
    AppendArgs(s.currentTerm, s.id, ni - 1, s.log.TermOrZero(ni - 1), s.log.From(ni), s.commitIndex)
  }

  /** The leader itself and those of the first `k` peers whose match index reaches `n`. */
  function MatchCount(peers: seq<NodeId>, matchIndex: map<NodeId, nat>, n: nat, k: nat): nat
    requires k <= |peers|
  {
    if k == 0 then 1
    else MatchCount(peers, matchIndex, n, k - 1) + if Get(matchIndex, peers[k - 1]) >= n then 1 else 0
  }

  /** The leader may commit `n`: an entry of its own term on a majority. */
  predicate Committable<S>(s: Node<S>, n: nat) {
    s.log.TermAt(n) == Some(s.currentTerm) && MatchCount(s.peers, s.matchIndex, n, |s.peers|) >= Majority(s.peers)
  }

  /** The largest committable index in (commitIndex, n], or commitIndex if there is none. */
  function LargestCommittable<S>(s: Node<S>, n: nat): nat {
    if n <= s.commitIndex then s.commitIndex
    else if Committable(s, n) then n
    else LargestCommittable(s, n - 1)
  }

  /** The commit scan's answer: committable, and nothing above it is. */
  lemma {:induction false} LargestIsLargest<S>(s: Node<S>, n: nat)
    ensures var k := LargestCommittable(s, n);
      && k >= s.commitIndex && (k > s.commitIndex ==> k <= n && Committable(s, k))
      && forall m: nat | k < m <= n :: !Committable(s, m)
  {
    if n > s.commitIndex && !Committable(s, n) {
      LargestIsLargest(s, n - 1);
    }
  }

  function AdvanceCommit<S>(s: Node<S>): Node<S> {
    s.(commitIndex := LargestCommittable(s, s.log.LastIndex()))
  }

  function RaiseMatch<S>(s: Node<S>, peer: NodeId, index: nat): Node<S> {
    var m := Max(Get(s.matchIndex, peer), index);
    s.(matchIndex := s.matchIndex[peer := m], nextIndex := s.nextIndex[peer := m + 1])
  }

  function Acknowledge<S>(s: Node<S>, peer: NodeId, index: nat): Node<S> {
    AdvanceCommit(RaiseMatch(s, peer, index))
  }

  /** Where the leader resumes probing after a rejection. */
  function BackUp(log: View, reply: AppendReply): nat {
    if reply.conflictTerm == 0 then Max(1, reply.conflictIndex)
    else
      var last := LastIndexWithTerm(log, reply.conflictTerm, log.LastIndex());
      if last > 0 then last + 1 else Max(1, reply.conflictIndex)
  }

  function OnAppendReply<S>(s: Node<S>, peer: NodeId, args: AppendArgs, reply: AppendReply): Node<S> {
    if s.currentTerm != args.term || s.role != Leader then s
    else if reply.term > s.currentTerm then BecomeFollower(s, reply.term)
    else if reply.success then Acknowledge(s, peer, args.LastNew())
    else s.(nextIndex := s.nextIndex[peer := BackUp(s.log, reply)])
  }

  function OnSnapReply<S>(s: Node<S>, peer: NodeId, args: SnapArgs, reply: SnapReply): Node<S> {
    if s.currentTerm != args.term || s.role != Leader then s
    else if reply.term > s.currentTerm then BecomeFollower(s, reply.term)
    else Acknowledge(s, peer, args.lastIndex)
  }

  // ---- Replication, follower side ----

  /** The answer to an append whose term is current: a rejection with its hint, or nothing yet. */
  function Conflict(log: View, term: nat, args: AppendArgs): Option<AppendReply> {
    if args.prevIndex < log.snapIndex then Some(AppendReply(term, false, 0, log.snapIndex + 1))
    else if args.prevIndex > log.LastIndex() then Some(AppendReply(term, false, 0, log.LastIndex() + 1))
    else if args.prevIndex >= 1 && log.TermOrZero(args.prevIndex) != args.prevTerm then
      var ours := log.TermOrZero(args.prevIndex);
      Some(AppendReply(term, false, ours, FirstIndexWithTerm(log, ours, 1)))
    else None
  }

  /** The term rules every request from a current leader starts with. */
  function FollowLeader<S>(s: Node<S>, term: nat, leader: NodeId): Node<S> {
    BecomeFollower(s, term).(leaderId := leader)
  }

  /** The accepted append: merge the entries, then commit up to the last new one. */
  function TakeEntries<S>(s: Node<S>, args: AppendArgs): Node<S> {
    s.(log := AppendMissing(s.log, args.prevIndex, args.entries, 0),
       commitIndex := Max(s.commitIndex, Min(args.leaderCommit, args.LastNew())))
  }

  /** The consistency check and, if it passes, the append. */
  function AnswerAppend<S>(s: Node<S>, args: AppendArgs): (Node<S>, AppendReply) {
    match Conflict(s.log, args.term, args)
    case Some(reply) => (s, reply)
    case None => (TakeEntries(s, args), AppendReply(args.term, true, 0, 0))
  }

  function HandleAppendEntries<S>(s: Node<S>, args: AppendArgs): (Node<S>, AppendReply) {
    if args.term < s.currentTerm then (s, AppendReply(s.currentTerm, false, 0, 0))
    else AnswerAppend(FollowLeader(s, args.term, args.leader), args)
  }

  function TakeSnapshot<S>(app: App<S>, s: Node<S>, args: SnapArgs): Node<S> {
    s.(log := s.log.InstallSnapshot(args.lastIndex, args.lastTerm, args.data),
       machine := app.load(args.data),
       lastApplied := args.lastIndex,
       commitIndex := Max(s.commitIndex, args.lastIndex))
  }

  /** Takes the snapshot unless the node already covers it. */
  function AnswerSnapshot<S>(app: App<S>, s: Node<S>, args: SnapArgs): Node<S> {
    if args.lastIndex <= s.log.snapIndex || args.lastIndex <= s.commitIndex then s else TakeSnapshot(app, s, args)
  }

  function HandleInstallSnapshot<S>(app: App<S>, s: Node<S>, args: SnapArgs): (Node<S>, SnapReply) {
    if args.term < s.currentTerm then (s, SnapReply(s.currentTerm))
    else (AnswerSnapshot(app, FollowLeader(s, args.term, args.leader), args), SnapReply(args.term))
  }

  // ---- Applying and compacting ----

  function MaybeSnapshot<S>(app: App<S>, s: Node<S>, idx: nat): Node<S> {
    if s.threshold == 0 || (s.log.snapIndex <= idx && idx - s.log.snapIndex < s.threshold) then s
    else
      match s.log.TermAt(idx)
      case None => s
      case Some(t) => s.(log := s.log.Snapshot(idx, t, app.save(s.machine)))
  }

  /** One turn of the apply loop; it only runs while something committed is unapplied. */
  function ApplyNext<S>(app: App<S>, s: Node<S>): Node<S> {
    if s.lastApplied >= s.commitIndex then s
    else
      var idx := s.lastApplied + 1;
      var machine := match s.log.At(idx) case Some(e) => app.apply(s.machine, e) case None => s.machine;
      MaybeSnapshot(app, s.(lastApplied := idx, machine := machine), idx)
  }

  /** A fresh process on the same disk: the log and the saved term and vote survive, nothing else. */
  function Restart<S>(app: App<S>, s: Node<S>): Node<S> {
    var si := s.log.snapIndex;
    Node(s.id, s.peers, s.threshold, s.saved, s.log, Follower, s.saved.term, s.saved.votedFor, 0, si, si,
         map[], map[], if si > 0 then app.load(s.log.snapData) else app.init, 0, {})
  }

  function Boot<S>(app: App<S>, id: NodeId, peers: seq<NodeId>, threshold: nat): Node<S> {
    Node(id, peers, threshold, HardState(0, 0), EMPTY, Follower, 0, 0, 0, 0, 0, map[], map[], app.init, 0, {})
  }
}
