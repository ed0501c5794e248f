/** The Raft node as the mutable object it is: every mutex-guarded block as a method that keeps the
    original's loops and updates, proved to take exactly the step of module RaftNode. */
module RaftObject {
  import opened Entries
  import opened LogView
  import opened RaftNode

  class Raft<S> {
    const id: NodeId
    const peers: seq<NodeId>
    const threshold: nat
    const app: App<S>

    var saved: HardState
    var log: View
    var role: Role
    var currentTerm: nat
    var votedFor: NodeId
    var leaderId: NodeId
    var commitIndex: nat
    var lastApplied: nat
    var nextIndex: map<NodeId, nat>
    var matchIndex: map<NodeId, nat>
    var machine: S
    var votes: nat
    var awaiting: set<NodeId>

    /** The object's fields as a value. */
    ghost function Value(): Node<S>
      reads this
    {
      Node(id, peers, threshold, saved, log, role, currentTerm, votedFor, leaderId, commitIndex, lastApplied,
           nextIndex, matchIndex, machine, votes, awaiting)
    }

    /** Opens a node on what is on disk: the log and the saved term and vote. */
    constructor (id: NodeId, peers: seq<NodeId>, threshold: nat, app: App<S>, saved: HardState, log: View)
      ensures Value() == Restart(app, Value())
      ensures this.id == id && this.peers == peers && this.threshold == threshold && this.app == app
      ensures this.saved == saved && this.log == log
    {
      this.id, this.peers, this.threshold, this.app := id, peers, threshold, app;
      this.saved, this.log := saved, log;
      role, leaderId := Follower, 0;
      currentTerm, votedFor := saved.term, saved.votedFor;
      nextIndex, matchIndex := map[], map[];
      votes, awaiting := 0, {};
      commitIndex, lastApplied, machine := 0, 0, app.init;
      if log.snapIndex > 0 {
        machine := app.load(log.snapData);
        lastApplied := log.snapIndex;
        commitIndex := log.snapIndex;
      }
    }

    method SaveHardState()
      modifies this`saved
      ensures Value() == Persist(old(Value()))
    {
      saved := HardState(currentTerm, votedFor);
    }

    method StepDown(term: nat)
      modifies this`saved, this`currentTerm, this`votedFor, this`role
      ensures Value() == BecomeFollower(old(Value()), term)
    {
      if term > currentTerm {
        currentTerm := term;
        votedFor := 0;
        SaveHardState();
      }
      role := Follower;
    }

    /** Assume every peer matches the whole log, until it rejects a probe. */
    method ResetProgress()
      modifies this`nextIndex, this`matchIndex
      ensures nextIndex == SetAll(old(nextIndex), peers, log.LastIndex() + 1, |peers|)
      ensures matchIndex == SetAll(old(matchIndex), peers, 0, |peers|)
    {
      var last := log.LastIndex();
      var i := 0;
      while i < |peers|
        invariant i <= |peers|
        invariant nextIndex == SetAll(old(nextIndex), peers, last + 1, i)
        invariant matchIndex == SetAll(old(matchIndex), peers, 0, i)
      {
        nextIndex := nextIndex[peers[i] := last + 1];
        matchIndex := matchIndex[peers[i] := 0];
        i := i + 1;
      }
    }

    method TakeOver()
      modifies this`role, this`leaderId, this`nextIndex, this`matchIndex, this`log
      ensures Value() == BecomeLeader(old(Value()))
    {
      role := Leader;
      leaderId := id;
      ResetProgress();
      log := log.Append(currentTerm, KIND_NOOP, []);
    }

    // ---- Election ----

    /** A timeout: a node that does not lead stands in the next term and asks for votes. */
    method StandForElection() returns (args: Option<VoteArgs>)
      modifies this`role, this`currentTerm, this`votedFor, this`saved, this`votes, this`awaiting
      ensures Value() == StartElection(old(Value()))
      ensures args == if old(role) == Leader then None else Some(VoteRequestOf(Value()))
    {
      if role == Leader {
        return None;
      }
      role := Candidate;
      currentTerm := currentTerm + 1;
      votedFor := id;
      SaveHardState();
      var lastIndex := log.LastIndex();
      votes, awaiting := 1, PeerSet(peers);
      args := Some(VoteArgs(currentTerm, id, lastIndex, log.TermOrZero(lastIndex)));
    }

    method OnRequestVote(args: VoteArgs) returns (reply: VoteReply)
      modifies this`saved, this`currentTerm, this`votedFor, this`role
      ensures (Value(), reply) == HandleRequestVote(old(Value()), args)
    {
      if args.term < currentTerm {
        return VoteReply(currentTerm, false);
      }
      if args.term > currentTerm {
        StepDown(args.term);
      }
      var lastIndex := log.LastIndex();
      var lastTerm := log.TermOrZero(lastIndex);
      var upToDate := args.lastTerm > lastTerm || (args.lastTerm == lastTerm && args.lastIndex >= lastIndex);
      var grant := (votedFor == 0 || votedFor == args.candidate) && upToDate;
      if grant {
        votedFor := args.candidate;
        SaveHardState();
      }
      reply := VoteReply(currentTerm, grant);
    }

    method OnVote(peer: NodeId, term: nat, reply: VoteReply)
      modifies this
      ensures Value() == OnVoteReply(old(Value()), peer, term, reply)
    {
      if currentTerm != term || role != Candidate || peer !in awaiting {
        return;
      }
      awaiting := awaiting - {peer};
      if reply.term > currentTerm {
        StepDown(reply.term);
        return;
      }
      if !reply.granted {
        return;
      }
      votes := votes + 1;
      if votes >= Majority(peers) {
        TakeOver();
      }
    }

    // ---- Replication, leader side ----

    method Submit(data: seq<Byte>) returns (index: nat, term: nat, isLeader: bool)
      modifies this`log
      ensures Value() == Propose(old(Value()), data)
      ensures isLeader == (role == Leader)
      ensures isLeader ==> term == currentTerm && index == log.LastIndex()
      ensures isLeader ==> log.At(index) == Some(Entry(index, term, KIND_COMMAND, data))
    {
      if role != Leader {
        return 0, 0, false;
      }
      log := log.Append(currentTerm, KIND_COMMAND, data);
      return log.LastIndex(), currentTerm, true;
    }

    /** Counts the peers whose match index reaches `n`, and the leader itself. */
    method CountMatches(n: nat) returns (count: nat)
      ensures count == MatchCount(peers, matchIndex, n, |peers|)
    {
      count := 1;
      var i := 0;
      while i < |peers|
        invariant i <= |peers| && count == MatchCount(peers, matchIndex, n, i)
      {
        if Get(matchIndex, peers[i]) >= n {
          count := count + 1;
        }
        i := i + 1;
      }
    }

    /** The commit scan: upwards over the log, keeping the last index that qualifies. It ends on the
        largest index above the old commit index that is of the current term and on a majority, and
        moves nothing if there is none. */
    method MaybeAdvanceCommit()
      modifies this`commitIndex
      ensures Value() == AdvanceCommit(old(Value()))
      ensures commitIndex == old(commitIndex) ||
        (old(commitIndex) < commitIndex <= log.LastIndex() && Committable(old(Value()), commitIndex))
      ensures forall n | commitIndex < n <= log.LastIndex() :: !Committable(old(Value()), n)
    {
      ghost var s := Value();
      var last := log.LastIndex();
      var n := commitIndex + 1;
      while n <= last
        invariant s.commitIndex < n && (n <= last + 1 || n == s.commitIndex + 1)
        invariant commitIndex == LargestCommittable(s, n - 1)
      {
        if log.TermAt(n) == Some(currentTerm) {
          var count := CountMatches(n);
          if count >= Majority(peers) {
            commitIndex := n;
          }
        }
        n := n + 1;
      }
      LargestIsLargest(s, last);
    }

    method Raise(peer: NodeId, index: nat)
      modifies this`matchIndex, this`nextIndex, this`commitIndex
      ensures Value() == Acknowledge(old(Value()), peer, index)
    {
      var m := Get(matchIndex, peer);
      if index > m {
        m := index;
      }
      matchIndex := matchIndex[peer := m];
      nextIndex := nextIndex[peer := m + 1];
      MaybeAdvanceCommit();
    }

    /** The highest index of `term`, searching down from the end; 0 if there is none. */
    method LastWithTerm(term: nat) returns (r: nat)
      ensures r == LastIndexWithTerm(log, term, log.LastIndex())
    {
      var i := log.LastIndex();
      while i >= 1
        invariant LastIndexWithTerm(log, term, log.LastIndex()) == LastIndexWithTerm(log, term, i)
      {
        var t := log.TermAt(i);
        if t.None? {
          break;
        }
        if t.value == term {
          return i;
        }
        if t.value < term {
          break;
        }
        i := i - 1;
      }
      r := 0;
    }

    /** The lowest index of `term`, searching up from 1; 1 if there is none. */
    method FirstWithTerm(term: nat) returns (r: nat)
      ensures r == FirstIndexWithTerm(log, term, 1)
    {
      var i := 1;
      while i <= log.LastIndex()
        invariant FirstIndexWithTerm(log, term, 1) == FirstIndexWithTerm(log, term, i)
      {
        if log.TermOrZero(i) == term {
          return i;
        }
        i := i + 1;
      }
      r := 1;
    }

    method OnAppended(peer: NodeId, args: AppendArgs, reply: AppendReply)
      modifies this
      ensures Value() == OnAppendReply(old(Value()), peer, args, reply)
    {
      if currentTerm != args.term || role != Leader {
        return;
      }
      if reply.term > currentTerm {
        StepDown(reply.term);
        return;
      }
      if reply.success {
        Raise(peer, args.LastNew());
        return;
      }
      if reply.conflictTerm == 0 {
        nextIndex := nextIndex[peer := Max(1, reply.conflictIndex)];
        return;
      }
      var last := LastWithTerm(reply.conflictTerm);
      if last > 0 {
        nextIndex := nextIndex[peer := last + 1];
      } else {
        nextIndex := nextIndex[peer := Max(1, reply.conflictIndex)];
      }
    }

    method OnInstalled(peer: NodeId, args: SnapArgs, reply: SnapReply)
      modifies this
      ensures Value() == OnSnapReply(old(Value()), peer, args, reply)
    {
      if currentTerm != args.term || role != Leader {
        return;
      }
      if reply.term > currentTerm {
        StepDown(reply.term);
        return;
      }
      Raise(peer, args.lastIndex);
    }

    // ---- Replication, follower side ----

    /** The append loop: skip what is held, cut at the first conflict, append the rest. */
    method AppendNew(prev: nat, es: seq<Entry>)
      modifies this`log
      ensures log == AppendMissing(old(log), prev, es, 0)
    {
      var i := 0;
      while i < |es|
        invariant i <= |es| && log == old(log)
        invariant AppendMissing(log, prev, es, 0) == AppendMissing(log, prev, es, i)
      {
        var idx := prev + 1 + i;
        if idx <= log.LastIndex() {
          if log.TermOrZero(idx) == es[i].term {
            i := i + 1;
            continue;
          }
          log := log.TruncateSuffix(idx);
        }
        ghost var cut := log;
        var j := i;
        while j < |es|
          invariant i <= j <= |es|
          invariant AppendAll(cut, es[i..]) == AppendAll(log, es[j..])
        {
          assert es[j..][0] == es[j] && es[j..][1..] == es[j + 1..];
          log := log.AppendEntry(es[j]);
          j := j + 1;
        }
        return;
      }
    }

    method OnAppendEntries(args: AppendArgs) returns (reply: AppendReply)
      modifies this
      ensures (Value(), reply) == HandleAppendEntries(old(Value()), args)
    {
      if args.term < currentTerm {
        return AppendReply(currentTerm, false, 0, 0);
      }
      StepDown(args.term);
      leaderId := args.leader;
      if args.prevIndex < log.snapIndex {
        return AppendReply(currentTerm, false, 0, log.snapIndex + 1);
      }
      if args.prevIndex > log.LastIndex() {
        return AppendReply(currentTerm, false, 0, log.LastIndex() + 1);
      }
      if args.prevIndex >= 1 {
        var ours := log.TermOrZero(args.prevIndex);
        if ours != args.prevTerm {
          var first := FirstWithTerm(ours);
          return AppendReply(currentTerm, false, ours, first);
        }
      }
      AppendNew(args.prevIndex, args.entries);
      if args.leaderCommit > commitIndex {
        var c := Min(args.leaderCommit, args.LastNew());
        if c > commitIndex {
          commitIndex := c;
        }
      }
      reply := AppendReply(currentTerm, true, 0, 0);
    }

    method OnInstallSnapshot(args: SnapArgs) returns (reply: SnapReply)
      modifies this
      ensures (Value(), reply) == HandleInstallSnapshot(app, old(Value()), args)
    {
      if args.term < currentTerm {
        return SnapReply(currentTerm);
      }
      StepDown(args.term);
      leaderId := args.leader;
      reply := SnapReply(currentTerm);
      if args.lastIndex <= log.snapIndex || args.lastIndex <= commitIndex {
        return;
      }
      log := log.InstallSnapshot(args.lastIndex, args.lastTerm, args.data);
      machine := app.load(args.data);
      lastApplied := args.lastIndex;
      if commitIndex < args.lastIndex {
        commitIndex := args.lastIndex;
      }
    }

    // ---- Applying and compacting ----

    method Compact(idx: nat)
      modifies this`log
      ensures Value() == MaybeSnapshot(app, old(Value()), idx)
    {
      if threshold == 0 || (log.snapIndex <= idx && idx - log.snapIndex < threshold) {
        return;
      }
      var term := log.TermAt(idx);
      if term.None? {
        return;
      }
      log := log.Snapshot(idx, term.value, app.save(machine));
    }

    /** One turn of the apply loop. */
    method ApplyOne()
      modifies this
      ensures Value() == ApplyNext(app, old(Value()))
    {
      if lastApplied >= commitIndex {
        return;
      }
      lastApplied := lastApplied + 1;
      var idx := lastApplied;
      var e := log.At(idx);
      if e.Some? {
        machine := app.apply(machine, e.value);
      }
      Compact(idx);
    }
  }
}
