/** Applying, compacting, crashing and restarting, against the consensus core. */
module ClusterRecovery {
  import opened Entries
  import opened LogView
  import opened RaftNode
  import opened Consensus
  import opened ConsensusSteps
  import opened Cluster
  import opened ClusterFrame
  import opened ClusterElection
  import opened ClusterReplication

  // ---- Applying and compacting ----

  /** Compacting at an applied index keeps the view of the whole log. */
  lemma CompactedView<S>(app: App<S>, v: View, log: seq<Entry>, k: nat, machine: S)
    requires ViewOk(app, v, log) && v.snapIndex < k <= |log| && machine == Fold(app, log, k)
    ensures v.TermAt(k) == Some(TermOf(log, k))
    ensures ViewOk(app, v.Snapshot(k, TermOf(log, k), app.save(machine)), log)
  {
    assert v.entries[k - v.snapIndex..] == log[k..];
  }

  /** The entry about to be applied is in the log, and it is the next one of the whole log. */
  lemma NextIsHeld<S>(app: App<S>, h: History, n: NodeId, s: Node<S>)
    requires ProgressOk(app, h, n, s) && s.lastApplied < s.commitIndex
    ensures s.log.At(s.lastApplied + 1) == Some(h.log[n][s.lastApplied])
  {
  }

  lemma AppliedProgress<S>(app: App<S>, h: History, n: NodeId, s: Node<S>)
    requires ProgressOk(app, h, n, s)
    ensures ProgressOk(app, h, n, ApplyNext(app, s))
  {
    if s.lastApplied < s.commitIndex {
      var idx := s.lastApplied + 1;
      NextIsHeld(app, h, n, s);
      var machine := app.apply(s.machine, h.log[n][s.lastApplied]);
      assert machine == Fold(app, h.log[n], idx);
      CompactedProgress(app, h, n, s.(lastApplied := idx, machine := machine), idx);
    }
  }

  lemma CompactedProgress<S>(app: App<S>, h: History, n: NodeId, s: Node<S>, idx: nat)
    requires ProgressOk(app, h, n, s) && s.log.snapIndex < idx == s.lastApplied
    ensures ProgressOk(app, h, n, MaybeSnapshot(app, s, idx))
  {
    CompactedView(app, s.log, h.log[n], idx, s.machine);
  }

  lemma AppliedElsewhere<S>(app: App<S>, s: Node<S>)
    ensures var s' := ApplyNext(app, s);
      s' == s.(log := s'.log, lastApplied := s'.lastApplied, machine := s'.machine)
  {
  }

  lemma SameBesidesProgress<S>(app: App<S>, h: History, n: NodeId, s: Node<S>, s': Node<S>)
    requires NodeInv(app, h, n, s) && ProgressOk(app, h, n, s')
    requires s' == s.(log := s'.log, lastApplied := s'.lastApplied, machine := s'.machine)
    ensures NodeInv(app, h, n, s')
  {
    SameLeader(h, n, s, s');
  }

  lemma ApplyStep<S(!new)>(app: App<S>, c: State<S>, h: History, n: NodeId)
    requires ClusterInv(app, c, h) && Enabled(c, Apply(n))
    ensures ClusterInv(app, Do(app, c, Apply(n)), h) && Follows(h, h)
  {
    var s := c.nodes[n];
    var s' := ApplyNext(app, s);
    assert NodeInv(app, h, n, s);
    AppliedProgress(app, h, n, s);
    AppliedElsewhere(app, s);
    SameBesidesProgress(app, h, n, s, s');
    NothingHappens(h, n);
    StepKeepsInv(app, c, h, h, n, s', {});
  }

  // ---- Restarting ----

  /** A fresh process on the same disk: progress falls back to the snapshot, never beyond it. */
  lemma RestartedNode<S(!new)>(app: App<S>, h: History, n: NodeId, s: Node<S>)
    requires AppOk(app) && NodeInv(app, h, n, s)
    ensures NodeInv(app, h, n, Restart(app, s))
  {
    var si := s.log.snapIndex;
    SettledAgree(h, s.currentTerm, h.log[n], s.commitIndex, h.log[n], si);
  }

  lemma RestartStep<S(!new)>(app: App<S>, c: State<S>, h: History, h': History, n: NodeId, s: Node<S>)
    requires AppOk(app) && ClusterInv(app, c, h) && n in c.nodes
    requires Inv(h') && ActsOnly(h, h', n) && NodeInv(app, h', n, s)
    ensures ClusterInv(app, Put(c, n, Restart(app, s), {}), h') && Follows(h, h')
  {
    RestartedNode(app, h', n, s);
    StepKeepsInv(app, c, h, h', n, Restart(app, s), {});
  }

  lemma CrashStep<S(!new)>(app: App<S>, c: State<S>, h: History, n: NodeId)
    requires AppOk(app) && ClusterInv(app, c, h) && Enabled(c, Crash(n))
    ensures ClusterInv(app, Do(app, c, Crash(n)), h) && Follows(h, h)
  {
    assert NodeInv(app, h, n, c.nodes[n]);
    NothingHappens(h, n);
    RestartStep(app, c, h, h, n, c.nodes[n]);
  }

  lemma CrashOnNewTermStep<S(!new)>(app: App<S>, c: State<S>, h: History, n: NodeId, m: Message) returns (h': History)
    requires AppOk(app) && ClusterInv(app, c, h) && Enabled(c, CrashOnNewTerm(n, m))
    ensures ClusterInv(app, Do(app, c, CrashOnNewTerm(n, m)), h') && Follows(h, h')
  {
    assert NodeInv(app, h, n, c.nodes[n]);
    h' := StepDown(app, h, n, c.nodes[n], TermOfMessage(m));
    RestartStep(app, c, h, h', n, BecomeFollower(c.nodes[n], TermOfMessage(m)));
  }

  // ---- Crashing in the middle of an append ----

  /** The first `kept` entries of a request are a request of the same leader. */
  function Shortened(a: AppendArgs, kept: nat): AppendArgs
    requires kept <= |a.entries|
  {
    a.(entries := a.entries[..kept], leaderCommit := 0)
  }

  lemma ShortenedOk(h: History, a: AppendArgs, kept: nat)
    requires AppendRequestOk(h, a) && kept <= |a.entries|
    ensures AppendRequestOk(h, Shortened(a, kept))
  {
    var log := h.reigns[a.term].log;
    assert a.entries[..kept] == log[a.prevIndex..a.prevIndex + kept];
  }

  lemma TornNode<S(!new)>(app: App<S>, h: History, n: NodeId, s: Node<S>, a: AppendArgs, kept: nat) returns (h': History)
    requires Inv(h) && NodeInv(app, h, n, s) && s.role == Follower && AppendRequestOk(h, a)
    requires a.term == s.currentTerm && Conflict(s.log, a.term, a).None? && kept <= |a.entries|
    ensures Inv(h') && ActsOnly(h, h', n)
    ensures NodeInv(app, h', n, s.(log := AppendMissing(s.log, a.prevIndex, a.entries[..kept], 0)))
  {
    ShortenedOk(h, a, kept);
    h' := AcceptedNode(app, h, n, s, Shortened(a, kept));
  }

  lemma DemotedForAppend<S>(app: App<S>, h: History, n: NodeId, s: Node<S>, a: AppendArgs) returns (h': History)
    requires Inv(h) && NodeInv(app, h, n, s) && AppendRequestOk(h, a)
    ensures Inv(h') && ActsOnly(h, h', n) && AppendRequestOk(h', a) && NodeInv(app, h', n, BecomeFollower(s, a.term))
  {
    h' := StepDown(app, h, n, s, a.term);
    AppendRequestKept(h, h', a);
  }

  /** The node as the interrupted append leaves it on disk, from any earlier term. */
  lemma TornFollower<S(!new)>(app: App<S>, h: History, n: NodeId, s: Node<S>, a: AppendArgs, kept: nat, s1: Node<S>) returns (h': History)
    requires Inv(h) && NodeInv(app, h, n, s) && AppendRequestOk(h, a) && ReachesAppend(s, a)
    requires kept <= |a.entries| && s1 == BecomeFollower(s, a.term)
    ensures Inv(h') && ActsOnly(h, h', n)
    ensures NodeInv(app, h', n, s1.(log := AppendMissing(s1.log, a.prevIndex, a.entries[..kept], 0)))
  {
    var h1 := DemotedForAppend(app, h, n, s, a);
    h' := TornNode(app, h1, n, s1, a, kept);
    ActsTwice(h, h1, h', n);
  }

  lemma CrashOnAppendStep<S(!new)>(app: App<S>, c: State<S>, h: History, m: Message, kept: nat) returns (h': History)
    requires AppOk(app) && ClusterInv(app, c, h) && Enabled(c, CrashOnAppend(m, kept))
    ensures ClusterInv(app, Do(app, c, CrashOnAppend(m, kept)), h') && Follows(h, h')
  {
    var n := m.to;
    assert NodeInv(app, h, n, c.nodes[n]) && MessageOk(app, h, m);
    var s1 := BecomeFollower(c.nodes[n], m.aa.term);
    h' := TornFollower(app, h, n, c.nodes[n], m.aa, kept, s1);
    RestartStep(app, c, h, h', n, s1.(log := AppendMissing(s1.log, m.aa.prevIndex, m.aa.entries[..kept], 0)));
  }

  /** The cut leaves the view alone, or drops the tail from the first conflict with the leader on. */
  lemma CutIsDrop(h: History, v: View, log: seq<Entry>, leader: seq<Entry>, prev: nat, es: seq<Entry>, i: nat)
      returns (j: nat, dropped: bool)
    requires LogOk(h, log) && LogOk(h, leader) && Shows(v, log) && Carries(leader, prev, es)
    requires v.snapIndex <= prev && i <= |es| && Agree(log, leader, prev + i)
    ensures !dropped ==> CutConflict(v, prev, es, i) == v
    ensures dropped ==>
      && v.snapIndex <= j < |log| && j < |leader| && Agree(log, leader, j) && log[j] != leader[j]
      && CutConflict(v, prev, es, i) == v.(entries := log[..j][v.snapIndex..])
    decreases |es| - i
  {
    j, dropped := prev + i, false;
    if i < |es| {
      assert es[i] == leader[prev + i];
      if prev + i < |log| {
        if log[prev + i].term == es[i].term {
          LogMatching(h, log, leader, prev + i);
          j, dropped := CutIsDrop(h, v, log, leader, prev, es, i + 1);
        } else {
          dropped := true;
          assert log[..j][v.snapIndex..] == log[v.snapIndex..][..j - v.snapIndex];
        }
      }
    }
  }

  lemma DroppedProgress<S>(app: App<S>, h: History, n: NodeId, s: Node<S>, t: nat, j: nat, s': Node<S>)
    requires Shape(h) && ReignsSafe(h) && MayDrop(h, n, t, j)
    requires ProgressOk(app, h, n, s) && h.term[n] == s.currentTerm == t && s.log.snapIndex <= j
    requires s' == s.(log := s.log.(entries := h.log[n][..j][s.log.snapIndex..]))
    ensures ProgressOk(app, Drop(h, n, t, j), n, s')
  {
    var log, leader := h.log[n], h.reigns[t].log;
    var h' := Drop(h, n, t, j);
    SettledInReign(h, t, log, s.commitIndex, t);
    assert s.commitIndex <= j;
    DropExtends(h, n, t, j);
    SettledStable(h, h', t, t, log, s.commitIndex);
    SettledAgree(h', t, log, s.commitIndex, h'.log[n], s.commitIndex);
    ProgressMoved(app, h, h', n, s, s');
  }

  lemma DropActs(h: History, n: NodeId, t: nat, j: nat)
    requires Shape(h) && ReignsSafe(h) && MayDrop(h, n, t, j)
    ensures ActsOnly(h, Drop(h, n, t, j), n)
  {
    DropExtends(h, n, t, j);
    forall k: nat | Settled(h, h.term[n], h.log[n], k)
      ensures Agree(h.log[n], Drop(h, n, t, j).log[n], k)
    {
      SettledInReign(h, h.term[n], h.log[n], k, t);
    }
  }

  lemma DroppedNode<S>(app: App<S>, h: History, n: NodeId, s: Node<S>, t: nat, j: nat, s': Node<S>) returns (h': History)
    requires Inv(h) && NodeInv(app, h, n, s) && s.role == Follower && MayDrop(h, n, t, j)
    requires s.currentTerm == t && s.log.snapIndex <= j
    requires s' == s.(log := s.log.(entries := h.log[n][..j][s.log.snapIndex..]))
    ensures Inv(h') && ActsOnly(h, h', n) && NodeInv(app, h', n, s')
  {
    h' := Drop(h, n, t, j);
    DropKeepsInv(h, n, t, j);
    DropActs(h, n, t, j);
    DroppedProgress(app, h, n, s, t, j, s');
  }

  lemma CutNode<S>(app: App<S>, h: History, n: NodeId, s: Node<S>, a: AppendArgs) returns (h': History)
    requires Inv(h) && NodeInv(app, h, n, s) && s.role == Follower && AppendRequestOk(h, a)
    requires a.term == s.currentTerm && Conflict(s.log, a.term, a).None?
    ensures Inv(h') && ActsOnly(h, h', n)
    ensures NodeInv(app, h', n, s.(log := CutConflict(s.log, a.prevIndex, a.entries, 0)))
  {
    var s' := s.(log := CutConflict(s.log, a.prevIndex, a.entries, 0));
    var j, dropped := CutPoint(app, h, n, s, a);
    if dropped {
      h' := DroppedNode(app, h, n, s, a.term, j, s');
    } else {
      h' := h;
      NothingHappens(h, n);
    }
  }

  lemma CutPoint<S>(app: App<S>, h: History, n: NodeId, s: Node<S>, a: AppendArgs) returns (j: nat, dropped: bool)
    requires NodesOk(h) && ReignsOk(h) && NodeInv(app, h, n, s) && AppendRequestOk(h, a)
    requires a.term == s.currentTerm && Conflict(s.log, a.term, a).None?
    ensures !dropped ==> CutConflict(s.log, a.prevIndex, a.entries, 0) == s.log
    ensures dropped ==> MayDrop(h, n, a.term, j) && s.log.snapIndex <= j
    ensures dropped ==>
      CutConflict(s.log, a.prevIndex, a.entries, 0) == s.log.(entries := h.log[n][..j][s.log.snapIndex..])
  {
    assert NodeOk(h, n) && ReignOk(h, a.term);
    CheckedPrefix(h, s.log, h.log[n], a, h.reigns[a.term].log);
    j, dropped := CutIsDrop(h, s.log, h.log[n], h.reigns[a.term].log, a.prevIndex, a.entries, 0);
  }

  /** The node as the interrupted cut leaves it on disk, from any earlier term. */
  lemma CutFollower<S>(app: App<S>, h: History, n: NodeId, s: Node<S>, a: AppendArgs, s1: Node<S>) returns (h': History)
    requires Inv(h) && NodeInv(app, h, n, s) && AppendRequestOk(h, a) && ReachesAppend(s, a)
    requires s1 == BecomeFollower(s, a.term)
    ensures Inv(h') && ActsOnly(h, h', n)
    ensures NodeInv(app, h', n, s1.(log := CutConflict(s1.log, a.prevIndex, a.entries, 0)))
  {
    var h1 := DemotedForAppend(app, h, n, s, a);
    h' := CutNode(app, h1, n, s1, a);
    ActsTwice(h, h1, h', n);
  }

  lemma CrashOnCutStep<S(!new)>(app: App<S>, c: State<S>, h: History, m: Message) returns (h': History)
    requires AppOk(app) && ClusterInv(app, c, h) && Enabled(c, CrashOnCut(m))
    ensures ClusterInv(app, Do(app, c, CrashOnCut(m)), h') && Follows(h, h')
  {
    var n := m.to;
    assert NodeInv(app, h, n, c.nodes[n]) && MessageOk(app, h, m);
    var s1 := BecomeFollower(c.nodes[n], m.aa.term);
    h' := CutFollower(app, h, n, c.nodes[n], m.aa, s1);
    RestartStep(app, c, h, h', n, s1.(log := CutConflict(s1.log, m.aa.prevIndex, m.aa.entries, 0)));
  }

  // ---- Every step ----

  lemma NextKeepsInv<S(!new)>(app: App<S>, c: State<S>, h: History, step: Step) returns (h': History)
    requires AppOk(app) && ClusterInv(app, c, h) && Enabled(c, step)
    ensures ClusterInv(app, Do(app, c, step), h') && Follows(h, h')
  {
    h' := h;
    match step {
      case Timeout(n) => h' := TimeoutStep(app, c, h, n);
      case TakeVoteRequest(m) => h' := VoteRequestStep(app, c, h, m);
      case TakeVoteResponse(m) => h' := VoteResponseStep(app, c, h, m);
      case Submit(n, data) => h' := SubmitStep(app, c, h, n, data);
      case Replicate(n, peer) => ReplicateStep(app, c, h, n, peer);
      case TakeAppendRequest(m) => h' := AppendRequestStep(app, c, h, m);
      case TakeAppendResponse(m) => h' := AppendResponseStep(app, c, h, m);
      case TakeSnapRequest(m) => h' := SnapRequestStep(app, c, h, m);
      case TakeSnapResponse(m) => h' := SnapResponseStep(app, c, h, m);
      case Apply(n) => ApplyStep(app, c, h, n);
      case Crash(n) => CrashStep(app, c, h, n);
      case CrashOnNewTerm(n, m) => h' := CrashOnNewTermStep(app, c, h, n, m);
      case CrashOnAppend(m, kept) => h' := CrashOnAppendStep(app, c, h, m, kept);
      case CrashOnCut(m) => h' := CrashOnCutStep(app, c, h, m);
    }
  }

  lemma InitInv<S(!new)>(app: App<S>, c: State<S>)
    requires Init(app, c)
    ensures ClusterInv(app, c, Start(c.nodes.Keys))
  {
    var h := Start(c.nodes.Keys);
    StartInv(c.nodes.Keys);
    forall n | n in c.nodes ensures NodeInv(app, h, n, c.nodes[n]) {
      assert c.nodes[n] == Boot(app, n, c.nodes[n].peers, c.nodes[n].threshold);
    }
  }
}
