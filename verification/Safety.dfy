/** The Raft safety properties over whole runs: any number of steps, with messages lost, duplicated
    and reordered, and with crashes between and inside the handlers. */
module Safety {
  import opened Entries
  import opened LogView
  import opened RaftNode
  import opened Consensus
  import opened Cluster
  import opened ClusterFrame
  import opened ClusterElection
  import opened ClusterRecovery

  /** State `i` follows from the one before it. */
  ghost predicate StepsTo<S(!new)>(app: App<S>, run: seq<State<S>>, i: nat)
    requires 0 < i < |run|
  {
    Next(app, run[i - 1], run[i])
  }

  ghost predicate IsRun<S(!new)>(app: App<S>, run: seq<State<S>>) {
    && run != []
    && Init(app, run[0])
    && forall i {:trigger StepsTo(app, run, i)} | 0 < i < |run| :: StepsTo(app, run, i)
  }

  /** The history behind each state of a run. */
  ghost predicate Accounts<S>(app: App<S>, run: seq<State<S>>, hs: seq<History>) {
    && |hs| == |run|
    && (forall i {:trigger hs[i]} | 0 <= i < |run| :: ClusterInv(app, run[i], hs[i]))
    && (forall i, j {:trigger Follows(hs[i], hs[j])} | 0 <= i <= j < |run| :: Follows(hs[i], hs[j]))
  }

  lemma FollowsReflexive(h: History)
    requires Shape(h)
    ensures Follows(h, h)
  {
    ExtendsReflexive(h);
    forall n | n in h.members ensures Retains(h, h, n) {
      RetainsSame(h, h, n);
    }
  }

  lemma FollowsTransitive(h: History, h1: History, h2: History)
    requires Follows(h, h1) && Follows(h1, h2)
    ensures Follows(h, h2)
  {
    ExtendsTransitive(h, h1, h2);
    forall n | n in h.members ensures Retains(h, h2, n) {
      assert Retains(h, h1, n) && Retains(h1, h2, n);
      RetainsTwice(h, h1, h2, n);
    }
  }

  lemma NextHistory<S(!new)>(app: App<S>, c: State<S>, c': State<S>, h: History) returns (h': History)
    requires AppOk(app) && ClusterInv(app, c, h) && Next(app, c, c')
    ensures ClusterInv(app, c', h') && Follows(h, h')
  {
    var step :| Enabled(c, step) && c' == Do(app, c, step);
    h' := NextKeepsInv(app, c, h, step);
  }

  lemma ShorterRun<S(!new)>(app: App<S>, run: seq<State<S>>, k: nat)
    requires IsRun(app, run) && 0 < k < |run|
    ensures IsRun(app, run[..k]) && StepsTo(app, run, k)
  {
    forall i | 0 < i < k ensures StepsTo(app, run[..k], i) {
      assert StepsTo(app, run, i);
    }
  }

  /** Every run has an account of its votes, reigns and acknowledgements. */
  lemma {:induction false} EveryRunAccounted<S(!new)>(app: App<S>, run: seq<State<S>>) returns (hs: seq<History>)
    requires AppOk(app) && IsRun(app, run)
    ensures Accounts(app, run, hs)
    decreases |run|
  {
    var k := |run| - 1;
    if k == 0 {
      InitInv(app, run[0]);
      hs := [Start(run[0].nodes.Keys)];
      FollowsReflexive(hs[0]);
    } else {
      ShorterRun(app, run, k);
      var before := EveryRunAccounted(app, run[..k]);
      hs := NextAccount(app, run, before, k, k - 1);
    }
  }

  lemma NextAccount<S(!new)>(app: App<S>, run: seq<State<S>>, before: seq<History>, k: nat, j: nat) returns (hs: seq<History>)
    requires AppOk(app) && k == j + 1 == |run| - 1 && Accounts(app, run[..k], before) && StepsTo(app, run, k)
    ensures Accounts(app, run, hs)
  {
    assert ClusterInv(app, run[..k][j], before[j]);
    var h' := NextHistory(app, run[j], run[k], before[j]);
    hs := before + [h'];
    ExtendAccount(app, run, before, h');
  }

  lemma ExtendAccount<S>(app: App<S>, run: seq<State<S>>, before: seq<History>, h': History)
    requires |run| > 1 && Accounts(app, run[..|run| - 1], before)
    requires Follows(before[|before| - 1], h') && ClusterInv(app, run[|run| - 1], h')
    ensures Accounts(app, run, before + [h'])
  {
    var hs, k := before + [h'], |before|;
    forall i | 0 <= i < |run| ensures ClusterInv(app, run[i], hs[i]) {
      if i < k {
        assert ClusterInv(app, run[..|run| - 1][i], before[i]);
      }
    }
    assert ClusterInv(app, run[|run| - 1], h');
    ExtendFollows(before, h', k - 1);
  }

  lemma ExtendFollows(before: seq<History>, h': History, last: nat)
    requires last + 1 == |before| && Follows(before[last], h') && Shape(h')
    requires forall i, j {:trigger Follows(before[i], before[j])} | 0 <= i <= j < |before| :: Follows(before[i], before[j])
    ensures forall i, j {:trigger Follows((before + [h'])[i], (before + [h'])[j])} | 0 <= i <= j <= |before| ::
      Follows((before + [h'])[i], (before + [h'])[j])
  {
    var hs := before + [h'];
    forall i, j | 0 <= i <= j <= |before| ensures Follows(hs[i], hs[j]) {
      if j < |before| {
        assert Follows(before[i], before[j]);
      } else if i < |before| {
        assert Follows(before[i], before[last]);
        FollowsTransitive(before[i], before[last], h');
      } else {
        FollowsReflexive(h');
      }
    }
  }

  ghost predicate Leads<S>(c: State<S>, n: NodeId, t: nat) {
    n in c.nodes && c.nodes[n].role == Leader && c.nodes[n].currentTerm == t
  }

  // ---- Election safety ----

  /** No two nodes ever lead the same term, at the same time or at different times, restarts included. */
  lemma ElectionSafety<S(!new)>(app: App<S>, run: seq<State<S>>, i: nat, j: nat, n: NodeId, m: NodeId, t: nat)
    requires AppOk(app) && IsRun(app, run) && i < |run| && j < |run|
    requires Leads(run[i], n, t) && Leads(run[j], m, t)
    ensures n == m
  {
    var hs := EveryRunAccounted(app, run);
    var last := |run| - 1;
    assert Follows(hs[i], hs[last]) && Follows(hs[j], hs[last]);
    assert ClusterInv(app, run[i], hs[i]) && ClusterInv(app, run[j], hs[j]);
    assert NodeInv(app, hs[i], n, run[i].nodes[n]) && NodeInv(app, hs[j], m, run[j].nodes[m]);
  }

  // ---- Log matching ----

  /** Two compacted logs show the same thing wherever both still show something, up to index `x`. */
  ghost predicate SameUpTo(a: View, b: View, x: nat) {
    && (forall y: nat | y <= x && a.At(y).Some? && b.At(y).Some? :: a.At(y) == b.At(y))
    && (forall y: nat | y <= x && a.TermAt(y).Some? && b.TermAt(y).Some? :: a.TermAt(y) == b.TermAt(y))
    && (a.snapIndex == b.snapIndex <= x ==> a.snapData == b.snapData || a.snapIndex == 0)
  }

  lemma ViewsAgree<S>(app: App<S>, a: View, la: seq<Entry>, b: View, lb: seq<Entry>, x: nat)
    requires ViewOk(app, a, la) && ViewOk(app, b, lb) && Agree(la, lb, x)
    ensures SameUpTo(a, b, x)
  {
    ViewReads(app, a, la);
    ViewReads(app, b, lb);
    if a.snapIndex == b.snapIndex <= x {
      FoldAgrees(app, la, lb, a.snapIndex);
    }
  }

  /** Logs that hold an entry of the same index and term, whoever holds them and whenever, are the
      same up to that index. */
  lemma LogMatchingOverRuns<S(!new)>(app: App<S>, run: seq<State<S>>, i: nat, j: nat, n: NodeId, m: NodeId, x: nat)
    requires AppOk(app) && IsRun(app, run) && i < |run| && j < |run|
    requires n in run[i].nodes && m in run[j].nodes && x > 0
    requires var a, b := run[i].nodes[n].log, run[j].nodes[m].log; a.TermAt(x).Some? && a.TermAt(x) == b.TermAt(x)
    ensures SameUpTo(run[i].nodes[n].log, run[j].nodes[m].log, x)
  {
    var hs := EveryRunAccounted(app, run);
    var last := |run| - 1;
    var a, b := run[i].nodes[n].log, run[j].nodes[m].log;
    LogAtTheEnd(app, run, hs, i, n);
    LogAtTheEnd(app, run, hs, j, m);
    var la, lb := hs[i].log[n], hs[j].log[m];
    ViewReads(app, a, la);
    ViewReads(app, b, lb);
    LogMatching(hs[last], la, lb, x - 1);
    ViewsAgree(app, a, la, b, lb, x);
  }

  /** A log of any moment is still a well-formed log of the final history. */
  lemma LogAtTheEnd<S>(app: App<S>, run: seq<State<S>>, hs: seq<History>, i: nat, n: NodeId)
    requires Accounts(app, run, hs) && i < |run| && n in run[i].nodes
    ensures n in hs[i].log && LogOk(hs[|run| - 1], hs[i].log[n]) && ViewOk(app, run[i].nodes[n].log, hs[i].log[n])
    ensures ReignsOk(hs[|run| - 1])
  {
    var last := |run| - 1;
    assert ClusterInv(app, run[i], hs[i]) && ClusterInv(app, run[last], hs[last]) && Follows(hs[i], hs[last]);
    assert NodeInv(app, hs[i], n, run[i].nodes[n]) && NodeOk(hs[i], n);
    LogOkStable(hs[i], hs[last], hs[i].log[n]);
  }

  /** Terms never decrease along any node's log. */
  lemma TermsNeverDecrease<S(!new)>(app: App<S>, run: seq<State<S>>, i: nat, n: NodeId, x: nat, y: nat)
    requires AppOk(app) && IsRun(app, run) && i < |run| && n in run[i].nodes && x <= y
    requires run[i].nodes[n].log.TermAt(x).Some? && run[i].nodes[n].log.TermAt(y).Some?
    ensures run[i].nodes[n].log.TermAt(x).value <= run[i].nodes[n].log.TermAt(y).value
  {
    var hs := EveryRunAccounted(app, run);
    LogAtTheEnd(app, run, hs, i, n);
    var v, log := run[i].nodes[n].log, hs[i].log[n];
    ViewReads(app, v, log);
    if x > 0 {
      TermsOrdered(hs[|run| - 1], log, x - 1, y - 1);
    }
  }

  // ---- State machine safety, progress and durability ----

  /** The log holds the first `k` entries of `all`, as entries or under its snapshot. */
  ghost predicate Holds<S>(app: App<S>, v: View, all: seq<Entry>, k: nat) {
    && k <= |all|
    && k <= v.LastIndex()
    && (forall x: nat | v.snapIndex < x <= k :: v.At(x) == Some(all[x - 1]))
    && (v.snapIndex <= k ==> v.snapTerm == TermOf(all, v.snapIndex))
    && (0 < v.snapIndex <= k ==> v.snapData == app.save(Fold(app, all, v.snapIndex)))
  }

  /** The node's progress is in order, its committed log is `all` so far, and its state machine is
      exactly what applying `all` up to its applied index gives. */
  ghost predicate Obeys<S>(app: App<S>, s: Node<S>, all: seq<Entry>) {
    && s.log.snapIndex <= s.lastApplied <= s.commitIndex <= s.log.LastIndex()
    && Holds(app, s.log, all, s.commitIndex)
    && s.machine == Fold(app, all, s.lastApplied)
  }

  ghost predicate AllObey<S>(app: App<S>, run: seq<State<S>>, all: seq<Entry>) {
    forall i: nat, n | i < |run| && n in run[i].nodes :: Obeys(app, run[i].nodes[n], all)
  }

  /** Whatever a node has committed it holds ever after, through cuts, snapshots and crashes. */
  ghost predicate NothingLost<S>(app: App<S>, run: seq<State<S>>, all: seq<Entry>) {
    forall i: nat, j: nat, n | i <= j < |run| && n in run[i].nodes && n in run[j].nodes ::
      Holds(app, run[j].nodes[n].log, all, run[i].nodes[n].commitIndex)
  }

  /** Whatever the leader of a term has committed, every leader of a later term holds, in any state
      of the run. */
  ghost predicate LeadersComplete<S>(app: App<S>, run: seq<State<S>>, all: seq<Entry>) {
    forall i: nat, j: nat, n, m, t: nat, t': nat |
      i < |run| && j < |run| && t < t' && Leads(run[i], n, t) && Leads(run[j], m, t') ::
      Holds(app, run[j].nodes[m].log, all, run[i].nodes[n].commitIndex)
  }

  lemma HoldsFromLog<S>(app: App<S>, v: View, log: seq<Entry>, all: seq<Entry>, k: nat)
    requires ViewOk(app, v, log) && Agree(log, all, k)
    ensures Holds(app, v, all, k)
  {
    ViewReads(app, v, log);
    if v.snapIndex <= k {
      FoldAgrees(app, log, all, v.snapIndex);
    }
  }

  lemma NodeObeys<S>(app: App<S>, run: seq<State<S>>, hs: seq<History>, i: nat, n: NodeId)
    requires Accounts(app, run, hs) && i < |run| && n in run[i].nodes
    ensures Obeys(app, run[i].nodes[n], hs[|run| - 1].committed)
  {
    var s, h, end := run[i].nodes[n], hs[i], hs[|run| - 1];
    assert ClusterInv(app, run[i], h) && Follows(h, end);
    assert NodeInv(app, h, n, s);
    SettledStable(h, end, s.currentTerm, s.currentTerm, h.log[n], s.commitIndex);
    HoldsFromLog(app, s.log, h.log[n], end.committed, s.commitIndex);
    FoldAgrees(app, h.log[n], end.committed, s.lastApplied);
  }

  lemma NodeRetains<S>(app: App<S>, run: seq<State<S>>, hs: seq<History>, i: nat, j: nat, n: NodeId)
    requires Accounts(app, run, hs) && i <= j < |run| && n in run[i].nodes && n in run[j].nodes
    ensures Holds(app, run[j].nodes[n].log, hs[|run| - 1].committed, run[i].nodes[n].commitIndex)
  {
    var s, h, h', end := run[i].nodes[n], hs[i], hs[j], hs[|run| - 1];
    assert ClusterInv(app, run[i], h) && ClusterInv(app, run[j], h') && Follows(h, h') && Follows(h, end);
    assert NodeInv(app, h, n, s) && NodeInv(app, h', n, run[j].nodes[n]);
    assert Retains(h, h', n);
    SettledStable(h, end, s.currentTerm, s.currentTerm, h.log[n], s.commitIndex);
    HoldsFromLog(app, run[j].nodes[n].log, h'.log[n], end.committed, s.commitIndex);
  }

  /** A reign's log, at any moment, agrees with what an earlier term settled. */
  lemma LaterReignHolds(h': History, end: History, t: nat, log: seq<Entry>, k: nat, t': nat)
    requires Extends(h', end) && ReignsSafe(end) && Settled(end, t, log, k) && t < t'
    requires t' in h'.reigns && ReignOk(h', t')
    ensures Agree(log, h'.reigns[t'].log, k)
  {
    if k > 0 {
      var u: nat, j: nat :| u <= t && SettledBy(end, log, k, u, j);
      ChosenNotDead(end, u, j);
      assert ReignSafe(end, t') && Own(end, u, j);
      assert Agree(h'.reigns[t'].log, end.reigns[t'].log, |h'.reigns[t'].log|);
    }
  }

  lemma LeaderHolds<S>(app: App<S>, run: seq<State<S>>, hs: seq<History>, i: nat, j: nat, n: NodeId, m: NodeId, t: nat, t': nat)
    requires Accounts(app, run, hs) && i < |run| && j < |run| && t < t'
    requires Leads(run[i], n, t) && Leads(run[j], m, t')
    ensures Holds(app, run[j].nodes[m].log, hs[|run| - 1].committed, run[i].nodes[n].commitIndex)
  {
    var s, h, h', end := run[i].nodes[n], hs[i], hs[j], hs[|run| - 1];
    assert ClusterInv(app, run[i], h) && ClusterInv(app, run[j], h') && ClusterInv(app, run[|run| - 1], end);
    assert Follows(h, end) && Follows(h', end);
    assert NodeInv(app, h, n, s) && NodeInv(app, h', m, run[j].nodes[m]);
    SettledStable(h, end, t, t, h.log[n], s.commitIndex);
    assert LeaderOk(h', t') && ReignOk(h', t');
    LaterReignHolds(h', end, t, h.log[n], s.commitIndex, t');
    HoldsFromLog(app, run[j].nodes[m].log, h'.log[m], end.committed, s.commitIndex);
  }

  /** State machine safety, leader completeness and durability, all about one committed sequence:
      there is a single sequence that every node of every state of the run follows. */
  lemma OneCommittedSequence<S(!new)>(app: App<S>, run: seq<State<S>>)
    requires AppOk(app) && IsRun(app, run)
    ensures exists all: seq<Entry> ::
      AllObey(app, run, all) && NothingLost(app, run, all) && LeadersComplete(app, run, all)
  {
    var hs := EveryRunAccounted(app, run);
    var all := hs[|run| - 1].committed;
    forall i: nat, n | i < |run| && n in run[i].nodes ensures Obeys(app, run[i].nodes[n], all) {
      NodeObeys(app, run, hs, i, n);
    }
    forall i: nat, j: nat, n | i <= j < |run| && n in run[i].nodes && n in run[j].nodes
      ensures Holds(app, run[j].nodes[n].log, all, run[i].nodes[n].commitIndex)
    {
      NodeRetains(app, run, hs, i, j, n);
    }
    forall i: nat, j: nat, n, m, t: nat, t': nat |
      i < |run| && j < |run| && t < t' && Leads(run[i], n, t) && Leads(run[j], m, t')
      ensures Holds(app, run[j].nodes[m].log, all, run[i].nodes[n].commitIndex)
    {
      LeaderHolds(app, run, hs, i, j, n, m, t, t');
    }
    assert AllObey(app, run, all) && NothingLost(app, run, all) && LeadersComplete(app, run, all);
  }

  /** State machine safety between any two nodes at any two moments: with equally many entries
      applied, by applying or by restoring a snapshot, the machines are equal. */
  lemma EqualProgressEqualMachines<S(!new)>(app: App<S>, run: seq<State<S>>, i: nat, j: nat, n: NodeId, m: NodeId)
    requires AppOk(app) && IsRun(app, run) && i < |run| && j < |run|
    requires n in run[i].nodes && m in run[j].nodes
    requires run[i].nodes[n].lastApplied == run[j].nodes[m].lastApplied
    ensures run[i].nodes[n].machine == run[j].nodes[m].machine
  {
    OneCommittedSequence(app, run);
    var all :| AllObey(app, run, all) && NothingLost(app, run, all) && LeadersComplete(app, run, all);
    assert Obeys(app, run[i].nodes[n], all) && Obeys(app, run[j].nodes[m], all);
  }

  /** The apply loop never misses: the next committed entry is always still in the log, and one turn
      of the loop applies exactly that entry. */
  lemma ApplyNeverSkips<S(!new)>(app: App<S>, run: seq<State<S>>, i: nat, n: NodeId)
    requires AppOk(app) && IsRun(app, run) && i < |run| && n in run[i].nodes
    requires run[i].nodes[n].lastApplied < run[i].nodes[n].commitIndex
    ensures var s := run[i].nodes[n];
      && s.log.At(s.lastApplied + 1).Some?
      && ApplyNext(app, s).lastApplied == s.lastApplied + 1
      && ApplyNext(app, s).machine == app.apply(s.machine, s.log.At(s.lastApplied + 1).value)
  {
    OneCommittedSequence(app, run);
    var all :| AllObey(app, run, all) && NothingLost(app, run, all) && LeadersComplete(app, run, all);
    assert Obeys(app, run[i].nodes[n], all);
  }

  /** The step restarts node `n`. */
  predicate Restarts(step: Step, n: NodeId) {
    match step
    case Crash(m) => m == n
    case CrashOnNewTerm(m, _) => m == n
    case CrashOnAppend(m, _) => m.AppendRequest? && m.to == n
    case CrashOnCut(m) => m.AppendRequest? && m.to == n
    case _ => false
  }

  ghost predicate Advances<S>(s: Node<S>, s': Node<S>) {
    s'.lastApplied == s.lastApplied && s.commitIndex <= s'.commitIndex
  }

  /** Within one incarnation what is applied never falls back: it stays, moves on by the one entry the
      apply loop applies, or jumps over everything committed to a snapshot received. */
  ghost predicate AppliesOnward<S>(s: Node<S>, s': Node<S>) {
    && s.commitIndex <= s'.commitIndex
    && (s'.lastApplied == s.lastApplied || s'.lastApplied == s.lastApplied + 1 || s'.lastApplied > s.commitIndex)
    && s.lastApplied <= s'.lastApplied
  }

  lemma AcknowledgeAdvances<S>(s: Node<S>, peer: NodeId, index: nat)
    ensures Advances(s, Acknowledge(s, peer, index))
  {
    var s1 := RaiseMatch(s, peer, index);
    LargestIsLargest(s1, s1.log.LastIndex());
  }

  lemma RequestsAdvance<S>(s: Node<S>)
    ensures forall a :: Advances(s, HandleRequestVote(s, a).0)
    ensures forall a :: Advances(s, HandleAppendEntries(s, a).0)
  {
  }

  lemma StepsOnward<S(!new)>(app: App<S>, c: State<S>, step: Step, n: NodeId)
    requires Enabled(c, step) && !Restarts(step, n) && n in c.nodes && c.nodes[n].lastApplied <= c.nodes[n].commitIndex
    ensures n in Do(app, c, step).nodes && AppliesOnward(c.nodes[n], Do(app, c, step).nodes[n])
  {
    var s := c.nodes[n];
    match step
    case TakeVoteRequest(_) => RequestsAdvance(s);
    case TakeAppendRequest(_) => RequestsAdvance(s);
    case TakeAppendResponse(m) => AcknowledgeAdvances(s, m.from, m.aa.LastNew());
    case TakeSnapResponse(m) => AcknowledgeAdvances(s, m.from, m.sa.lastIndex);
    case _ =>
  }

  /** In any run, until a node restarts its commit index and its applied index never fall, so nothing
      is applied twice. */
  lemma ProgressNeverFalls<S(!new)>(app: App<S>, run: seq<State<S>>, i: nat, step: Step, n: NodeId)
    requires AppOk(app) && IsRun(app, run) && i < |run| && Enabled(run[i], step)
    requires !Restarts(step, n) && n in run[i].nodes
    ensures n in Do(app, run[i], step).nodes && AppliesOnward(run[i].nodes[n], Do(app, run[i], step).nodes[n])
  {
    OneCommittedSequence(app, run);
    var all :| AllObey(app, run, all) && NothingLost(app, run, all) && LeadersComplete(app, run, all);
    assert Obeys(app, run[i].nodes[n], all);
    StepsOnward(app, run[i], step, n);
  }

  // ---- Acknowledgement soundness ----

  /** Above the commit index, a leader's match index for a peer never overstates: while the peer is
      in the leader's term, it holds the leader's entries up to there. */
  lemma AcknowledgementsSound<S(!new)>(app: App<S>, run: seq<State<S>>, i: nat, n: NodeId, p: NodeId, x: nat)
    requires AppOk(app) && IsRun(app, run) && i < |run|
    requires n in run[i].nodes && p in run[i].nodes && p in run[i].nodes[n].peers
    requires run[i].nodes[n].role == Leader && run[i].nodes[p].currentTerm == run[i].nodes[n].currentTerm
    requires run[i].nodes[n].commitIndex < x <= Get(run[i].nodes[n].matchIndex, p)
    ensures x <= run[i].nodes[p].log.LastIndex()
    ensures SameUpTo(run[i].nodes[n].log, run[i].nodes[p].log, x)
  {
    var hs := EveryRunAccounted(app, run);
    var c, h := run[i], hs[i];
    var t := c.nodes[n].currentTerm;
    assert ClusterInv(app, c, h);
    assert NodeInv(app, h, n, c.nodes[n]) && NodeInv(app, h, p, c.nodes[p]);
    assert PeerOk(h, c.nodes[n], p, |h.log[n]|) && LeaderOk(h, t) && AckOk(h, (p, t));
    assert Agree(h.log[n], h.log[p], x);
    ViewReads(app, c.nodes[p].log, h.log[p]);
    ViewsAgree(app, c.nodes[n].log, h.log[n], c.nodes[p].log, h.log[p], x);
  }
}
