/** What the cluster can always still do: from any state of any run, any majority of its nodes can
    elect one of them and bring itself to hold, commit and apply that leader's whole log. */
module Continuations {
  import opened Entries
  import opened LogView
  import opened RaftNode
  import opened Consensus
  import opened Cluster
  import opened ClusterFrame
  import opened ClusterElection
  import opened ClusterReplication
  import opened Safety
  import opened Backtracking
  import opened CatchUp
  import opened Obligations

  // ---- Continuing a run ----

  function Now<S>(run: seq<State<S>>): State<S>
    requires run != []
  {
    run[|run| - 1]
  }

  /** `run'` is a run that goes on from `run`. */
  ghost predicate Continues<S(!new)>(app: App<S>, run: seq<State<S>>, run': seq<State<S>>) {
    IsRun(app, run') && run <= run'
  }

  lemma GoOn<S(!new)>(app: App<S>, run: seq<State<S>>, step: Step) returns (run': seq<State<S>>)
    requires IsRun(app, run) && Enabled(Now(run), step)
    ensures Continues(app, run, run') && Now(run') == Do(app, Now(run), step)
  {
    run' := run + [Do(app, Now(run), step)];
    forall i | 0 < i < |run'| ensures StepsTo(app, run', i) {
      if i < |run| {
        assert StepsTo(app, run, i);
      }
    }
  }

  // ---- Round trips as steps ----

  /** The nodes after a round trip between `n` and `p`. */
  ghost predicate AfterRound<S>(app: App<S>, c: State<S>, c': State<S>, n: NodeId, p: NodeId)
    requires n in c.nodes && p in c.nodes
  {
    var (s', f') := Round(app, c.nodes[n], c.nodes[p]);
    c'.nodes == c.nodes[p := f'][n := s'] && c.net <= c'.net
  }

  /** `n` leads and `p` is one of its peers. */
  ghost predicate Connected<S>(c: State<S>, n: NodeId, p: NodeId) {
    && n in c.nodes && p in c.nodes && n != p
    && c.nodes[n].id == n && c.nodes[p].id == p
    && c.nodes[n].role == Leader && p in c.nodes[n].peers
  }

  lemma AppendRound<S(!new)>(app: App<S>, run: seq<State<S>>, n: NodeId, p: NodeId) returns (run': seq<State<S>>)
    requires IsRun(app, run) && Connected(Now(run), n, p) && !NeedsSnapshot(Now(run).nodes[n], p)
    ensures Continues(app, run, run') && AfterRound(app, Now(run), Now(run'), n, p)
  {
    var c := Now(run);
    var s, f := c.nodes[n], c.nodes[p];
    var a := AppendRequestOf(s, p);
    var (f', r) := HandleAppendEntries(f, a);
    var run1 := GoOn(app, run, Replicate(n, p));
    assert Now(run1).nodes == c.nodes;
    var run2 := GoOn(app, run1, TakeAppendRequest(AppendRequest(p, a)));
    assert Now(run2).nodes == c.nodes[p := f'];
    run' := GoOn(app, run2, TakeAppendResponse(AppendResponse(p, a, r)));
  }

  lemma SnapRound<S(!new)>(app: App<S>, run: seq<State<S>>, n: NodeId, p: NodeId) returns (run': seq<State<S>>)
    requires IsRun(app, run) && Connected(Now(run), n, p) && NeedsSnapshot(Now(run).nodes[n], p)
    ensures Continues(app, run, run') && AfterRound(app, Now(run), Now(run'), n, p)
  {
    var c := Now(run);
    var s, f := c.nodes[n], c.nodes[p];
    var a := SnapRequestOf(s);
    var (f', r) := HandleInstallSnapshot(app, f, a);
    var run1 := GoOn(app, run, Replicate(n, p));
    assert Now(run1).nodes == c.nodes;
    var run2 := GoOn(app, run1, TakeSnapRequest(SnapRequest(p, a)));
    assert Now(run2).nodes == c.nodes[p := f'];
    run' := GoOn(app, run2, TakeSnapResponse(SnapResponse(p, a, r)));
  }

  lemma OneRound<S(!new)>(app: App<S>, run: seq<State<S>>, n: NodeId, p: NodeId) returns (run': seq<State<S>>)
    requires IsRun(app, run) && Connected(Now(run), n, p)
    ensures Continues(app, run, run') && AfterRound(app, Now(run), Now(run'), n, p)
  {
    if NeedsSnapshot(Now(run).nodes[n], p) {
      run' := SnapRound(app, run, n, p);
    } else {
      run' := AppendRound(app, run, n, p);
    }
  }

  /** The leader leads on with the same log, and its books on peers outside `q` are the same. */
  ghost predicate LeadsAlong<S>(s: Node<S>, s': Node<S>, q: set<NodeId>) {
    && s.role == Leader && s'.role == Leader && s'.id == s.id && s'.peers == s.peers
    && s'.log == s.log && s'.currentTerm == s.currentTerm && s.commitIndex <= s'.commitIndex
    && forall p | p !in q ::
      Get(s'.matchIndex, p) == Get(s.matchIndex, p) && Get(s'.nextIndex, p) == Get(s.nextIndex, p)
  }

  lemma AcknowledgeLeadsAlong<S>(s: Node<S>, p: NodeId, index: nat)
    requires s.role == Leader
    ensures LeadsAlong(s, Acknowledge(s, p, index), {p})
  {
    var s1 := RaiseMatch(s, p, index);
    LargestIsLargest(s1, s1.log.LastIndex());
  }

  /** A round trip with a peer that is not ahead leaves the leader leading and the peer in its term. */
  lemma RoundLeadsAlong<S>(app: App<S>, s: Node<S>, f: Node<S>)
    requires s.role == Leader && f.currentTerm <= s.currentTerm
    ensures var (s', f') := Round(app, s, f);
      LeadsAlong(s, s', {f.id}) && f'.id == f.id && f'.currentTerm == s.currentTerm
  {
    if NeedsSnapshot(s, f.id) {
      AcknowledgeLeadsAlong(s, f.id, SnapRequestOf(s).lastIndex);
    } else {
      AppendLeadsAlong(s, f);
    }
  }

  lemma AppendLeadsAlong<S>(s: Node<S>, f: Node<S>)
    requires s.role == Leader && f.currentTerm <= s.currentTerm
    ensures var (s', f') := Exchange(s, f);
      LeadsAlong(s, s', {f.id}) && f'.id == f.id && f'.currentTerm == s.currentTerm
  {
    AcknowledgeLeadsAlong(s, f.id, AppendRequestOf(s, f.id).LastNew());
  }

  lemma LeadsAlongTwice<S>(s: Node<S>, s1: Node<S>, s2: Node<S>, q: set<NodeId>, q': set<NodeId>)
    requires LeadsAlong(s, s1, q) && LeadsAlong(s1, s2, q')
    ensures LeadsAlong(s, s2, q + q')
  {
  }

  lemma {:induction false} RoundsLeadAlong<S>(app: App<S>, s: Node<S>, f: Node<S>, k: nat)
    requires s.role == Leader && f.currentTerm == s.currentTerm
    ensures var (s', f') := Rounds(app, s, f, k);
      LeadsAlong(s, s', {f.id}) && f'.id == f.id && f'.currentTerm == s.currentTerm
    decreases k
  {
    if k > 0 {
      var j := k - 1;
      var s1, f1 := FirstRound(app, s, f, j, k);
      RoundsLeadAlong(app, s1, f1, j);
      LeadsAlongBoth(s, s1, Rounds(app, s1, f1, j).0, f.id);
    }
  }

  lemma LeadsAlongBoth<S>(s: Node<S>, s1: Node<S>, s2: Node<S>, p: NodeId)
    requires LeadsAlong(s, s1, {p}) && LeadsAlong(s1, s2, {p})
    ensures LeadsAlong(s, s2, {p})
  {
    LeadsAlongTwice(s, s1, s2, {p}, {p});
    assert {p} + {p} == {p};
  }

  lemma FirstRound<S>(app: App<S>, s: Node<S>, f: Node<S>, j: nat, k: nat) returns (s1: Node<S>, f1: Node<S>)
    requires s.role == Leader && f.currentTerm == s.currentTerm && k == j + 1
    ensures Rounds(app, s, f, k) == Rounds(app, s1, f1, j)
    ensures LeadsAlong(s, s1, {f.id}) && f1.id == f.id && f1.currentTerm == s.currentTerm
  {
    var r := Round(app, s, f);
    s1, f1 := r.0, r.1;
    NextOfRounds(app, s, f, s1, f1, j, k);
    RoundLeadsAlong(app, s, f);
  }

  lemma NextOfRounds<S>(app: App<S>, s: Node<S>, f: Node<S>, s1: Node<S>, f1: Node<S>, j: nat, k: nat)
    requires (s1, f1) == Round(app, s, f) && k == j + 1
    ensures Rounds(app, s, f, k) == Rounds(app, s1, f1, j)
  {
  }

  ghost predicate AfterRounds<S>(app: App<S>, c: State<S>, c': State<S>, n: NodeId, p: NodeId, k: nat)
    requires n in c.nodes && p in c.nodes
  {
    var (s', f') := Rounds(app, c.nodes[n], c.nodes[p], k);
    c'.nodes == c.nodes[p := f'][n := s']
  }

  lemma NextRounds<S>(app: App<S>, c: State<S>, c1: State<S>, c2: State<S>, n: NodeId, p: NodeId, j: nat, k: nat)
    requires n in c.nodes && p in c.nodes && n != p && k == j + 1
    requires AfterRound(app, c, c1, n, p) && AfterRounds(app, c1, c2, n, p, j)
    ensures AfterRounds(app, c, c2, n, p, k)
  {
    NextOfRounds(app, c.nodes[n], c.nodes[p], c1.nodes[n], c1.nodes[p], j, k);
    SetTwice(c.nodes, c1.nodes, c2.nodes, n, p);
  }

  lemma SetTwice<S>(m: map<NodeId, Node<S>>, m1: map<NodeId, Node<S>>, m2: map<NodeId, Node<S>>, n: NodeId, p: NodeId)
    requires n in m2 && p in m2 && n in m1 && p in m1 && m1 == m[p := m1[p]][n := m1[n]] && m2 == m1[p := m2[p]][n := m2[n]]
    ensures m2 == m[p := m2[p]][n := m2[n]]
  {
  }

  lemma StaysConnected<S>(app: App<S>, c: State<S>, c1: State<S>, n: NodeId, p: NodeId)
    requires Connected(c, n, p) && c.nodes[p].currentTerm <= c.nodes[n].currentTerm && AfterRound(app, c, c1, n, p)
    ensures Connected(c1, n, p) && c1.nodes[p].currentTerm == c1.nodes[n].currentTerm
  {
    RoundLeadsAlong(app, c.nodes[n], c.nodes[p]);
  }

  lemma {:induction false} ManyRounds<S(!new)>(app: App<S>, run: seq<State<S>>, n: NodeId, p: NodeId, k: nat) returns (run': seq<State<S>>)
    requires IsRun(app, run) && Connected(Now(run), n, p)
    requires Now(run).nodes[p].currentTerm == Now(run).nodes[n].currentTerm
    ensures Continues(app, run, run') && AfterRounds(app, Now(run), Now(run'), n, p, k)
    decreases k, 1
  {
    if k == 0 {
      run' := run;
      NoRounds(app, Now(run), n, p);
    } else {
      run' := MoreRounds(app, run, n, p, k - 1, k);
    }
  }

  lemma NoRounds<S>(app: App<S>, c: State<S>, n: NodeId, p: NodeId)
    requires n in c.nodes && p in c.nodes
    ensures AfterRounds(app, c, c, n, p, 0)
  {
    assert c.nodes[p := c.nodes[p]][n := c.nodes[n]] == c.nodes;
  }

  lemma {:induction false} MoreRounds<S(!new)>(app: App<S>, run: seq<State<S>>, n: NodeId, p: NodeId, j: nat, k: nat) returns (run': seq<State<S>>)
    requires IsRun(app, run) && Connected(Now(run), n, p) && k == j + 1
    requires Now(run).nodes[p].currentTerm == Now(run).nodes[n].currentTerm
    ensures Continues(app, run, run') && AfterRounds(app, Now(run), Now(run'), n, p, k)
    decreases k, 0
  {
    var run1 := OneRound(app, run, n, p);
    StaysConnected(app, Now(run), Now(run1), n, p);
    run' := ManyRounds(app, run1, n, p, j);
    ContinuesTwice(app, run, run1, run');
    NextRounds(app, Now(run), Now(run1), Now(run'), n, p, j, k);
  }

  // ---- A leader and its quiet peers ----

  /** From `c` to `c'` only `n`, leading on, and the nodes of `q` have acted, all in their terms. */
  ghost predicate Steady<S>(c: State<S>, c': State<S>, n: NodeId, q: set<NodeId>) {
    && c'.nodes.Keys == c.nodes.Keys && n in c.nodes
    && LeadsAlong(c.nodes[n], c'.nodes[n], q)
    && (forall m | m in c.nodes && m != n && m !in q :: c'.nodes[m] == c.nodes[m])
    && (forall m | m in c.nodes && m in q :: c'.nodes[m].id == c.nodes[m].id && c'.nodes[m].currentTerm == c.nodes[m].currentTerm)
  }

  lemma SteadyTwice<S>(c: State<S>, c1: State<S>, c2: State<S>, n: NodeId, q: set<NodeId>, q': set<NodeId>)
    requires Steady(c, c1, n, q) && Steady(c1, c2, n, q') && n !in q && n !in q'
    ensures Steady(c, c2, n, q + q')
  {
    LeadsAlongTwice(c.nodes[n], c1.nodes[n], c2.nodes[n], q, q');
  }

  /** `n` leads, and the nodes of `q` are peers of it in its term. */
  ghost predicate Follow<S>(c: State<S>, n: NodeId, q: set<NodeId>) {
    && n in c.nodes && c.nodes[n].role == Leader && n !in q
    && forall p | p in q :: p in c.nodes && p in c.nodes[n].peers && c.nodes[p].currentTerm == c.nodes[n].currentTerm
  }

  lemma OneCatchesUp<S(!new)>(app: App<S>, run: seq<State<S>>, n: NodeId, p: NodeId) returns (run': seq<State<S>>)
    requires AppOk(app) && IsRun(app, run) && Follow(Now(run), n, {p})
    ensures Continues(app, run, run') && Steady(Now(run), Now(run'), n, {p})
    ensures p in Now(run').nodes && Now(run').nodes[p].id == p && CaughtUp(Now(run').nodes[n], Now(run').nodes[p])
  {
    var c := Now(run);
    NodeOfRun(app, run, |run| - 1, n);
    NodeOfRun(app, run, |run| - 1, p);
    var k := PeersCatchUp(app, run, |run| - 1, n, p);
    run' := ManyRounds(app, run, n, p, k);
    RoundsLeadAlong(app, c.nodes[n], c.nodes[p], k);
  }

  /** Every node of `q` has caught up with `n`. */
  ghost predicate AllCaughtUp<S>(c: State<S>, n: NodeId, q: set<NodeId>)
    requires n in c.nodes
  {
    forall p | p in q :: p in c.nodes && CaughtUp(c.nodes[n], c.nodes[p])
  }

  /** Who has caught up stays so while others act. */
  lemma CaughtUpStays<S>(c: State<S>, c': State<S>, n: NodeId, p: NodeId, q: set<NodeId>)
    requires Steady(c, c', n, q) && p in c.nodes && p != n && p !in q && c.nodes[p].id == p
    requires CaughtUp(c.nodes[n], c.nodes[p])
    ensures CaughtUp(c'.nodes[n], c'.nodes[p])
  {
  }

  lemma FollowStays<S>(c: State<S>, c': State<S>, n: NodeId, q: set<NodeId>, p: NodeId)
    requires Follow(c, n, q) && p in q && Steady(c, c', n, {p})
    ensures Follow(c', n, q - {p})
  {
  }

  /** Catching up one more: with `p` done first, then the rest. */
  lemma CaughtUpJoins<S>(c: State<S>, c1: State<S>, c2: State<S>, n: NodeId, q: set<NodeId>, p: NodeId, rest: set<NodeId>)
    requires p in q && rest == q - {p} && n !in q && p in c1.nodes && c1.nodes[p].id == p
    requires Steady(c, c1, n, {p}) && CaughtUp(c1.nodes[n], c1.nodes[p])
    requires Steady(c1, c2, n, rest) && AllCaughtUp(c2, n, rest)
    ensures Steady(c, c2, n, q) && AllCaughtUp(c2, n, q)
  {
    SteadyTwice(c, c1, c2, n, {p}, rest);
    assert {p} + rest == q;
    CaughtUpStays(c1, c2, n, p, rest);
  }

  lemma SteadyAlone<S>(c: State<S>, n: NodeId)
    requires n in c.nodes && c.nodes[n].role == Leader
    ensures Steady(c, c, n, {}) && AllCaughtUp(c, n, {})
  {
  }

  lemma ContinuesTwice<S(!new)>(app: App<S>, run: seq<State<S>>, run1: seq<State<S>>, run2: seq<State<S>>)
    requires Continues(app, run, run1) && Continues(app, run1, run2)
    ensures Continues(app, run, run2)
  {
  }

  lemma {:induction false} AllCatchUp<S(!new)>(app: App<S>, run: seq<State<S>>, n: NodeId, q: set<NodeId>) returns (run': seq<State<S>>)
    requires AppOk(app) && IsRun(app, run) && Follow(Now(run), n, q)
    ensures Continues(app, run, run') && Steady(Now(run), Now(run'), n, q)
    ensures AllCaughtUp(Now(run'), n, q)
    decreases |q|, 1
  {
    if q == {} {
      run' := run;
      SteadyAlone(Now(run), n);
    } else {
      var p :| p in q;
      run' := CatchUpRest(app, run, n, q, p, q - {p});
    }
  }

  lemma {:induction false} CatchUpRest<S(!new)>(app: App<S>, run: seq<State<S>>, n: NodeId, q: set<NodeId>, p: NodeId, rest: set<NodeId>)
      returns (run': seq<State<S>>)
    requires AppOk(app) && IsRun(app, run) && Follow(Now(run), n, q) && p in q && rest == q - {p}
    ensures Continues(app, run, run') && Steady(Now(run), Now(run'), n, q)
    ensures AllCaughtUp(Now(run'), n, q)
    decreases |q|, 0
  {
    var run1 := OneCatchesUp(app, run, n, p);
    FollowStays(Now(run), Now(run1), n, q, p);
    run' := AllCatchUp(app, run1, n, rest);
    ContinuesTwice(app, run, run1, run');
    CaughtUpJoins(Now(run), Now(run1), Now(run'), n, q, p, rest);
  }

  // ---- Committing ----

  /** A leader's log ends with an entry of its own term. */
  lemma LeaderEndsOwn<S(!new)>(app: App<S>, run: seq<State<S>>, i: nat, n: NodeId)
    requires AppOk(app) && IsRun(app, run) && i < |run| && n in run[i].nodes && run[i].nodes[n].role == Leader
    ensures run[i].nodes[n].log.TermAt(run[i].nodes[n].log.LastIndex()) == Some(run[i].nodes[n].currentTerm)
  {
    var hs := EveryRunAccounted(app, run);
    var h, s := hs[i], run[i].nodes[n];
    assert ClusterInv(app, run[i], h);
    assert NodeInv(app, h, n, s);
    assert LeaderOk(h, s.currentTerm) && ReignOk(h, s.currentTerm);
    ViewReads(app, s.log, h.log[n]);
  }

  /** A leader whose log a majority holds, as it knows, has committed all of it. */
  lemma MajorityCommitted<S(!new)>(app: App<S>, run: seq<State<S>>, n: NodeId, q: set<NodeId>)
    requires AppOk(app) && IsRun(app, run) && Follow(Now(run), n, q) && AllCaughtUp(Now(run), n, q)
    requires 2 * (1 + |q|) > |Now(run).nodes|
    ensures Now(run).nodes[n].commitIndex == Now(run).nodes[n].log.LastIndex()
  {
    var i := |run| - 1;
    var s := run[i].nodes[n];
    var x := s.log.LastIndex();
    var holders := {n} + set p | p in s.peers && Get(s.matchIndex, p) >= x;
    NodeOfRun(app, run, i, n);
    LeaderEndsOwn(app, run, i, n);
    forall p | p in q ensures p in holders {
      NodeOfRun(app, run, i, p);
    }
    SubsetCardinality({n} + q, holders);
    LeadersCommitAll(app, run, i, n, x);
  }

  /** The nodes of `q` have committed up to `k`. */
  ghost predicate Informed<S>(c: State<S>, q: set<NodeId>, k: nat) {
    forall p | p in q :: p in c.nodes && k <= c.nodes[p].commitIndex
  }

  lemma PairOfRun<S(!new)>(app: App<S>, run: seq<State<S>>, n: NodeId, p: NodeId) returns (h: History)
    requires AppOk(app) && IsRun(app, run) && Follow(Now(run), n, {p})
    ensures Connected(Now(run), n, p) && Pair(app, h, Now(run).nodes[n], Now(run).nodes[p])
  {
    var hs := EveryRunAccounted(app, run);
    h := hs[|run| - 1];
    assert p in {p};
    assert ClusterInv(app, Now(run), h);
    assert NodeInv(app, h, n, Now(run).nodes[n]) && NodeInv(app, h, p, Now(run).nodes[p]);
  }

  lemma OneInformed<S(!new)>(app: App<S>, run: seq<State<S>>, n: NodeId, p: NodeId) returns (run': seq<State<S>>)
    requires AppOk(app) && IsRun(app, run) && Follow(Now(run), n, {p}) && AllCaughtUp(Now(run), n, {p})
    ensures Continues(app, run, run') && Steady(Now(run), Now(run'), n, {p})
    ensures p in Now(run').nodes && Now(run').nodes[p].id == p && CaughtUp(Now(run').nodes[n], Now(run').nodes[p])
    ensures Now(run').nodes[p].commitIndex >= Now(run).nodes[n].commitIndex
  {
    var c := Now(run);
    var h := PairOfRun(app, run, n, p);
    run' := OneRound(app, run, n, p);
    RoundLeadsAlong(app, c.nodes[n], c.nodes[p]);
    CommitSpreads(app, h, c.nodes[n], c.nodes[p]);
  }

  lemma InformedJoins<S>(c: State<S>, c1: State<S>, c2: State<S>, n: NodeId, q: set<NodeId>, p: NodeId, rest: set<NodeId>, k: nat)
    requires p in q && rest == q - {p} && n !in q && p in c1.nodes && k <= c1.nodes[p].commitIndex
    requires Steady(c1, c2, n, rest) && Informed(c2, rest, k)
    ensures Informed(c2, q, k)
  {
  }

  lemma {:induction false} AllInformed<S(!new)>(app: App<S>, run: seq<State<S>>, n: NodeId, q: set<NodeId>, k: nat) returns (run': seq<State<S>>)
    requires AppOk(app) && IsRun(app, run) && Follow(Now(run), n, q) && AllCaughtUp(Now(run), n, q)
    requires k <= Now(run).nodes[n].commitIndex
    ensures Continues(app, run, run') && Steady(Now(run), Now(run'), n, q)
    ensures AllCaughtUp(Now(run'), n, q) && Informed(Now(run'), q, k)
    decreases |q|, 1
  {
    if q == {} {
      run' := run;
      SteadyAlone(Now(run), n);
    } else {
      var p :| p in q;
      run' := InformRest(app, run, n, q, p, q - {p}, k);
    }
  }

  lemma AllCaughtUpStays<S(!new)>(app: App<S>, run: seq<State<S>>, c': State<S>, n: NodeId, q: set<NodeId>, p: NodeId)
    requires AppOk(app) && IsRun(app, run) && Follow(Now(run), n, q) && AllCaughtUp(Now(run), n, q)
    requires p in q && Steady(Now(run), c', n, {p})
    ensures AllCaughtUp(c', n, q - {p})
  {
    forall m | m in q - {p} ensures m in c'.nodes && CaughtUp(c'.nodes[n], c'.nodes[m]) {
      NodeOfRun(app, run, |run| - 1, m);
      CaughtUpStays(Now(run), c', n, m, {p});
    }
  }

  lemma {:induction false} InformRest<S(!new)>(app: App<S>, run: seq<State<S>>, n: NodeId, q: set<NodeId>, p: NodeId, rest: set<NodeId>, k: nat)
      returns (run': seq<State<S>>)
    requires AppOk(app) && IsRun(app, run) && Follow(Now(run), n, q) && AllCaughtUp(Now(run), n, q)
    requires p in q && rest == q - {p} && k <= Now(run).nodes[n].commitIndex
    ensures Continues(app, run, run') && Steady(Now(run), Now(run'), n, q)
    ensures AllCaughtUp(Now(run'), n, q) && Informed(Now(run'), q, k)
    decreases |q|, 0
  {
    var run1 := OneInformed(app, run, n, p);
    FollowStays(Now(run), Now(run1), n, q, p);
    AllCaughtUpStays(app, run, Now(run1), n, q, p);
    run' := AllInformed(app, run1, n, rest, k);
    ContinuesTwice(app, run, run1, run');
    CaughtUpJoins(Now(run), Now(run1), Now(run'), n, q, p, rest);
    InformedJoins(Now(run), Now(run1), Now(run'), n, q, p, rest, k);
  }

  lemma FollowAlong<S>(c: State<S>, c': State<S>, n: NodeId, q: set<NodeId>)
    requires Follow(c, n, q) && Steady(c, c', n, q)
    ensures Follow(c', n, q)
  {
  }

  lemma SteadySame<S>(c: State<S>, c1: State<S>, c2: State<S>, n: NodeId, q: set<NodeId>)
    requires Steady(c, c1, n, q) && Steady(c1, c2, n, q) && n !in q
    ensures Steady(c, c2, n, q)
  {
    SteadyTwice(c, c1, c2, n, q, q);
    assert q + q == q;
  }

  lemma CatchUpAndCommit<S(!new)>(app: App<S>, run: seq<State<S>>, n: NodeId, q: set<NodeId>, last: nat) returns (run': seq<State<S>>)
    requires AppOk(app) && IsRun(app, run) && Follow(Now(run), n, q) && 2 * (1 + |q|) > |Now(run).nodes|
    requires last == Now(run).nodes[n].log.LastIndex()
    ensures Continues(app, run, run') && Steady(Now(run), Now(run'), n, q) && Follow(Now(run'), n, q)
    ensures AllCaughtUp(Now(run'), n, q) && Now(run').nodes[n].commitIndex == last
  {
    run' := AllCatchUp(app, run, n, q);
    FollowAlong(Now(run), Now(run'), n, q);
    assert |Now(run').nodes.Keys| == |Now(run').nodes| && |Now(run).nodes.Keys| == |Now(run).nodes|;
    MajorityCommitted(app, run', n, q);
  }

  /** Everything committed stays everything committed while the leader leads on. */
  lemma StaysCommitted<S(!new)>(app: App<S>, run: seq<State<S>>, s: Node<S>, n: NodeId, q: set<NodeId>)
    requires AppOk(app) && IsRun(app, run) && n in Now(run).nodes && LeadsAlong(s, Now(run).nodes[n], q)
    requires s.commitIndex == s.log.LastIndex()
    ensures Now(run).nodes[n].commitIndex == s.log.LastIndex()
  {
    NodeOfRun(app, run, |run| - 1, n);
  }

  /** A leader and quiet peers in its term that are, with it, more than half of the cluster: by round
      trips alone all of them come to hold the leader's whole log and to have committed it. */
  lemma MajorityCommits<S(!new)>(app: App<S>, run: seq<State<S>>, n: NodeId, q: set<NodeId>, last: nat) returns (run': seq<State<S>>)
    requires AppOk(app) && IsRun(app, run) && Follow(Now(run), n, q) && 2 * (1 + |q|) > |Now(run).nodes|
    requires last == Now(run).nodes[n].log.LastIndex()
    ensures Continues(app, run, run') && Steady(Now(run), Now(run'), n, q) && AllCaughtUp(Now(run'), n, q)
    ensures Now(run').nodes[n].commitIndex == last && Informed(Now(run'), q, last)
  {
    var run1 := CatchUpAndCommit(app, run, n, q, last);
    run' := AllInformed(app, run1, n, q, last);
    ContinuesTwice(app, run, run1, run');
    SteadySame(Now(run), Now(run1), Now(run'), n, q);
    StaysCommitted(app, run', Now(run1).nodes[n], n, q);
  }
}
