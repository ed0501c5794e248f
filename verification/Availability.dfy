/** No reachable state is a dead end: from any state of any run, any majority of the nodes can, by
    itself, elect a leader and hold, commit and apply the leader's whole log. */
module Availability {
  import opened Entries
  import opened LogView
  import opened RaftNode
  import opened Consensus
  import opened Cluster
  import opened ClusterElection
  import opened Safety
  import opened Backtracking
  import opened CatchUp
  import opened Obligations
  import opened Continuations

  /** From `c` to `c'` only nodes of `q` have acted. */
  ghost predicate OnlyActs<S>(c: State<S>, c': State<S>, q: set<NodeId>) {
    c'.nodes.Keys == c.nodes.Keys && forall m | m in c.nodes && m !in q :: c'.nodes[m] == c.nodes[m]
  }

  lemma OnlyActsTwice<S>(c: State<S>, c1: State<S>, c2: State<S>, q: set<NodeId>)
    requires OnlyActs(c, c1, q) && OnlyActs(c1, c2, q)
    ensures OnlyActs(c, c2, q)
  {
  }

  // ---- Standing for election ----

  /** `n` has just stood, from `s0`, and its vote requests are out. */
  ghost predicate Stands<S>(c: State<S>, c': State<S>, n: NodeId, s0: Node<S>, t: nat)
    requires n in c.nodes
  {
    && s0.role != Leader && s0.id == c.nodes[n].id && s0.peers == c.nodes[n].peers && s0.log == c.nodes[n].log
    && StartElection(s0).currentTerm > t
    && c'.nodes == c.nodes[n := StartElection(s0)]
    && VoteRequestsOf(StartElection(s0)) <= c'.net
  }

  lemma StandsAgain<S>(c: State<S>, c1: State<S>, c2: State<S>, n: NodeId, s0: Node<S>, s1: Node<S>, t: nat, t': nat)
    requires n in c.nodes && Stands(c, c1, n, s0, t') && Stands(c1, c2, n, s1, t)
    ensures Stands(c, c2, n, s1, t)
  {
    assert c1.nodes[n := StartElection(s1)] == c.nodes[n := StartElection(s1)];
  }

  /** A node that does not lead stands until its term is past `t`. */
  lemma {:induction false} StandPast<S(!new)>(app: App<S>, run: seq<State<S>>, n: NodeId, t: nat)
      returns (run': seq<State<S>>, s0: Node<S>)
    requires IsRun(app, run) && n in Now(run).nodes && Now(run).nodes[n].role != Leader
    ensures Continues(app, run, run') && Stands(Now(run), Now(run'), n, s0, t)
    decreases t - Now(run).nodes[n].currentTerm
  {
    s0 := Now(run).nodes[n];
    run' := GoOn(app, run, Timeout(n));
    var e := StartElection(s0);
    assert Stands(Now(run), Now(run'), n, s0, s0.currentTerm);
    if e.currentTerm <= t {
      var run1, first := run', s0;
      run', s0 := StandPast(app, run1, n, t);
      ContinuesTwice(app, run, run1, run');
      StandsAgain(Now(run), Now(run1), Now(run'), n, first, s0, t, first.currentTerm);
    }
  }

  // ---- Collecting the votes ----

  /** A log ending as `v` does is at least as up to date as `w`. */
  predicate AtLeast(v: View, w: View) {
    var i, j := v.LastIndex(), w.LastIndex();
    v.TermOrZero(i) > w.TermOrZero(j) || (v.TermOrZero(i) == w.TermOrZero(j) && i >= j)
  }

  /** A node behind the candidate's term and log grants its vote and is then in its term. */
  lemma GrantsWhenBehind<S>(f: Node<S>, e: Node<S>)
    requires f.currentTerm < e.currentTerm && AtLeast(e.log, f.log)
    ensures var (f', r) := HandleRequestVote(f, VoteRequestOf(e));
      && r == VoteReply(e.currentTerm, true)
      && f'.currentTerm == e.currentTerm && f'.log == f.log && f'.id == f.id
  {
  }

  lemma OneVote<S(!new)>(app: App<S>, run: seq<State<S>>, n: NodeId, p: NodeId, a: VoteArgs) returns (run': seq<State<S>>)
    requires IsRun(app, run) && n in Now(run).nodes && p in Now(run).nodes && n != p
    requires a.candidate == n && VoteRequest(p, a) in Now(run).net
    ensures Continues(app, run, run') && Now(run).net <= Now(run').net
    ensures var (f', r) := HandleRequestVote(Now(run).nodes[p], a);
      Now(run').nodes == Now(run).nodes[p := f'][n := OnVoteReply(Now(run).nodes[n], p, a.term, r)]
  {
    var c := Now(run);
    var (f', r) := HandleRequestVote(c.nodes[p], a);
    var run1 := GoOn(app, run, TakeVoteRequest(VoteRequest(p, a)));
    assert Now(run1).nodes == c.nodes[p := f'];
    run' := GoOn(app, run1, TakeVoteResponse(VoteResponse(p, a, r)));
  }

  /** Everyone in `ps` grants its vote in the candidate's term. */
  function Grants(ps: seq<NodeId>, t: nat): seq<(NodeId, VoteReply)> {
    seq(|ps|, i requires 0 <= i < |ps| => (ps[i], VoteReply(t, true)))
  }

  /** The candidate `e` asks; those in `ps` are other nodes behind its term and its log. */
  ghost predicate Asks<S>(c: State<S>, n: NodeId, e: Node<S>, ps: seq<NodeId>) {
    && n in c.nodes && c.nodes[n] == e && e.id == n && n !in ps && Distinct(ps)
    && forall i {:trigger ps[i]} | 0 <= i < |ps| ::
      && ps[i] in c.nodes && VoteRequest(ps[i], VoteRequestOf(e)) in c.net
      && c.nodes[ps[i]].currentTerm < e.currentTerm && AtLeast(e.log, c.nodes[ps[i]].log)
  }

  /** The first `k` of `ps` have voted. */
  ghost predicate Polled<S>(c: State<S>, c': State<S>, n: NodeId, e: Node<S>, ps: seq<NodeId>, k: nat)
    requires k <= |ps|
  {
    && c'.nodes.Keys == c.nodes.Keys && c.net <= c'.net && n in c.nodes
    && c'.nodes[n] == AfterReplies(e, Grants(ps, e.currentTerm), k)
    && (forall m | m in c.nodes && m != n && m !in ps[..k] :: c'.nodes[m] == c.nodes[m])
    && (forall i {:trigger ps[i]} | 0 <= i < k && ps[i] in c.nodes :: c'.nodes[ps[i]].currentTerm == e.currentTerm)
  }

  lemma PolledOneMore<S>(c: State<S>, c1: State<S>, c2: State<S>, n: NodeId, e: Node<S>, ps: seq<NodeId>, j: nat, k: nat,
                         f': Node<S>, s': Node<S>)
    requires k == j + 1 <= |ps| && n !in ps && Distinct(ps) && Polled(c, c1, n, e, ps, j) && c1.net <= c2.net
    requires ps[j] in c1.nodes && f'.currentTerm == e.currentTerm && s' == AfterReplies(e, Grants(ps, e.currentTerm), k)
    requires c2.nodes == c1.nodes[ps[j] := f'][n := s']
    ensures Polled(c, c2, n, e, ps, k)
  {
    assert ps[..k] == ps[..j] + [ps[j]];
    forall i | 0 <= i < k && ps[i] in c.nodes ensures c2.nodes[ps[i]].currentTerm == e.currentTerm {
      assert ps[i] != n && (i < j ==> ps[i] != ps[j]);
    }
  }

  /** The next of `ps` votes. */
  lemma PollNext<S(!new)>(app: App<S>, run: seq<State<S>>, c: State<S>, n: NodeId, e: Node<S>, ps: seq<NodeId>, j: nat, k: nat)
      returns (run': seq<State<S>>)
    requires IsRun(app, run) && Asks(c, n, e, ps) && k == j + 1 <= |ps| && Polled(c, Now(run), n, e, ps, j)
    ensures Continues(app, run, run') && Polled(c, Now(run'), n, e, ps, k)
  {
    var c1, p := Now(run), ps[j];
    assert p !in ps[..j] && p in ps;
    assert c1.nodes[p] == c.nodes[p];
    run' := OneVote(app, run, n, p, VoteRequestOf(e));
    GrantsWhenBehind(c.nodes[p], e);
    assert Grants(ps, e.currentTerm)[j] == (p, VoteReply(e.currentTerm, true));
    PolledOneMore(c, c1, Now(run'), n, e, ps, j, k, HandleRequestVote(c1.nodes[p], VoteRequestOf(e)).0,
                  AfterReplies(e, Grants(ps, e.currentTerm), k));
  }

  lemma {:induction false} Poll<S(!new)>(app: App<S>, run: seq<State<S>>, n: NodeId, e: Node<S>, ps: seq<NodeId>, k: nat)
      returns (run': seq<State<S>>)
    requires IsRun(app, run) && Asks(Now(run), n, e, ps) && k <= |ps|
    ensures Continues(app, run, run') && Polled(Now(run), Now(run'), n, e, ps, k)
  {
    if k == 0 {
      run' := run;
    } else {
      var j := k - 1;
      var run1 := Poll(app, run, n, e, ps, j);
      run' := PollNext(app, run1, Now(run), n, e, ps, j, k);
      ContinuesTwice(app, run, run1, run');
    }
  }

  /** With all of `ps` and itself more than half of the cluster, the candidate leads. */
  lemma PolledLeads<S>(s0: Node<S>, ps: seq<NodeId>)
    requires s0.role != Leader && Distinct(ps) && ps != [] && (forall p | p in ps :: p in s0.peers)
    requires 2 * (1 + |ps|) > |s0.peers| + 1
    ensures var e := StartElection(s0);
      var s := AfterReplies(e, Grants(ps, e.currentTerm), |ps|);
      s.role == Leader && s.currentTerm == e.currentTerm && s.peers == s0.peers
  {
    var e := StartElection(s0);
    var replies := Grants(ps, e.currentTerm);
    assert ps[0] in s0.peers;
    LeadsIffMajority(s0, replies, |ps|);
    forall p | p in PeerSet(ps) ensures p in Granters(s0.peers, replies, |ps|) {
      var i :| 0 <= i < |ps| && ps[i] == p;
      assert FirstGrant(replies, i);
    }
    DistinctCount(ps);
    SubsetCardinality(PeerSet(ps), Granters(s0.peers, replies, |ps|));
  }

  // ---- Electing the best ----

  lemma {:induction false} InOrder(q: set<NodeId>) returns (ps: seq<NodeId>)
    ensures Distinct(ps) && PeerSet(ps) == q && |ps| == |q|
    decreases |q|
  {
    if q == {} {
      ps := [];
    } else {
      var p :| p in q;
      var rest := InOrder(q - {p});
      assert p !in PeerSet(rest);
      ps := rest + [p];
      assert PeerSet(ps) == PeerSet(rest) + {p};
    }
  }

  lemma {:induction false} TermBound<S>(c: State<S>, q: set<NodeId>) returns (t: nat)
    requires q <= c.nodes.Keys
    ensures forall p | p in q :: c.nodes[p].currentTerm <= t
    decreases |q|
  {
    t := 0;
    if q != {} {
      var p :| p in q;
      t := TermBound(c, q - {p});
      t := Max(t, c.nodes[p].currentTerm);
    }
  }

  /** Some node of `q` has a log at least as up to date as every other's. */
  lemma {:induction false} BestOf<S>(c: State<S>, q: set<NodeId>) returns (n: NodeId)
    requires q != {} && q <= c.nodes.Keys
    ensures n in q && forall p | p in q :: AtLeast(c.nodes[n].log, c.nodes[p].log)
    decreases |q|
  {
    var first :| first in q;
    var rest := q - {first};
    n := first;
    assert forall p | p in q && p != first :: p in rest;
    if rest == {} {
      AtLeastOrdered(c.nodes[n].log, c.nodes[n].log, c.nodes[n].log);
    } else {
      var m := BestOf(c, rest);
      n := if AtLeast(c.nodes[first].log, c.nodes[m].log) then first else m;
      forall p | p in q ensures AtLeast(c.nodes[n].log, c.nodes[p].log) {
        assert p == first || p in rest;
        AtLeastOrdered(c.nodes[first].log, c.nodes[m].log, c.nodes[p].log);
      }
    }
  }

  /** Being at least as up to date is a total order. */
  lemma AtLeastOrdered(u: View, v: View, w: View)
    ensures AtLeast(u, v) || AtLeast(v, u)
    ensures AtLeast(u, v) && AtLeast(v, w) ==> AtLeast(u, w)
    ensures AtLeast(u, u)
  {
  }

  /** `n` does not lead, and has a log at least as up to date as every node of `q`. */
  ghost predicate Ahead<S>(c: State<S>, n: NodeId, q: set<NodeId>) {
    && n in c.nodes && n !in q && q <= c.nodes.Keys && c.nodes[n].role != Leader
    && forall p | p in q :: AtLeast(c.nodes[n].log, c.nodes[p].log)
  }

  lemma StandsAsks<S>(c: State<S>, c1: State<S>, n: NodeId, s0: Node<S>, t: nat, q: set<NodeId>, ps: seq<NodeId>)
    requires Ahead(c, n, q) && Stands(c, c1, n, s0, t) && (forall p | p in q :: c.nodes[p].currentTerm <= t)
    requires c.nodes[n].id == n && PeerSet(c.nodes[n].peers) == c.nodes.Keys - {n}
    requires Distinct(ps) && PeerSet(ps) == q
    ensures Asks(c1, n, StartElection(s0), ps)
  {
    var e := StartElection(s0);
    assert n in ps ==> n in PeerSet(ps);
    forall i | 0 <= i < |ps|
      ensures ps[i] in c1.nodes && VoteRequest(ps[i], VoteRequestOf(e)) in c1.net
      ensures c1.nodes[ps[i]].currentTerm < e.currentTerm && AtLeast(e.log, c1.nodes[ps[i]].log)
    {
      assert ps[i] in PeerSet(ps) && ps[i] in PeerSet(c.nodes[n].peers);
    }
  }

  lemma PolledFollow<S>(c: State<S>, c': State<S>, n: NodeId, s0: Node<S>, q: set<NodeId>, ps: seq<NodeId>)
    requires s0.role != Leader && Asks(c, n, StartElection(s0), ps) && PeerSet(ps) == q && |ps| == |q| && q != {}
    requires q <= PeerSet(s0.peers) && 2 * (1 + |q|) > |s0.peers| + 1
    requires Polled(c, c', n, StartElection(s0), ps, |ps|)
    ensures Follow(c', n, q) && OnlyActs(c, c', q + {n})
  {
    assert ps[..|ps|] == ps;
    forall p | p in ps ensures p in s0.peers {
      assert p in PeerSet(ps);
    }
    PolledLeads(s0, ps);
    forall p | p in q ensures p in c'.nodes && p in s0.peers && c'.nodes[p].currentTerm == StartElection(s0).currentTerm {
      var i :| 0 <= i < |ps| && ps[i] == p;
    }
    assert n in ps ==> n in PeerSet(ps);
    forall m | m in c.nodes && m !in q + {n} ensures c'.nodes[m] == c.nodes[m] {
      assert m in ps ==> m in PeerSet(ps);
    }
  }

  /** A node ahead of others that are, with it, more than half of the cluster can win their votes. */
  lemma Elect<S(!new)>(app: App<S>, run: seq<State<S>>, n: NodeId, q: set<NodeId>) returns (run': seq<State<S>>)
    requires AppOk(app) && IsRun(app, run) && Ahead(Now(run), n, q) && q != {} && 2 * (1 + |q|) > |Now(run).nodes|
    ensures Continues(app, run, run') && OnlyActs(Now(run), Now(run'), q + {n}) && Follow(Now(run'), n, q)
  {
    NodeOfRun(app, run, |run| - 1, n);
    var t := TermBound(Now(run), q);
    var run1, s0 := StandPast(app, run, n, t);
    var ps := InOrder(q);
    StandsAsks(Now(run), Now(run1), n, s0, t, q, ps);
    run' := Poll(app, run1, n, StartElection(s0), ps, |ps|);
    ContinuesTwice(app, run, run1, run');
    PolledFollow(Now(run1), Now(run'), n, s0, q, ps);
    OnlyActsTwice(Now(run), Now(run1), Now(run'), q + {n});
  }

  // ---- A leader of the newest term, or none ----

  /** A peer in a newer term makes a leader step down. */
  lemma Demote<S(!new)>(app: App<S>, run: seq<State<S>>, n: NodeId, p: NodeId) returns (run': seq<State<S>>)
    requires IsRun(app, run) && Connected(Now(run), n, p)
    requires Now(run).nodes[p].currentTerm > Now(run).nodes[n].currentTerm
    ensures Continues(app, run, run') && OnlyActs(Now(run), Now(run'), {n})
    ensures Now(run').nodes[n].role != Leader && Now(run').nodes[n].log == Now(run).nodes[n].log
  {
    run' := OneRound(app, run, n, p);
  }

  /** `n` leads, and no node of `q` is in a newer term. */
  ghost predicate Heads<S>(c: State<S>, n: NodeId, q: set<NodeId>) {
    && n in c.nodes && c.nodes[n].role == Leader && n !in q
    && forall p | p in q :: p in c.nodes && p in c.nodes[n].peers && c.nodes[p].currentTerm <= c.nodes[n].currentTerm
  }

  /** Round trips bring everyone into the leader's term. */
  lemma {:induction false} BringAlong<S(!new)>(app: App<S>, run: seq<State<S>>, n: NodeId, q: set<NodeId>) returns (run': seq<State<S>>)
    requires AppOk(app) && IsRun(app, run) && Heads(Now(run), n, q)
    ensures Continues(app, run, run') && OnlyActs(Now(run), Now(run'), q + {n}) && Follow(Now(run'), n, q)
    ensures LeadsAlong(Now(run).nodes[n], Now(run').nodes[n], q)
    decreases |q|
  {
    if q == {} {
      run' := run;
    } else {
      var p :| p in q;
      var run1 := BringOne(app, run, n, q, p);
      run' := BringAlong(app, run1, n, q - {p});
      ContinuesTwice(app, run, run1, run');
      BroughtAlong(Now(run), Now(run1), Now(run'), n, q, p, q - {p});
    }
  }

  lemma BringOne<S(!new)>(app: App<S>, run: seq<State<S>>, n: NodeId, q: set<NodeId>, p: NodeId) returns (run': seq<State<S>>)
    requires AppOk(app) && IsRun(app, run) && Heads(Now(run), n, q) && p in q
    ensures Continues(app, run, run') && OnlyActs(Now(run), Now(run'), {n, p}) && Heads(Now(run'), n, q - {p})
    ensures LeadsAlong(Now(run).nodes[n], Now(run').nodes[n], {p})
    ensures p in Now(run').nodes && Now(run').nodes[p].currentTerm == Now(run').nodes[n].currentTerm
  {
    NodeOfRun(app, run, |run| - 1, n);
    NodeOfRun(app, run, |run| - 1, p);
    run' := OneRound(app, run, n, p);
    RoundLeadsAlong(app, Now(run).nodes[n], Now(run).nodes[p]);
  }

  lemma BroughtAlong<S>(c: State<S>, c1: State<S>, c2: State<S>, n: NodeId, q: set<NodeId>, p: NodeId, rest: set<NodeId>)
    requires p in q && rest == q - {p} && Heads(c, n, q) && p in c1.nodes && n in c2.nodes
    requires OnlyActs(c, c1, {n, p}) && LeadsAlong(c.nodes[n], c1.nodes[n], {p})
    requires c1.nodes[p].currentTerm == c1.nodes[n].currentTerm
    requires OnlyActs(c1, c2, rest + {n}) && LeadsAlong(c1.nodes[n], c2.nodes[n], rest) && Follow(c2, n, rest)
    ensures OnlyActs(c, c2, q + {n}) && Follow(c2, n, q) && LeadsAlong(c.nodes[n], c2.nodes[n], q)
  {
    LeadsAlongTwice(c.nodes[n], c1.nodes[n], c2.nodes[n], {p}, rest);
    assert {p} + rest == q;
  }

  /** A leader of the newest term among `q`, if there is one. */
  ghost predicate Leading<S>(c: State<S>, n: NodeId, q: set<NodeId>) {
    && n in q && n in c.nodes && c.nodes[n].role == Leader
    && forall p | p in q :: p in c.nodes && c.nodes[p].currentTerm <= c.nodes[n].currentTerm
  }

  lemma LeadingHeads<S(!new)>(app: App<S>, run: seq<State<S>>, n: NodeId, q: set<NodeId>)
    requires AppOk(app) && IsRun(app, run) && Leading(Now(run), n, q)
    ensures Heads(Now(run), n, q - {n})
  {
    NodeOfRun(app, run, |run| - 1, n);
    forall p | p in q - {n} ensures p in Now(run).nodes[n].peers {
      assert p in PeerSet(Now(run).nodes[n].peers);
    }
  }

  /** The best of `q`, made to step down if it leads an older term. */
  lemma BestAhead<S(!new)>(app: App<S>, run: seq<State<S>>, q: set<NodeId>) returns (run': seq<State<S>>, n: NodeId)
    requires AppOk(app) && IsRun(app, run) && q != {} && q <= Now(run).nodes.Keys
    requires forall m | m in q :: !Leading(Now(run), m, q)
    ensures Continues(app, run, run') && OnlyActs(Now(run), Now(run'), q)
    ensures n in q && Ahead(Now(run'), n, q - {n})
  {
    n := BestOf(Now(run), q);
    run' := run;
    if Now(run).nodes[n].role == Leader {
      var p :| p in q && Now(run).nodes[p].currentTerm > Now(run).nodes[n].currentTerm;
      NodeOfRun(app, run, |run| - 1, n);
      NodeOfRun(app, run, |run| - 1, p);
      assert p in PeerSet(Now(run).nodes[n].peers);
      run' := Demote(app, run, n, p);
    }
  }

  /** Any majority can come to follow one of its own. */
  lemma FindLeader<S(!new)>(app: App<S>, run: seq<State<S>>, q: set<NodeId>) returns (run': seq<State<S>>, n: NodeId)
    requires AppOk(app) && IsRun(app, run) && q <= Now(run).nodes.Keys
    requires 2 * |q| > |Now(run).nodes| && |Now(run).nodes| > 1
    ensures Continues(app, run, run') && OnlyActs(Now(run), Now(run'), q)
    ensures n in q && Follow(Now(run'), n, q - {n})
  {
    if m :| m in q && Leading(Now(run), m, q) {
      n := m;
      LeadingHeads(app, run, n, q);
      run' := BringAlong(app, run, n, q - {n});
      assert q - {n} + {n} == q;
    } else {
      var run1;
      run1, n := BestAhead(app, run, q);
      assert |Now(run1).nodes.Keys| == |Now(run).nodes.Keys| && q - {n} + {n} == q && |q - {n}| == |q| - 1;
      assert |Now(run1).nodes.Keys| == |Now(run1).nodes| && |Now(run).nodes.Keys| == |Now(run).nodes|;
      run' := Elect(app, run1, n, q - {n});
      ContinuesTwice(app, run, run1, run');
      OnlyActsTwice(Now(run), Now(run1), Now(run'), q);
    }
  }

  // ---- Applying what is committed ----

  /** The node has applied all it has committed and is otherwise as it was. */
  ghost predicate AppliedAll<S>(s: Node<S>, s': Node<S>) {
    && s' == s.(log := s'.log, lastApplied := s.commitIndex, machine := s'.machine)
    && s'.log.LastIndex() == s.log.LastIndex()
  }

  lemma ApplyMovesOn<S>(app: App<S>, s: Node<S>)
    requires Sane(s) && s.lastApplied < s.commitIndex
    ensures var s' := ApplyNext(app, s);
      && s' == s.(log := s'.log, lastApplied := s.lastApplied + 1, machine := s'.machine)
      && s'.log.LastIndex() == s.log.LastIndex()
  {
  }

  lemma {:induction false} ApplyAll<S(!new)>(app: App<S>, run: seq<State<S>>, m: NodeId) returns (run': seq<State<S>>)
    requires AppOk(app) && IsRun(app, run) && m in Now(run).nodes
    ensures Continues(app, run, run') && OnlyActs(Now(run), Now(run'), {m})
    ensures AppliedAll(Now(run).nodes[m], Now(run').nodes[m])
    decreases Now(run).nodes[m].commitIndex - Now(run).nodes[m].lastApplied
  {
    NodeOfRun(app, run, |run| - 1, m);
    run' := run;
    if Now(run).nodes[m].lastApplied < Now(run).nodes[m].commitIndex {
      ApplyMovesOn(app, Now(run).nodes[m]);
      var run1 := GoOn(app, run, Apply(m));
      run' := ApplyAll(app, run1, m);
      ContinuesTwice(app, run, run1, run');
    }
  }

  /** Everyone in `q` has applied all it has committed. */
  ghost predicate EachApplied<S>(c: State<S>, c': State<S>, q: set<NodeId>) {
    OnlyActs(c, c', q) && forall m | m in q :: m in c.nodes && AppliedAll(c.nodes[m], c'.nodes[m])
  }

  lemma EachAppliedJoins<S>(c: State<S>, c1: State<S>, c2: State<S>, q: set<NodeId>, m: NodeId, rest: set<NodeId>)
    requires m in q && rest == q - {m} && m in c.nodes && OnlyActs(c, c1, {m}) && AppliedAll(c.nodes[m], c1.nodes[m])
    requires EachApplied(c1, c2, rest)
    ensures EachApplied(c, c2, q)
  {
  }

  lemma {:induction false} ApplyEach<S(!new)>(app: App<S>, run: seq<State<S>>, q: set<NodeId>) returns (run': seq<State<S>>)
    requires AppOk(app) && IsRun(app, run) && q <= Now(run).nodes.Keys
    ensures Continues(app, run, run') && EachApplied(Now(run), Now(run'), q)
    decreases |q|
  {
    if q == {} {
      run' := run;
    } else {
      var m :| m in q;
      var run1 := ApplyAll(app, run, m);
      run' := ApplyEach(app, run1, q - {m});
      ContinuesTwice(app, run, run1, run');
      EachAppliedJoins(Now(run), Now(run1), Now(run'), q, m, q - {m});
    }
  }

  // ---- Never stuck ----

  /** `n` leads `q`, whose nodes have all committed and applied its whole log. */
  ghost predicate InService<S>(c: State<S>, n: NodeId, q: set<NodeId>) {
    && n in q && n in c.nodes && c.nodes[n].role == Leader
    && forall m | m in q ::
      && m in c.nodes && c.nodes[m].currentTerm == c.nodes[n].currentTerm
      && c.nodes[m].commitIndex == c.nodes[m].lastApplied == c.nodes[n].log.LastIndex()
      && c.nodes[m].machine == c.nodes[n].machine
  }

  /** Committed everywhere, and nowhere beyond the leader's log. */
  lemma CommittedEverywhere<S(!new)>(app: App<S>, run: seq<State<S>>, n: NodeId, q: set<NodeId>, last: nat, p: NodeId)
    requires AppOk(app) && IsRun(app, run) && Follow(Now(run), n, q) && Informed(Now(run), q, last) && p in q
    requires Now(run).nodes[n].log.LastIndex() == last
    ensures Now(run).nodes[p].commitIndex == last
  {
    assert Follow(Now(run), n, {p});
    var h := PairOfRun(app, run, n, p);
    CommitWithinLeader(app, h, Now(run).nodes[n], Now(run).nodes[p]);
  }

  lemma ServiceBegins<S(!new)>(app: App<S>, run: seq<State<S>>, run': seq<State<S>>, n: NodeId, q: set<NodeId>, last: nat)
    requires AppOk(app) && IsRun(app, run) && IsRun(app, run') && n in q
    requires Follow(Now(run), n, q - {n}) && Informed(Now(run), q - {n}, last)
    requires Now(run).nodes[n].log.LastIndex() == last == Now(run).nodes[n].commitIndex
    requires EachApplied(Now(run), Now(run'), q)
    ensures InService(Now(run'), n, q)
  {
    forall m | m in q
      ensures m in Now(run').nodes && Now(run').nodes[m].currentTerm == Now(run').nodes[n].currentTerm
      ensures Now(run').nodes[m].commitIndex == Now(run').nodes[m].lastApplied == last
    {
      if m != n {
        CommittedEverywhere(app, run, n, q - {n}, last, m);
      }
    }
    forall m | m in q ensures Now(run').nodes[m].machine == Now(run').nodes[n].machine {
      EqualProgressEqualMachines(app, run', |run'| - 1, |run'| - 1, m, n);
    }
  }

  /** From any state of any run of at least two nodes, and for any majority of them, the run can go on
      with steps of that majority alone to a state where one of it leads and all of it has committed
      and applied the leader's whole log. */
  lemma NeverStuck<S(!new)>(app: App<S>, run: seq<State<S>>, q: set<NodeId>) returns (run': seq<State<S>>, n: NodeId)
    requires AppOk(app) && IsRun(app, run) && q <= Now(run).nodes.Keys
    requires 2 * |q| > |Now(run).nodes| && |Now(run).nodes| > 1
    ensures Continues(app, run, run') && OnlyActs(Now(run), Now(run'), q) && InService(Now(run'), n, q)
  {
    var run1;
    run1, n := FindLeader(app, run, q);
    var run2 := Commits(app, run1, n, q, Now(run1).nodes[n].log.LastIndex());
    run' := ApplyEach(app, run2, q);
    ContinuesTwice(app, run, run1, run2);
    ContinuesTwice(app, run, run2, run');
    OnlyActsTwice(Now(run), Now(run1), Now(run2), q);
    OnlyActsTwice(Now(run), Now(run2), Now(run'), q);
    ServiceBegins(app, run2, run', n, q, Now(run1).nodes[n].log.LastIndex());
  }

  lemma Commits<S(!new)>(app: App<S>, run: seq<State<S>>, n: NodeId, q: set<NodeId>, last: nat) returns (run': seq<State<S>>)
    requires AppOk(app) && IsRun(app, run) && n in q && Follow(Now(run), n, q - {n}) && 2 * |q| > |Now(run).nodes|
    requires last == Now(run).nodes[n].log.LastIndex()
    ensures Continues(app, run, run') && OnlyActs(Now(run), Now(run'), q) && Follow(Now(run'), n, q - {n})
    ensures Informed(Now(run'), q - {n}, last)
    ensures Now(run').nodes[n].log.LastIndex() == last == Now(run').nodes[n].commitIndex
  {
    assert |q - {n}| == |q| - 1;
    run' := MajorityCommits(app, run, n, q - {n}, last);
    FollowAlong(Now(run), Now(run'), n, q - {n});
  }

  /** A cluster of one never has a leader: a candidate wins only when a peer replies. */
  lemma LoneNodeNeverLeads<S(!new)>(app: App<S>, run: seq<State<S>>, i: nat, n: NodeId)
    requires AppOk(app) && IsRun(app, run) && i < |run| && n in run[i].nodes && |run[i].nodes| == 1
    ensures run[i].nodes[n].role != Leader
  {
    NodeOfRun(app, run, i, n);
  }
}
