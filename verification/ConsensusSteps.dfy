/** The moves of the consensus core, and the proof that each keeps the invariant. */
module ConsensusSteps {
  import opened Entries
  import opened Consensus

  // ---- Parts of the invariant that a move leaves alone ----

  lemma KeepNode(h: History, h': History, n: NodeId)
    requires Extends(h, h') && n in h.members && NodeOk(h, n) && h'.log[n] == h.log[n]
    ensures NodeOk(h', n)
  {
    LogOkStable(h, h', h.log[n]);
  }

  lemma KeepVote(h: History, h': History, v: (NodeId, nat))
    requires Extends(h, h') && v in h.votes && VoteOk(h, v)
    ensures VoteOk(h', v)
  {
  }

  lemma KeepBallot(h: History, h': History, b: (NodeId, nat))
    requires Extends(h, h') && b in h.ballots && BallotOk(h, b)
    ensures BallotOk(h', b)
  {
    LogOkStable(h, h', h.ballots[b]);
  }

  lemma KeepReign(h: History, h': History, t: nat)
    requires Extends(h, h') && t in h.reigns && ReignOk(h, t) && h'.reigns[t].log == h.reigns[t].log
    ensures ReignOk(h', t)
  {
    LogOkStable(h, h', h.reigns[t].log);
  }

  /** Acknowledged entries stay safe on a node that kept its log and gave no new acknowledgement. */
  lemma KeepKept(h: History, h': History, n: NodeId)
    requires Extends(h, h') && AcksOk(h) && n in h.members && Kept(h, n) && h'.log[n] == h.log[n]
    requires Unacked(h, h', n)
    ensures Kept(h', n)
  {
    forall t: nat, k: nat | Own(h', t, k) && t < h'.term[n] && k <= Acked(h', n, t)
      ensures Safe(h', t, k, h'.log[n])
    {
      AckedIsOwn(h, h', n, t, k);
      if t < h.term[n] {
        assert Safe(h, t, k, h.log[n]);
      } else {
        assert AckOk(h, (n, t));
        assert Agree(h.reigns[t].log, h.log[n], k);
      }
      SafeStable(h, h', t, k, h.log[n]);
    }
  }

  /** An own index acknowledged before the move was an own index before the move. */
  lemma AckedIsOwn(h: History, h': History, n: NodeId, t: nat, k: nat)
    requires Extends(h, h') && AcksOk(h) && n in h.members
    requires Own(h', t, k) && k <= Acked(h, n, t)
    ensures Own(h, t, k) && (n, t) in h.acks && t <= h.term[n]
  {
    assert (n, t) in h.acks;
    assert AckOk(h, (n, t));
  }

  lemma KeepVoteSafe(h: History, h': History, v: (NodeId, nat))
    requires Extends(h, h') && AcksOk(h) && v in h.votes && VoteOk(h, v) && VoteSafe(h, v)
    ensures VoteSafe(h', v)
  {
    var b := (h.votes[v], v.1);
    forall t: nat, k: nat | Own(h', t, k) && t < v.1 && k <= Acked(h', v.0, t)
      ensures Safe(h', t, k, h'.ballots[b])
    {
      assert Acked(h', v.0, t) == Acked(h, v.0, t);
      AckedIsOwn(h, h', v.0, t, k);
      assert Safe(h, t, k, h.ballots[b]);
      SafeStable(h, h', t, k, h.ballots[b]);
    }
  }

  /** A later reign's voters left term `t` for good: an index that none of them acknowledged is dead. */
  lemma VotersLeft(h: History, t: nat, t': nat, k: nat)
    requires t' in h.reigns && ReignOk(h, t') && VotesOk(h) && t < t'
    requires forall n | n in h.reigns[t'].voters :: Acked(h, n, t) < k
    ensures Dead(h, t, k)
  {
    var q := h.reigns[t'].voters;
    forall m | m in q
      ensures m in h.term && h.term[m] > t
    {
      assert VoteOk(h, (m, t'));
    }
    assert DeadBy(h, q, t, k);
  }

  /** A reign stays safe; indices appended to earlier reigns meanwhile are dead on arrival. */
  lemma KeepReignSafe(h: History, h': History, t': nat)
    requires Extends(h, h') && AcksOk(h) && VotesOk(h)
    requires t' in h.reigns && ReignOk(h, t') && ReignSafe(h, t')
    ensures ReignSafe(h', t')
  {
    forall t: nat, k: nat | Own(h', t, k) && t < t'
      ensures (k <= h'.reigns[t'].base && Agree(h'.reigns[t].log, h'.reigns[t'].log, k)) || Dead(h', t, k)
    {
      if Own(h, t, k) {
        if Dead(h, t, k) {
          DeadStable(h, h', t, k);
        } else {
          assert Agree(h.reigns[t].log, h.reigns[t'].log, k);
        }
      } else {
        NewIndexDead(h, h', t, k, t');
      }
    }
  }

  lemma NewIndexDead(h: History, h': History, t: nat, k: nat, t': nat)
    requires Extends(h, h') && AcksOk(h) && VotesOk(h)
    requires t' in h.reigns && ReignOk(h, t') && t < t'
    requires Own(h', t, k) && !Own(h, t, k)
    ensures Dead(h', t, k)
  {
    forall n | n in h.reigns[t'].voters
      ensures Acked(h, n, t) < k
    {
      if Acked(h, n, t) >= k {
        assert VoteOk(h, (n, t'));
        AckedIsOwn(h, h', n, t, k);
        assert false;
      }
    }
    VotersLeft(h, t, t', k);
    DeadStable(h, h', t, k);
  }

  lemma KeepCommitted(h: History, h': History)
    requires Extends(h, h') && CommittedOk(h) && h'.committed == h.committed
    ensures CommittedOk(h')
  {
    if h.committed != [] {
      var k := |h.committed|;
      var u: nat :| SettledBy(h, h.committed, k, u, k);
      ChosenStable(h, h', u, k);
      assert SettledBy(h', h'.committed, k, u, k);
    }
  }

  // ---- Whole clauses, given the acting node, vote, ballot or reign ----

  lemma NodesKept(h: History, h': History, n: NodeId)
    requires Extends(h, h') && NodesOk(h) && AllKept(h) && AcksOk(h)
    requires forall m | m in h.members && m != n :: h'.log[m] == h.log[m] && Unacked(h, h', m)
    requires n in h.members ==> NodeOk(h', n) && Kept(h', n)
    ensures NodesOk(h') && AllKept(h')
  {
    forall m | m in h.members ensures NodeOk(h', m) && Kept(h', m) {
      if m != n {
        KeepActor(h, h', m);
      }
    }
  }

  /** Node `m` acknowledged nothing in the move. */
  ghost predicate Unacked(h: History, h': History, m: NodeId) {
    forall u: nat :: Acked(h', m, u) == Acked(h, m, u)
  }

  /** A node whose log and acknowledgements did not change stays well formed. */
  lemma KeepActor(h: History, h': History, n: NodeId)
    requires Extends(h, h') && NodesOk(h) && AllKept(h) && AcksOk(h) && n in h.members
    requires h'.log[n] == h.log[n] && Unacked(h, h', n)
    ensures NodeOk(h', n) && Kept(h', n)
  {
    assert NodeOk(h, n) && Kept(h, n);
    KeepNode(h, h', n);
    KeepKept(h, h', n);
  }

  lemma VotesKept(h: History, h': History)
    requires Extends(h, h') && VotesOk(h) && VotesSafe(h) && BallotsOk(h) && AcksOk(h)
    requires forall v | v in h'.votes :: v in h.votes || (VoteOk(h', v) && VoteSafe(h', v))
    requires forall b | b in h'.ballots :: b in h.ballots || BallotOk(h', b)
    ensures VotesOk(h') && VotesSafe(h') && BallotsOk(h')
  {
    forall v | v in h'.votes ensures VoteOk(h', v) && VoteSafe(h', v) {
      if v in h.votes {
        assert VoteOk(h, v) && VoteSafe(h, v);
        KeepVote(h, h', v);
        KeepVoteSafe(h, h', v);
      }
    }
    forall b | b in h'.ballots ensures BallotOk(h', b) {
      if b in h.ballots {
        assert BallotOk(h, b);
        KeepBallot(h, h', b);
      }
    }
  }

  lemma ReignsKept(h: History, h': History)
    requires Extends(h, h') && ReignsOk(h) && ReignsSafe(h) && AcksOk(h) && VotesOk(h)
    requires forall u | u in h'.reigns ::
      (u in h.reigns && h'.reigns[u] == h.reigns[u]) || (ReignOk(h', u) && (u in h.reigns || ReignSafe(h', u)))
    ensures ReignsOk(h') && ReignsSafe(h')
  {
    forall u | u in h'.reigns ensures ReignOk(h', u) && ReignSafe(h', u) {
      if u in h.reigns {
        assert ReignOk(h, u) && ReignSafe(h, u);
        KeepReignSafe(h, h', u);
        if h'.reigns[u] == h.reigns[u] {
          KeepReign(h, h', u);
        }
      }
    }
  }

  /** Leaders and acknowledgements under a move that touches neither logs nor acknowledgements. */
  lemma LeadersAndAcksKept(h: History, h': History)
    requires Extends(h, h') && LeadersOk(h) && AcksOk(h)
    requires h'.log == h.log && h'.acks == h.acks && h'.reigns == h.reigns
    ensures LeadersOk(h') && AcksOk(h')
  {
    forall u | u in h'.reigns ensures LeaderOk(h', u) {
      assert LeaderOk(h, u);
    }
    forall a | a in h'.acks ensures AckOk(h', a) {
      assert AckOk(h, a);
    }
  }

  /** All clauses, for a move that touches neither logs, acknowledgements nor reigns. */
  lemma QuietMove(h: History, h': History)
    requires Inv(h) && Extends(h, h')
    requires h'.log == h.log && h'.acks == h.acks && h'.reigns == h.reigns
    requires forall v | v in h'.votes :: v in h.votes || (VoteOk(h', v) && VoteSafe(h', v))
    requires forall b | b in h'.ballots :: b in h.ballots || BallotOk(h', b)
    requires CommittedOk(h')
    ensures Inv(h')
  {
    if n :| n in h.members {
      KeepActor(h, h', n);
      NodesKept(h, h', n);
    }
    VotesKept(h, h');
    ReignsKept(h, h');
    LeadersAndAcksKept(h, h');
  }

  // ---- A node sees a higher term ----

  ghost function Bump(h: History, n: NodeId, t: nat): History {
    h.(term := h.term[n := t])
  }

  lemma BumpKeepsInv(h: History, n: NodeId, t: nat)
    requires Inv(h) && n in h.members && t >= h.term[n]
    ensures Extends(h, Bump(h, n, t)) && Inv(Bump(h, n, t))
  {
    var h' := Bump(h, n, t);
    BumpExtends(h, n, t);
    KeepCommitted(h, h');
    QuietMove(h, h');
  }

  lemma BumpExtends(h: History, n: NodeId, t: nat)
    requires Shape(h) && n in h.members && t >= h.term[n]
    ensures Extends(h, Bump(h, n, t))
  {
  }

  // ---- A node stands for election ----

  ghost function Stand(h: History, n: NodeId): History
    requires n in h.term && n in h.log
  {
    var t := h.term[n] + 1;
    h.(term := h.term[n := t], votes := h.votes[(n, t) := n], ballots := h.ballots[(n, t) := h.log[n]])
  }

  lemma StandExtends(h: History, n: NodeId)
    requires Shape(h) && VotesOk(h) && BallotsOk(h) && n in h.members
    ensures Extends(h, Stand(h, n))
  {
    var v := (n, h.term[n] + 1);
    assert v in h.votes ==> VoteOk(h, v);
    assert v in h.ballots ==> BallotOk(h, v);
  }

  lemma StandVote(h: History, n: NodeId)
    requires Shape(h) && NodesOk(h) && AllKept(h) && AcksOk(h) && VotesOk(h) && BallotsOk(h) && n in h.members
    ensures var h', v := Stand(h, n), (n, h.term[n] + 1); VoteOk(h', v) && VoteSafe(h', v) && BallotOk(h', v)
  {
    var h' := Stand(h, n);
    StandExtends(h, n);
    assert NodeOk(h, n);
    KeepActor(h, h', n);
  }

  lemma StandKeepsInv(h: History, n: NodeId)
    requires Inv(h) && n in h.members
    ensures Extends(h, Stand(h, n)) && Inv(Stand(h, n))
  {
    var h' := Stand(h, n);
    StandExtends(h, n);
    StandVote(h, n);
    KeepCommitted(h, h');
    QuietMove(h, h');
  }

  // ---- A node votes ----

  ghost function CastVote(h: History, n: NodeId, c: NodeId, t: nat): History {
    h.(term := h.term[n := t], votes := h.votes[(n, t) := c])
  }

  ghost predicate MayVote(h: History, n: NodeId, c: NodeId, t: nat) {
    && n in h.members && n in h.term && n in h.log
    && t >= h.term[n]
    && (c, t) in h.ballots
    && ((n, t) in h.votes ==> h.votes[(n, t)] == c)
    && UpToDate(|h.ballots[(c, t)]|, LastTerm(h.ballots[(c, t)]), h.log[n])
  }

  lemma CastVoteExtends(h: History, n: NodeId, c: NodeId, t: nat)
    requires Shape(h) && MayVote(h, n, c, t)
    ensures Extends(h, CastVote(h, n, c, t))
  {
  }

  /** The heart of leader completeness: an up-to-date candidate holds whatever its voter holds. */
  lemma UpToDateHolds(h: History, n: NodeId, b: (NodeId, nat), t: nat, k: nat)
    requires ReignsOk(h) && ReignsSafe(h) && n in h.log && LogOk(h, h.log[n])
    requires b in h.ballots && BallotOk(h, b)
    requires Own(h, t, k) && Agree(h.reigns[t].log, h.log[n], k)
    requires UpToDate(|h.ballots[b]|, LastTerm(h.ballots[b]), h.log[n])
    ensures Safe(h, t, k, h.ballots[b])
  {
    var mine, theirs := h.log[n], h.ballots[b];
    var u := LastTerm(theirs);
    assert ReignOk(h, t);
    TermsOrdered(h, mine, k - 1, |mine| - 1);
    assert u >= LastTerm(mine) >= t;
    assert theirs != [];
    assert EntryOk(h, theirs, |theirs| - 1);
    assert EntryOk(h, mine, |mine| - 1);
    assert ReignOk(h, u);
    if u > t {
      assert ReignSafe(h, u);
      if !Dead(h, t, k) {
        assert k <= h.reigns[u].base && Agree(h.reigns[t].log, h.reigns[u].log, k);
        if u > LastTerm(mine) {
          assert h.reigns[u].base < |theirs|;
        }
      }
    }
  }

  lemma CastVoteSafe(h: History, n: NodeId, c: NodeId, t: nat)
    requires Shape(h) && NodesOk(h) && ReignsOk(h) && ReignsSafe(h) && BallotsOk(h) && AcksOk(h) && AllKept(h)
    requires MayVote(h, n, c, t)
    ensures VoteSafe(CastVote(h, n, c, t), (n, t))
  {
    var h' := CastVote(h, n, c, t);
    CastVoteExtends(h, n, c, t);
    assert NodeOk(h, n) && Kept(h, n) && BallotOk(h, (c, t));
    forall u: nat, k: nat | Own(h', u, k) && u < t && k <= Acked(h', n, u)
      ensures Safe(h', u, k, h'.ballots[(c, t)])
    {
      AckedIsOwn(h, h', n, u, k);
      if u == h.term[n] {
        assert AckOk(h, (n, u));
      } else {
        assert Safe(h, u, k, h.log[n]);
      }
      if !Dead(h, u, k) {
        UpToDateHolds(h, n, (c, t), u, k);
      }
      SafeStable(h, h', u, k, h.ballots[(c, t)]);
    }
  }

  lemma CastVoteKeepsInv(h: History, n: NodeId, c: NodeId, t: nat)
    requires Inv(h) && MayVote(h, n, c, t)
    ensures Extends(h, CastVote(h, n, c, t)) && Inv(CastVote(h, n, c, t))
  {
    var h' := CastVote(h, n, c, t);
    CastVoteExtends(h, n, c, t);
    CastVoteSafe(h, n, c, t);
    assert VoteOk(h', (n, t));
    KeepCommitted(h, h');
    QuietMove(h, h');
  }

  // ---- A candidate wins ----

  ghost predicate MayLead(h: History, c: NodeId, q: set<NodeId>, e: Entry) {
    && c in h.members && c in h.term && c in h.log
    && var t := h.term[c];
    && t > 0
    && t !in h.reigns
    && (c, t) in h.ballots && h.ballots[(c, t)] == h.log[c]
    && IsQuorum(h, q)
    && (forall n | n in q :: (n, t) in h.votes && h.votes[(n, t)] == c)
    && e.term == t && e.index == |h.log[c]| + 1
  }

  /** The winner opens its reign with the first entry of its own term. */
  ghost function Lead(h: History, c: NodeId, q: set<NodeId>, e: Entry): History
    requires c in h.term && c in h.log
  {
    var t := h.term[c];
    var log := h.log[c] + [e];
    h.(log := h.log[c := log],
       reigns := h.reigns[t := Reign(c, |h.log[c]|, q, log)],
       acks := h.acks[(c, t) := |log|])
  }

  lemma LeadExtends(h: History, c: NodeId, q: set<NodeId>, e: Entry)
    requires Shape(h) && AcksOk(h) && MayLead(h, c, q, e)
    ensures Extends(h, Lead(h, c, q, e))
  {
    var a := (c, h.term[c]);
    assert a in h.acks ==> AckOk(h, a);
  }

  lemma LeadReign(h: History, c: NodeId, q: set<NodeId>, e: Entry)
    requires Shape(h) && AcksOk(h) && BallotsOk(h) && MayLead(h, c, q, e)
    ensures ReignOk(Lead(h, c, q, e), h.term[c])
  {
    var h' := Lead(h, c, q, e);
    LeadExtends(h, c, q, e);
    assert BallotOk(h, (c, h.term[c]));
    LogOkStable(h, h', h.log[c]);
    AppendedLogOk(h', h.log[c], e);
  }

  /** Appending the newest own entry of a reign to the log before it keeps the log well formed. */
  lemma AppendedLogOk(h: History, log: seq<Entry>, e: Entry)
    requires LogOk(h, log) && e.term in h.reigns && e.index == |log| + 1
    requires h.reigns[e.term].log == log + [e]
    ensures LogOk(h, log + [e])
  {
    forall i | 0 <= i < |log + [e]|
      ensures EntryOk(h, log + [e], i)
    {
      if i < |log| {
        assert EntryOk(h, log, i);
      }
    }
  }

  /** A new reign is safe: whatever may still be chosen was acknowledged by one of its voters. */
  lemma LeadSafe(h: History, c: NodeId, q: set<NodeId>, e: Entry)
    requires Shape(h) && AcksOk(h) && VotesOk(h) && VotesSafe(h) && MayLead(h, c, q, e)
    ensures ReignSafe(Lead(h, c, q, e), h.term[c])
  {
    var h' := Lead(h, c, q, e);
    var t' := h.term[c];
    LeadExtends(h, c, q, e);
    forall t: nat, k: nat | Own(h', t, k) && t < t'
      ensures (k <= h'.reigns[t'].base && Agree(h'.reigns[t].log, h'.reigns[t'].log, k)) || Dead(h', t, k)
    {
      assert Own(h, t, k);
      if n :| n in q && Acked(h, n, t) >= k {
        var v := (n, t');
        assert VoteSafe(h, v) && VoteOk(h, v);
        assert Safe(h, t, k, h.ballots[(c, t')]);
      } else {
        forall m | m in q ensures m in h.term && h.term[m] > t {
          assert VoteOk(h, (m, t'));
        }
        assert DeadBy(h, q, t, k);
      }
      if Dead(h, t, k) {
        DeadStable(h, h', t, k);
      }
    }
  }

  /** Leaders and acknowledgements when node `n` extends its own log and reign of term `t`. */
  lemma OwnAppendRest(h: History, h': History, n: NodeId, t: nat)
    requires Extends(h, h') && LeadersOk(h) && AcksOk(h)
    requires n in h.members && h'.term == h.term && h.term[n] == t
    requires t in h'.reigns && h'.reigns[t].leader == n && h'.log == h.log[n := h'.reigns[t].log]
    requires h'.acks == h.acks[(n, t) := |h'.log[n]|]
    requires h'.reigns == h.reigns[t := h'.reigns[t]]
    requires t in h.reigns ==> h.reigns[t].leader == n
    ensures LeadersOk(h') && AcksOk(h')
  {
    forall u | u in h'.reigns ensures LeaderOk(h', u) {
      if u != t {
        assert LeaderOk(h, u);
      }
    }
    forall a | a in h'.acks ensures AckOk(h', a) {
      if a != (n, t) {
        assert AckOk(h, a);
      }
    }
  }

  lemma LeadKeepsInv(h: History, c: NodeId, q: set<NodeId>, e: Entry)
    requires Inv(h) && MayLead(h, c, q, e)
    ensures Extends(h, Lead(h, c, q, e)) && Inv(Lead(h, c, q, e))
  {
    var h' := Lead(h, c, q, e);
    var t := h.term[c];
    LeadExtends(h, c, q, e);
    LeadReign(h, c, q, e);
    LeadSafe(h, c, q, e);
    OwnAppendNode(h, h', c, t);
    NodesKept(h, h', c);
    VotesKept(h, h');
    ReignsKept(h, h');
    OwnAppendRest(h, h', c, t);
    KeepCommitted(h, h');
  }

  /** A leader that just appended to its own log in term `t` is well formed and keeps its
      earlier acknowledgements. */
  lemma OwnAppendNode(h: History, h': History, n: NodeId, t: nat)
    requires Extends(h, h') && NodesOk(h) && AllKept(h) && n in h.members
    requires h.term[n] == t == h'.term[n]
    requires t in h'.reigns && ReignOk(h', t) && h'.log[n] == h'.reigns[t].log
    requires Agree(h.log[n], h'.log[n], |h.log[n]|)
    requires forall u: nat :: u != t ==> Acked(h', n, u) == Acked(h, n, u)
    requires h'.reigns == h.reigns[t := h'.reigns[t]]
    ensures NodeOk(h', n) && Kept(h', n)
  {
    assert Kept(h, n);
    forall u: nat, k: nat | Own(h', u, k) && u < h'.term[n] && k <= Acked(h', n, u)
      ensures Safe(h', u, k, h'.log[n])
    {
      assert Own(h, u, k);
      assert Safe(h, u, k, h.log[n]);
      SafeStable(h, h', u, k, h.log[n]);
    }
  }

  // ---- A leader appends ----

  ghost predicate MayAppend(h: History, n: NodeId, e: Entry) {
    && n in h.members && n in h.term && n in h.log
    && h.term[n] in h.reigns && h.reigns[h.term[n]].leader == n
    && h.log[n] == h.reigns[h.term[n]].log
    && e.term == h.term[n] && e.index == |h.log[n]| + 1
  }

  ghost function AppendOwn(h: History, n: NodeId, e: Entry): History
    requires MayAppend(h, n, e)
  {
    var t := h.term[n];
    var log := h.log[n] + [e];
    h.(log := h.log[n := log],
       reigns := h.reigns[t := h.reigns[t].(log := log)],
       acks := h.acks[(n, t) := |log|])
  }

  lemma AppendOwnExtends(h: History, n: NodeId, e: Entry)
    requires Shape(h) && AcksOk(h) && MayAppend(h, n, e)
    ensures Extends(h, AppendOwn(h, n, e))
  {
    var a := (n, h.term[n]);
    assert a in h.acks ==> AckOk(h, a);
  }

  lemma AppendOwnReign(h: History, n: NodeId, e: Entry)
    requires Shape(h) && AcksOk(h) && ReignsOk(h) && MayAppend(h, n, e)
    ensures ReignOk(AppendOwn(h, n, e), h.term[n])
  {
    var h' := AppendOwn(h, n, e);
    AppendOwnExtends(h, n, e);
    assert ReignOk(h, h.term[n]);
    LogOkStable(h, h', h.log[n]);
    AppendedLogOk(h', h.log[n], e);
  }

  lemma AppendOwnKeepsInv(h: History, n: NodeId, e: Entry)
    requires Inv(h) && MayAppend(h, n, e)
    ensures Extends(h, AppendOwn(h, n, e)) && Inv(AppendOwn(h, n, e))
  {
    var h' := AppendOwn(h, n, e);
    var t := h.term[n];
    AppendOwnExtends(h, n, e);
    AppendOwnReign(h, n, e);
    OwnAppendNode(h, h', n, t);
    NodesKept(h, h', n);
    VotesKept(h, h');
    ReignsKept(h, h');
    OwnAppendRest(h, h', n, t);
    KeepCommitted(h, h');
  }

  // ---- A node accepts the first m entries of a leader ----

  ghost predicate MayAccept(h: History, n: NodeId, t: nat, m: nat) {
    && n in h.members && n in h.term && n in h.log
    && h.term[n] <= t && t in h.reigns && m <= |h.reigns[t].log|
  }

  ghost function Accept(h: History, n: NodeId, t: nat, m: nat): History
    requires MayAccept(h, n, t, m)
  {
    h.(term := h.term[n := t],
       log := h.log[n := Merge(h.log[n], h.reigns[t].log[..m])],
       acks := h.acks[(n, t) := Max(Acked(h, n, t), m)])
  }

  lemma AcceptExtends(h: History, n: NodeId, t: nat, m: nat)
    requires Shape(h) && MayAccept(h, n, t, m)
    ensures Extends(h, Accept(h, n, t, m))
  {
  }

  /** If the old log and the leader's log both hold `k` entries of `p`, so does the merged log. */
  lemma MergeHolds(p: seq<Entry>, log: seq<Entry>, leader: seq<Entry>, m: nat, k: nat)
    requires m <= |leader|
    requires Agree(p, log, k) && Agree(p, leader, k)
    ensures Agree(p, Merge(log, leader[..m]), k)
  {
    if k > m {
      assert leader[..m] <= log;
    }
  }

  lemma PrefixLogOk(h: History, log: seq<Entry>, m: nat)
    requires LogOk(h, log) && m <= |log|
    ensures LogOk(h, log[..m])
  {
    forall i | 0 <= i < m ensures EntryOk(h, log[..m], i) {
      assert EntryOk(h, log, i);
    }
  }

  /** What a node acknowledged earlier survives any log that keeps what both it and the new leader hold. */
  lemma KeptUnderLeader(h: History, h': History, n: NodeId, t: nat)
    requires Extends(h, h') && AcksOk(h) && AllKept(h) && ReignsSafe(h)
    requires n in h.members && h.term[n] <= t == h'.term[n] && t in h.reigns
    requires h'.reigns == h.reigns
    requires forall u: nat :: u != t ==> Acked(h', n, u) == Acked(h, n, u)
    requires forall p: seq<Entry>, k: nat | Agree(p, h.log[n], k) && Agree(p, h.reigns[t].log, k) :: Agree(p, h'.log[n], k)
    ensures Kept(h', n)
  {
    assert Kept(h, n) && ReignSafe(h, t);
    forall u: nat, k: nat | Own(h', u, k) && u < h'.term[n] && k <= Acked(h', n, u)
      ensures Safe(h', u, k, h'.log[n])
    {
      AckedIsOwn(h, h', n, u, k);
      if u == h.term[n] {
        assert AckOk(h, (n, u));
      } else {
        assert Safe(h, u, k, h.log[n]);
      }
      if Dead(h, u, k) {
        DeadStable(h, h', u, k);
      } else {
        assert Agree(h.reigns[u].log, h.log[n], k);
        assert Agree(h.reigns[u].log, h.reigns[t].log, k);
      }
    }
  }

  lemma AcceptNode(h: History, n: NodeId, t: nat, m: nat)
    requires NodesOk(h) && AcksOk(h) && AllKept(h) && ReignsSafe(h) && ReignsOk(h) && MayAccept(h, n, t, m)
    ensures NodeOk(Accept(h, n, t, m), n) && Kept(Accept(h, n, t, m), n)
  {
    var h' := Accept(h, n, t, m);
    AcceptExtends(h, n, t, m);
    assert NodeOk(h, n) && ReignOk(h, t);
    PrefixLogOk(h, h.reigns[t].log, m);
    LogOkStable(h, h', h'.log[n]);
    forall p: seq<Entry>, k: nat | Agree(p, h.log[n], k) && Agree(p, h.reigns[t].log, k)
      ensures Agree(p, h'.log[n], k)
    {
      MergeHolds(p, h.log[n], h.reigns[t].log, m, k);
    }
    KeptUnderLeader(h, h', n, t);
  }

  lemma AcceptAck(h: History, n: NodeId, t: nat, m: nat)
    requires AcksOk(h) && MayAccept(h, n, t, m)
    ensures AckOk(Accept(h, n, t, m), (n, t))
  {
    var a := (n, t);
    var mine, leader := h.log[n], h.reigns[t].log;
    if a in h.acks {
      assert AckOk(h, a);
      MergeHolds(leader, mine, leader, m, h.acks[a]);
    }
    assert Agree(leader, Merge(mine, leader[..m]), m);
  }

  lemma AcceptRest(h: History, n: NodeId, t: nat, m: nat)
    requires AcksOk(h) && LeadersOk(h) && MayAccept(h, n, t, m)
    ensures AcksOk(Accept(h, n, t, m)) && LeadersOk(Accept(h, n, t, m))
  {
    var h' := Accept(h, n, t, m);
    AcceptAck(h, n, t, m);
    forall u | u in h'.reigns ensures LeaderOk(h', u) {
      assert LeaderOk(h, u);
    }
    forall a | a in h'.acks ensures AckOk(h', a) {
      if a != (n, t) {
        assert AckOk(h, a);
      }
    }
  }

  lemma AcceptKeepsInv(h: History, n: NodeId, t: nat, m: nat)
    requires Inv(h) && MayAccept(h, n, t, m)
    ensures Extends(h, Accept(h, n, t, m)) && Inv(Accept(h, n, t, m))
  {
    var h' := Accept(h, n, t, m);
    AcceptExtends(h, n, t, m);
    AcceptNode(h, n, t, m);
    AcceptRest(h, n, t, m);
    NodesKept(h, h', n);
    VotesKept(h, h');
    ReignsKept(h, h');
    KeepCommitted(h, h');
  }

  // ---- A node drops a tail that conflicts with the leader of t (and crashes before appending) ----

  ghost predicate MayDrop(h: History, n: NodeId, t: nat, i: nat) {
    && n in h.members && n in h.term && n in h.log
    && h.term[n] <= t && t in h.reigns
    && i < |h.log[n]| && i < |h.reigns[t].log|
    && Agree(h.log[n], h.reigns[t].log, i) && h.log[n][i] != h.reigns[t].log[i]
  }

  ghost function Drop(h: History, n: NodeId, t: nat, i: nat): History
    requires MayDrop(h, n, t, i)
  {
    h.(term := h.term[n := t], log := h.log[n := h.log[n][..i]])
  }

  lemma DropExtends(h: History, n: NodeId, t: nat, i: nat)
    requires Shape(h) && MayDrop(h, n, t, i)
    ensures Extends(h, Drop(h, n, t, i))
  {
  }

  lemma DropNode(h: History, n: NodeId, t: nat, i: nat)
    requires NodesOk(h) && AcksOk(h) && AllKept(h) && ReignsSafe(h) && MayDrop(h, n, t, i)
    ensures NodeOk(Drop(h, n, t, i), n) && Kept(Drop(h, n, t, i), n)
  {
    var h' := Drop(h, n, t, i);
    DropExtends(h, n, t, i);
    assert NodeOk(h, n);
    PrefixLogOk(h, h.log[n], i);
    LogOkStable(h, h', h'.log[n]);
    forall p: seq<Entry>, k: nat | Agree(p, h.log[n], k) && Agree(p, h.reigns[t].log, k)
      ensures Agree(p, h'.log[n], k)
    {
      assert k <= i;
    }
    KeptUnderLeader(h, h', n, t);
  }

  lemma DropAck(h: History, n: NodeId, t: nat, i: nat)
    requires AcksOk(h) && MayDrop(h, n, t, i) && (n, t) in h.acks
    ensures AckOk(Drop(h, n, t, i), (n, t))
  {
    assert AckOk(h, (n, t));
    assert h.acks[(n, t)] <= i;
  }

  lemma DropRest(h: History, n: NodeId, t: nat, i: nat)
    requires AcksOk(h) && LeadersOk(h) && MayDrop(h, n, t, i)
    ensures AcksOk(Drop(h, n, t, i)) && LeadersOk(Drop(h, n, t, i))
  {
    var h' := Drop(h, n, t, i);
    forall u | u in h'.reigns ensures LeaderOk(h', u) {
      assert LeaderOk(h, u);
    }
    forall a | a in h'.acks ensures AckOk(h', a) {
      assert AckOk(h, a);
      if a == (n, t) {
        DropAck(h, n, t, i);
      }
    }
  }

  lemma DropKeepsInv(h: History, n: NodeId, t: nat, i: nat)
    requires Inv(h) && MayDrop(h, n, t, i)
    ensures Extends(h, Drop(h, n, t, i)) && Inv(Drop(h, n, t, i))
  {
    var h' := Drop(h, n, t, i);
    DropExtends(h, n, t, i);
    DropNode(h, n, t, i);
    DropRest(h, n, t, i);
    NodesKept(h, h', n);
    VotesKept(h, h');
    ReignsKept(h, h');
    KeepCommitted(h, h');
  }

  // ---- A leader commits ----

  ghost function Commit(h: History, t: nat, k: nat): History
    requires Own(h, t, k)
  {
    if k <= |h.committed| then h else h.(committed := h.reigns[t].log[..k])
  }

  /** What a leader commits extends, or is covered by, what was committed before. */
  lemma CommitKeepsInv(h: History, t: nat, k: nat)
    requires Inv(h) && Chosen(h, t, k)
    ensures Extends(h, Commit(h, t, k)) && Inv(Commit(h, t, k))
    ensures Settled(Commit(h, t, k), t, h.reigns[t].log, k)
  {
    var h' := Commit(h, t, k);
    CommitExtends(h, t, k);
    CommitSettles(h, t, k);
    QuietMove(h, h');
  }

  lemma CommittedMeets(h: History, t: nat, k: nat)
    requires ReignsSafe(h) && CommittedOk(h) && Chosen(h, t, k)
    ensures Agree(h.committed, h.reigns[t].log, Min(k, |h.committed|))
  {
    if h.committed != [] {
      var u: nat :| SettledBy(h, h.committed, |h.committed|, u, |h.committed|);
      ChosenComparable(h, t, k, u, |h.committed|);
    }
  }

  lemma CommitExtends(h: History, t: nat, k: nat)
    requires Shape(h) && ReignsSafe(h) && CommittedOk(h) && Chosen(h, t, k)
    ensures Extends(h, Commit(h, t, k))
  {
    CommittedMeets(h, t, k);
  }

  lemma CommitSettles(h: History, t: nat, k: nat)
    requires Shape(h) && ReignsSafe(h) && CommittedOk(h) && Chosen(h, t, k)
    ensures Settled(Commit(h, t, k), t, h.reigns[t].log, k) && CommittedOk(Commit(h, t, k))
  {
    var h' := Commit(h, t, k);
    CommittedMeets(h, t, k);
    CommitExtends(h, t, k);
    ChosenStable(h, h', t, k);
    assert SettledBy(h', h.reigns[t].log, k, t, k);
    assert h' != h ==> SettledBy(h', h'.committed, k, t, k);
  }
}
