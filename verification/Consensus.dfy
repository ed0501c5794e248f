/** The consensus core that the Raft engine refines: an account of every vote, every reign and every
    acknowledgement a cluster has ever produced, with full logs and no messages. */
module Consensus {
  import opened Entries

  /** The reign of one term: who led it, how long the log was on election, who voted, and the log
      the leader has built so far. */
  datatype Reign = Reign(leader: NodeId, base: nat, voters: set<NodeId>, log: seq<Entry>)

  datatype History = History(
    members: set<NodeId>,
    term: map<NodeId, nat>,                        // each node's current term
    log: map<NodeId, seq<Entry>>,                  // each node's whole logical log
    votes: map<(NodeId, nat), NodeId>,             // (node, term) -> candidate voted for
    ballots: map<(NodeId, nat), seq<Entry>>,       // (candidate, term) -> log it stood with
    reigns: map<nat, Reign>,                       // term -> reign
    acks: map<(NodeId, nat), nat>,                 // (node, term) -> leader prefix it acknowledged
    committed: seq<Entry>)                         // everything any leader ever committed

  ghost predicate IsQuorum(h: History, q: set<NodeId>) {
    q <= h.members && 2 * |q| > |h.members|
  }

  ghost function Acked(h: History, n: NodeId, t: nat): nat {
    if (n, t) in h.acks then h.acks[(n, t)] else 0
  }

  /** Index `k` was appended by the leader of term `t` itself. */
  ghost predicate Own(h: History, t: nat, k: nat) {
    t in h.reigns && h.reigns[t].base < k <= |h.reigns[t].log|
  }

  /** Every member of `q` has left term `t` without acknowledging index `k`. */
  ghost predicate DeadBy(h: History, q: set<NodeId>, t: nat, k: nat) {
    IsQuorum(h, q) && forall m | m in q :: m in h.term && h.term[m] > t && Acked(h, m, t) < k
  }

  /** Index `k` can never gather a majority in term `t` any more. */
  ghost predicate Dead(h: History, t: nat, k: nat) {
    exists q :: DeadBy(h, q, t, k)
  }

  ghost predicate AckedBy(h: History, q: set<NodeId>, t: nat, k: nat) {
    IsQuorum(h, q) && forall m | m in q :: Acked(h, m, t) >= k
  }

  /** Index `k` of the leader of term `t` is an own entry on a majority: it may be committed. */
  ghost predicate Chosen(h: History, t: nat, k: nat) {
    Own(h, t, k) && exists q :: AckedBy(h, q, t, k)
  }

  /** `log` holds the first `k` entries of term `t`'s leader, unless those can no longer be chosen. */
  ghost predicate Safe(h: History, t: nat, k: nat, log: seq<Entry>) {
    t in h.reigns && (Agree(h.reigns[t].log, log, k) || Dead(h, t, k))
  }

  // ---- The invariant, clause by clause ----

  /** Position `i` of `log` was created by the leader of its term, on top of the same prefix. */
  ghost predicate EntryOk(h: History, log: seq<Entry>, i: nat)
    requires i < |log|
  {
    && log[i].index == i + 1
    && log[i].term in h.reigns
    && Agree(log, h.reigns[log[i].term].log, i + 1)
  }

  ghost predicate LogOk(h: History, log: seq<Entry>) {
    forall i {:trigger EntryOk(h, log, i)} | 0 <= i < |log| :: EntryOk(h, log, i)
  }

  ghost predicate TermsBelow(log: seq<Entry>, t: nat) {
    forall i | 0 <= i < |log| :: log[i].term < t
  }

  ghost predicate Shape(h: History) {
    && h.members == h.term.Keys
    && h.members == h.log.Keys
  }

  ghost predicate NodeOk(h: History, n: NodeId)
    requires n in h.log && n in h.term
  {
    LogOk(h, h.log[n]) && TermsBelow(h.log[n], h.term[n] + 1)
  }

  ghost predicate NodesOk(h: History) {
    Shape(h) && forall n {:trigger NodeOk(h, n)} | n in h.members :: NodeOk(h, n)
  }

  ghost predicate VoteOk(h: History, v: (NodeId, nat))
    requires v in h.votes
  {
    v.0 in h.members && v.0 in h.term && v.1 <= h.term[v.0] && (h.votes[v], v.1) in h.ballots
  }

  ghost predicate VotesOk(h: History) {
    forall v {:trigger VoteOk(h, v)} | v in h.votes :: VoteOk(h, v)
  }

  ghost predicate BallotOk(h: History, b: (NodeId, nat))
    requires b in h.ballots
  {
    && b.0 in h.members
    && b in h.votes && h.votes[b] == b.0
    && LogOk(h, h.ballots[b])
    && TermsBelow(h.ballots[b], b.1)
  }

  ghost predicate BallotsOk(h: History) {
    forall b {:trigger BallotOk(h, b)} | b in h.ballots :: BallotOk(h, b)
  }

  /** A reign rests on a majority of votes, and its log is older entries below `base`, own ones above. */
  ghost predicate ReignOk(h: History, t: nat)
    requires t in h.reigns
  {
    var r := h.reigns[t];
    && t > 0
    && IsQuorum(h, r.voters)
    && (forall n | n in r.voters :: (n, t) in h.votes && h.votes[(n, t)] == r.leader)
    && r.base < |r.log|
    && (forall i | 0 <= i < |r.log| :: (i < r.base ==> r.log[i].term < t) && (r.base <= i ==> r.log[i].term == t))
    && LogOk(h, r.log)
  }

  ghost predicate ReignsOk(h: History) {
    forall t {:trigger ReignOk(h, t)} | t in h.reigns :: ReignOk(h, t)
  }

  /** While the leader of `t` is still in term `t`, the reign's log is its own log. */
  ghost predicate LeaderOk(h: History, t: nat)
    requires t in h.reigns
  {
    var r := h.reigns[t];
    && r.leader in h.members && r.leader in h.term && r.leader in h.log
    && t <= h.term[r.leader]
    && (h.term[r.leader] == t ==> h.log[r.leader] == r.log)
    && Acked(h, r.leader, t) == |r.log|
  }

  ghost predicate LeadersOk(h: History) {
    forall t {:trigger LeaderOk(h, t)} | t in h.reigns :: LeaderOk(h, t)
  }

  ghost predicate AckOk(h: History, a: (NodeId, nat))
    requires a in h.acks
  {
    && a.0 in h.members && a.0 in h.term && a.0 in h.log
    && a.1 in h.reigns
    && a.1 <= h.term[a.0]
    && h.acks[a] <= |h.reigns[a.1].log|
    && (a.1 == h.term[a.0] ==> Agree(h.reigns[a.1].log, h.log[a.0], h.acks[a]))
  }

  ghost predicate AcksOk(h: History) {
    forall a {:trigger AckOk(h, a)} | a in h.acks :: AckOk(h, a)
  }

  /** A node still holds everything it acknowledged in an earlier term that may yet be chosen. */
  ghost predicate Kept(h: History, n: NodeId)
    requires n in h.log && n in h.term
  {
    forall t: nat, k: nat | Own(h, t, k) && t < h.term[n] && k <= Acked(h, n, t) :: Safe(h, t, k, h.log[n])
  }

  ghost predicate AllKept(h: History) {
    Shape(h) && forall n {:trigger Kept(h, n)} | n in h.members :: Kept(h, n)
  }

  /** A voter's acknowledged entries are held by the candidate it voted for. */
  ghost predicate VoteSafe(h: History, v: (NodeId, nat))
    requires v in h.votes
  {
    var b := (h.votes[v], v.1);
    b in h.ballots ==>
      forall t: nat, k: nat | Own(h, t, k) && t < v.1 && k <= Acked(h, v.0, t) :: Safe(h, t, k, h.ballots[b])
  }

  ghost predicate VotesSafe(h: History) {
    forall v {:trigger VoteSafe(h, v)} | v in h.votes :: VoteSafe(h, v)
  }

  /** A reign started from a log holding everything earlier reigns may have chosen. */
  ghost predicate ReignSafe(h: History, t': nat)
    requires t' in h.reigns
  {
    forall t: nat, k: nat | Own(h, t, k) && t < t' ::
      (k <= h.reigns[t'].base && Agree(h.reigns[t].log, h.reigns[t'].log, k)) || Dead(h, t, k)
  }

  ghost predicate ReignsSafe(h: History) {
    forall t {:trigger ReignSafe(h, t)} | t in h.reigns :: ReignSafe(h, t)
  }

  /** Index `j` was chosen in term `u`, and its leader's log covers the first `k` entries of `log`. */
  ghost predicate SettledBy(h: History, log: seq<Entry>, k: nat, u: nat, j: nat) {
    Chosen(h, u, j) && k <= j && Agree(log, h.reigns[u].log, k)
  }

  /** The first `k` entries of `log` are committed, by leaders of terms up to `t`. */
  ghost predicate Settled(h: History, t: nat, log: seq<Entry>, k: nat) {
    && Agree(log, h.committed, k)
    && (k == 0 || exists u: nat, j: nat {:trigger SettledBy(h, log, k, u, j)} :: u <= t && SettledBy(h, log, k, u, j))
  }

  ghost predicate CommittedOk(h: History) {
    h.committed == [] || exists u: nat :: SettledBy(h, h.committed, |h.committed|, u, |h.committed|)
  }

  ghost predicate Inv(h: History) {
    && NodesOk(h) && VotesOk(h) && BallotsOk(h) && ReignsOk(h) && LeadersOk(h) && AcksOk(h)
    && AllKept(h) && VotesSafe(h) && ReignsSafe(h) && CommittedOk(h)
  }

  ghost function Start(members: set<NodeId>): History {
    History(members, map n | n in members :: 0, map n | n in members :: [], map[], map[], map[], map[], [])
  }

  lemma StartInv(members: set<NodeId>)
    ensures Inv(Start(members))
  {
  }

  // ---- Histories only grow ----

  /** `h'` continues `h`: nothing recorded is lost and acknowledgements of left terms are frozen. */
  ghost predicate Extends(h: History, h': History) {
    && Shape(h) && Shape(h')
    && h.members == h'.members
    && (forall n | n in h.members :: h.term[n] <= h'.term[n])
    && (forall v | v in h.votes :: v in h'.votes && h'.votes[v] == h.votes[v])
    && (forall b | b in h.ballots :: b in h'.ballots && h'.ballots[b] == h.ballots[b])
    && (forall t | t in h.reigns ::
      && t in h'.reigns
      && h'.reigns[t].leader == h.reigns[t].leader
      && h'.reigns[t].base == h.reigns[t].base
      && h'.reigns[t].voters == h.reigns[t].voters
      && Agree(h.reigns[t].log, h'.reigns[t].log, |h.reigns[t].log|))
    && (forall n, t | n in h.members :: Acked(h, n, t) <= Acked(h', n, t))
    && (forall n, t | n in h.members && t < h.term[n] :: Acked(h, n, t) == Acked(h', n, t))
    && Agree(h.committed, h'.committed, |h.committed|)
  }

  lemma ExtendsReflexive(h: History)
    requires Shape(h)
    ensures Extends(h, h)
  {
  }

  lemma ExtendsTransitive(h: History, h': History, h'': History)
    requires Extends(h, h') && Extends(h', h'')
    ensures Extends(h, h'')
  {
    forall n, t | n in h.members && t < h.term[n]
      ensures Acked(h, n, t) == Acked(h'', n, t)
    {
      assert Acked(h, n, t) == Acked(h', n, t);
      assert t < h'.term[n];
    }
    forall n, t | n in h.members
      ensures Acked(h, n, t) <= Acked(h'', n, t)
    {
      assert Acked(h, n, t) <= Acked(h', n, t);
    }
  }

  lemma DeadStable(h: History, h': History, t: nat, k: nat)
    requires Extends(h, h') && Dead(h, t, k)
    ensures Dead(h', t, k)
  {
    var q :| DeadBy(h, q, t, k);
    forall m | m in q
      ensures m in h'.term && h'.term[m] > t && Acked(h', m, t) < k
    {
      assert Acked(h, m, t) == Acked(h', m, t);
    }
    assert DeadBy(h', q, t, k);
  }

  lemma OwnStable(h: History, h': History, t: nat, k: nat)
    requires Extends(h, h') && Own(h, t, k)
    ensures Own(h', t, k)
  {
  }

  lemma ChosenStable(h: History, h': History, t: nat, k: nat)
    requires Extends(h, h') && Chosen(h, t, k)
    ensures Chosen(h', t, k)
  {
    var q :| AckedBy(h, q, t, k);
    forall m | m in q
      ensures Acked(h', m, t) >= k
    {
      assert Acked(h, m, t) <= Acked(h', m, t);
    }
    assert AckedBy(h', q, t, k);
  }

  lemma SafeStable(h: History, h': History, t: nat, k: nat, log: seq<Entry>)
    requires Extends(h, h') && Safe(h, t, k, log)
    ensures Safe(h', t, k, log)
  {
    if Dead(h, t, k) {
      DeadStable(h, h', t, k);
    }
  }

  lemma LogOkStable(h: History, h': History, log: seq<Entry>)
    requires Extends(h, h') && LogOk(h, log)
    ensures LogOk(h', log)
  {
    forall i | 0 <= i < |log|
      ensures EntryOk(h', log, i)
    {
      assert EntryOk(h, log, i);
    }
  }

  lemma SettledStable(h: History, h': History, t: nat, t': nat, log: seq<Entry>, k: nat)
    requires Extends(h, h') && t <= t' && Settled(h, t, log, k)
    ensures Settled(h', t', log, k)
  {
    if k > 0 {
      var u: nat, j: nat :| u <= t && SettledBy(h, log, k, u, j);
      ChosenStable(h, h', u, j);
      assert SettledBy(h', log, k, u, j);
    }
  }

  /** Settledness is about the entries, not the log they are read from; shorter prefixes are settled too. */
  lemma SettledAgree(h: History, t: nat, log: seq<Entry>, k: nat, log': seq<Entry>, k': nat)
    requires Settled(h, t, log, k) && k' <= k && Agree(log, log', k')
    ensures Settled(h, t, log', k')
  {
    if k' > 0 {
      var u: nat, j: nat :| u <= t && SettledBy(h, log, k, u, j);
      assert SettledBy(h, log', k', u, j);
    }
  }

  // ---- What the invariant means ----

  /** A chosen index is never dead: two majorities meet. */
  lemma ChosenNotDead(h: History, t: nat, k: nat)
    requires Chosen(h, t, k)
    ensures !Dead(h, t, k)
  {
    if Dead(h, t, k) {
      var q :| DeadBy(h, q, t, k);
      var a :| AckedBy(h, a, t, k);
      var m := MajoritiesMeet(q, a, h.members);
      assert false;
    }
  }

  /** Leader completeness: a later reign holds every chosen prefix. */
  lemma LeaderCompleteness(h: History, t: nat, k: nat, t': nat)
    requires ReignsSafe(h) && Chosen(h, t, k) && t <= t' && t' in h.reigns
    ensures Agree(h.reigns[t].log, h.reigns[t'].log, k)
  {
    ChosenNotDead(h, t, k);
    assert ReignSafe(h, t') && Own(h, t, k);
  }

  /** Settled entries are held by the leader of every reign at or after their term. */
  lemma SettledInReign(h: History, t: nat, log: seq<Entry>, k: nat, t': nat)
    requires ReignsSafe(h) && Settled(h, t, log, k) && t <= t' && t' in h.reigns
    ensures Agree(log, h.reigns[t'].log, k)
  {
    if k > 0 {
      var u: nat, j: nat :| u <= t && SettledBy(h, log, k, u, j);
      LeaderCompleteness(h, u, j, t');
    }
  }

  /** Log matching: same index and term means the same entries up to there. */
  lemma LogMatching(h: History, a: seq<Entry>, b: seq<Entry>, i: nat)
    requires LogOk(h, a) && LogOk(h, b)
    requires i < |a| && i < |b| && a[i].term == b[i].term
    ensures Agree(a, b, i + 1)
  {
    assert EntryOk(h, a, i) && EntryOk(h, b, i);
  }

  /** Terms never decrease along a log. */
  lemma TermsOrdered(h: History, log: seq<Entry>, i: nat, j: nat)
    requires ReignsOk(h) && LogOk(h, log) && i <= j < |log|
    ensures 0 < log[i].term <= log[j].term
  {
    assert EntryOk(h, log, j) && EntryOk(h, log, i);
    var t := log[j].term;
    assert ReignOk(h, t) && ReignOk(h, log[i].term);
    assert log[i] == h.reigns[t].log[i];
  }

  /** Any two chosen prefixes are comparable. */
  lemma ChosenComparable(h: History, t: nat, k: nat, t': nat, k': nat)
    requires ReignsSafe(h) && Chosen(h, t, k) && Chosen(h, t', k')
    ensures Agree(h.reigns[t].log, h.reigns[t'].log, Min(k, k'))
  {
    if t <= t' {
      LeaderCompleteness(h, t, k, t');
    } else {
      LeaderCompleteness(h, t', k', t);
    }
  }
}
