/** Appends that arrive again: handling one twice is handling it once, and one that the follower has
    already acknowledged past changes nothing. */
module Redelivery {
  import opened Entries
  import opened LogView
  import opened RaftNode
  import opened Consensus
  import opened Cluster
  import opened ClusterFrame
  import opened ClusterElection
  import opened ClusterReplication
  import opened Safety

  // ---- Handling an append twice ----

  /** The request numbers its entries from just above the probed index. */
  ghost predicate Numbered(es: seq<Entry>, prev: nat) {
    forall i | 0 <= i < |es| :: es[i].index == prev + 1 + i
  }

  /** The log holds, by term, the entry at position `i` of the request. */
  predicate HasTerm(v: View, prev: nat, es: seq<Entry>, i: nat)
    requires i < |es|
  {
    prev + 1 + i <= v.LastIndex() && v.TermOrZero(prev + 1 + i) == es[i].term
  }

  /** If the log holds them all, appending changes nothing. */
  lemma {:induction false} NothingMissing(v: View, prev: nat, es: seq<Entry>, i: nat)
    requires i <= |es| && forall j {:trigger HasTerm(v, prev, es, j)} | i <= j < |es| :: HasTerm(v, prev, es, j)
    ensures AppendMissing(v, prev, es, i) == v
    decreases |es| - i
  {
    if i < |es| {
      assert HasTerm(v, prev, es, i);
      NothingMissing(v, prev, es, i + 1);
    }
  }

  /** The same log up to index `k`. */
  ghost predicate Keeps(v: View, w: View, k: nat) {
    && w.snapIndex == v.snapIndex && w.snapTerm == v.snapTerm
    && k <= v.LastIndex() && k <= w.LastIndex()
    && forall x: nat | x <= k :: w.TermAt(x) == v.TermAt(x)
  }

  /** Cutting at position `i` and appending the rest: the log then holds the rest, and is as it was
      below. */
  lemma CutHolds(v: View, prev: nat, es: seq<Entry>, i: nat)
    requires i < |es| && Numbered(es, prev) && v.snapIndex <= prev && prev + i <= v.LastIndex()
    ensures var w := AppendAll(v.TruncateSuffix(prev + 1 + i), es[i..]);
      Keeps(v, w, prev + i) && forall j {:trigger HasTerm(w, prev, es, j)} | i <= j < |es| :: HasTerm(w, prev, es, j)
  {
    var v1 := v.TruncateSuffix(prev + 1 + i);
    assert v1.entries == v.entries[..prev + i - v.snapIndex];
    AppendAllContiguous(v1, es[i..]);
  }

  /** After the append, the log holds the whole request and is as it was up to the probed index. */
  lemma {:induction false} AppendHolds(v: View, prev: nat, es: seq<Entry>, i: nat)
    requires i <= |es| && Numbered(es, prev) && v.snapIndex <= prev && prev + i <= v.LastIndex()
    ensures var w := AppendMissing(v, prev, es, i);
      Keeps(v, w, prev + i) && forall j {:trigger HasTerm(w, prev, es, j)} | i <= j < |es| :: HasTerm(w, prev, es, j)
    decreases |es| - i
  {
    if i < |es| {
      if HasTerm(v, prev, es, i) {
        AppendHolds(v, prev, es, i + 1);
        assert HasTerm(AppendMissing(v, prev, es, i + 1), prev, es, i);
      } else {
        CutHolds(v, prev, es, i);
      }
    }
  }

  /** Handling the same append twice is handling it once, down to the reply: for every node and every
      request that numbers its entries. */
  lemma HandledTwiceIsOnce<S>(s: Node<S>, a: AppendArgs)
    requires Numbered(a.entries, a.prevIndex)
    ensures var (s', r) := HandleAppendEntries(s, a);
      HandleAppendEntries(s', a) == (s', r)
  {
    if a.term >= s.currentTerm && Conflict(s.log, a.term, a).None? {
      AppendHolds(s.log, a.prevIndex, a.entries, 0);
      NothingMissing(AppendMissing(s.log, a.prevIndex, a.entries, 0), a.prevIndex, a.entries, 0);
    }
  }

  lemma RequestsNumbered<S(!new)>(app: App<S>, c: State<S>, h: History, m: Message)
    requires ClusterInv(app, c, h) && m in c.net && m.AppendRequest?
    ensures Numbered(m.aa.entries, m.aa.prevIndex)
  {
    assert MessageOk(app, h, m) && ReignOk(h, m.aa.term);
    var log := h.reigns[m.aa.term].log;
    forall i | 0 <= i < |m.aa.entries| ensures m.aa.entries[i].index == m.aa.prevIndex + 1 + i {
      assert EntryOk(h, log, m.aa.prevIndex + i);
    }
  }

  /** In any run, an append delivered twice in a row has the effect of one delivery. */
  lemma RedeliveryChangesNothing<S(!new)>(app: App<S>, run: seq<State<S>>, i: nat, m: Message)
    requires AppOk(app) && IsRun(app, run) && i < |run| && Enabled(run[i], TakeAppendRequest(m))
    ensures var once := Do(app, run[i], TakeAppendRequest(m));
      Enabled(once, TakeAppendRequest(m)) && Do(app, once, TakeAppendRequest(m)) == once
  {
    var hs := EveryRunAccounted(app, run);
    assert ClusterInv(app, run[i], hs[i]);
    RequestsNumbered(app, run[i], hs[i], m);
    HandledTwiceIsOnce(run[i].nodes[m.to], m.aa);
  }

  // ---- Stale appends ----

  /** A merge with a prefix the log already agrees with is the log itself. */
  lemma MergeHeld(log: seq<Entry>, leader: seq<Entry>, k: nat, m: nat)
    requires Agree(leader, log, k) && m <= k
    ensures Merge(log, leader[..m]) == log
  {
    assert leader[..m] <= log;
  }

  lemma AckedAppend<S>(app: App<S>, h: History, n: NodeId, s: Node<S>, a: AppendArgs, k: nat)
    requires Inv(h) && NodeInv(app, h, n, s) && AppendRequestOk(h, a) && a.term == s.currentTerm
    requires k <= Acked(h, n, a.term) && a.LastNew() <= k
    ensures HandleAppendEntries(s, a).0.log == s.log
  {
    var log, leader := h.log[n], h.reigns[a.term].log;
    assert NodeOk(h, n);
    if (n, a.term) in h.acks {
      assert AckOk(h, (n, a.term));
      MergeHeld(log, leader, Acked(h, n, a.term), a.LastNew());
    } else {
      MergeHeld(log, leader, 0, 0);
    }
    if Conflict(s.log, a.term, a).None? {
      TakenEntries(h, s.log, log, a);
    }
  }

  /** In any run, a follower that has acknowledged its leader's log up to some index, and is still in
      that term, is not changed by any append of the term that reaches no further: a stale or
      reordered append never shortens a log. */
  lemma StaleAppendsHarmless<S(!new)>(app: App<S>, run: seq<State<S>>, i: nat, m: Message, acked: AppendArgs, r: AppendReply)
    requires AppOk(app) && IsRun(app, run) && i < |run| && Enabled(run[i], TakeAppendRequest(m))
    requires AppendResponse(m.to, acked, r) in run[i].net && r.success
    requires m.aa.term == acked.term == run[i].nodes[m.to].currentTerm && m.aa.LastNew() <= acked.LastNew()
    ensures Do(app, run[i], TakeAppendRequest(m)).nodes[m.to].log == run[i].nodes[m.to].log
  {
    var hs := EveryRunAccounted(app, run);
    var c, h, n := run[i], hs[i], m.to;
    assert ClusterInv(app, c, h) && NodeInv(app, h, n, c.nodes[n]);
    assert MessageOk(app, h, m) && MessageOk(app, h, AppendResponse(n, acked, r));
    AckedAppend(app, h, n, c.nodes[n], m.aa, acked.LastNew());
  }
}
