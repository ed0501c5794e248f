/** Log entries and the few facts about sequences of them that the whole project shares. */
module Entries {

  /** A node id. Ids are at least 1; 0 stands for "no vote". */
  type NodeId = nat

  type Byte = b: nat | b < 256

  const KIND_COMMAND: Byte := 0
  const KIND_NOOP: Byte := 1

  datatype Option<+T> = None | Some(value: T)

  /** One record of the replicated log. */
  datatype Entry = Entry(index: nat, term: nat, kind: Byte, data: seq<Byte>)

  /** `a` and `b` both reach position `k` and hold the same entries before it. */
  ghost predicate Agree(a: seq<Entry>, b: seq<Entry>, k: nat) {
    && k <= |a|
    && k <= |b|
    && forall i | 0 <= i < k :: a[i] == b[i]
  }

  /** The term of the entry at 1-based position `k`; position 0 is the empty sentinel of term 0. */
  function TermOf(log: seq<Entry>, k: nat): nat
    requires k <= |log|
  {
    if k == 0 then 0 else log[k - 1].term
  }

  function LastTerm(log: seq<Entry>): nat {
    TermOf(log, |log|)
  }

  /** The election restriction: a log ending (index, term) is at least as up to date as `log`. */
  predicate UpToDate(lastIndex: nat, lastTerm: nat, log: seq<Entry>) {
    lastTerm > LastTerm(log) || (lastTerm == LastTerm(log) && lastIndex >= |log|)
  }

  function Max(a: nat, b: nat): nat {
    if a > b then a else b
  }

  function Min(a: nat, b: nat): nat {
    if a < b then a else b
  }

  /** What a follower's log becomes when it accepts the leader prefix `p`: its own log if that
      already extends `p`, otherwise `p` itself. */
  function Merge(log: seq<Entry>, p: seq<Entry>): seq<Entry> {
    if p <= log then log else p
  }

  lemma SubsetCardinality<T>(a: set<T>, b: set<T>)
    requires a <= b
    ensures |a| <= |b|
    decreases |a|
  {
    if a != {} {
      var x :| x in a;
      SubsetCardinality(a - {x}, b - {x});
    }
  }

  /** Two majorities of one member set share a member. */
  lemma MajoritiesMeet<T>(a: set<T>, b: set<T>, all: set<T>) returns (x: T)
    requires a <= all && b <= all
    requires 2 * |a| > |all| && 2 * |b| > |all|
    ensures x in a && x in b
  {
    SubsetCardinality(a + b, all);
    assert |a + b| + |a * b| == |a| + |b|;
    assert a * b != {};
    x :| x in a * b;
  }
}
