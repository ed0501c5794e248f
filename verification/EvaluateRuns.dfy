/** What the engine guarantees over whole histories of observations and evaluations. */
module EvaluateRuns {
  import opened Entries
  import opened Evaluate

  datatype Op = Observe(region: Region, sample: Sample) | Tick(now: int)

  function Step(cfg: Config, e: Engine, op: Op): (Engine, Event) {
    match op
    case Observe(region, s) => (Observed(e, region, s), NoEvent)
    case Tick(now) => Evaluated(cfg, e, now)
  }

  /** The engine after the first `k` operations. */
  function After(cfg: Config, e: Engine, ops: seq<Op>, k: nat): Engine
    requires k <= |ops|
  {
    if k == 0 then e else Step(cfg, After(cfg, e, ops, k - 1), ops[k - 1]).0
  }

  /** The event operation `k` commits. */
  function EventAt(cfg: Config, e: Engine, ops: seq<Op>, k: nat): Event
    requires k < |ops|
  {
    Step(cfg, After(cfg, e, ops, k), ops[k]).1
  }

  /** What operation `k` finds the fresh regions to agree on; nothing if it is not an evaluation. */
  function VerdictAt(cfg: Config, e: Engine, ops: seq<Op>, k: nat): Option<bool>
    requires k < |ops|
  {
    match ops[k]
    case Observe(_, _) => None
    case Tick(now) => Verdict(cfg, After(cfg, e, ops, k).samples, now)
  }

  /** The committed state before operation `k`. */
  function UpAt(cfg: Config, e: Engine, ops: seq<Op>, k: nat): bool
    requires k <= |ops|
  {
    After(cfg, e, ops, k).confirmedUp
  }

  /** An event is exactly a change of the committed state. */
  lemma EventIsTransition(cfg: Config, e: Engine, ops: seq<Op>, k: nat)
    requires k < |ops|
    ensures EventAt(cfg, e, ops, k) == Transition(UpAt(cfg, e, ops, k), UpAt(cfg, e, ops, k + 1))
  {
  }

  // ---- Flap suppression ----

  /** No evaluation in [i, j) found the regions to agree with the state `up`; evaluations without a
      fresh sample do not matter. */
  ghost predicate NoAgreement(cfg: Config, e: Engine, ops: seq<Op>, i: nat, j: nat, up: bool)
    requires j <= |ops|
  {
    forall k {:trigger VerdictAt(cfg, e, ops, k)} | i <= k < j :: VerdictAt(cfg, e, ops, k) != Some(up)
  }

  ghost predicate NoEventIn(cfg: Config, e: Engine, ops: seq<Op>, i: nat, j: nat)
    requires j <= |ops|
  {
    forall k {:trigger EventAt(cfg, e, ops, k)} | i <= k < j :: EventAt(cfg, e, ops, k) == NoEvent
  }

  /** From evaluation `i` on, up to `j`, the regions disagreed with the committed state `up`, unbroken
      and without an event. */
  ghost predicate Disputed(cfg: Config, e: Engine, ops: seq<Op>, i: nat, j: nat, up: bool)
    requires j <= |ops|
  {
    && i < |ops| && ops[i].Tick?
    && VerdictAt(cfg, e, ops, i) == Some(!up)
    && NoAgreement(cfg, e, ops, i, j, up)
    && NoEventIn(cfg, e, ops, i, j)
  }

  /** A candidate change stands for an unbroken disagreement since the evaluation that started it. */
  ghost predicate PendingSince(cfg: Config, e: Engine, ops: seq<Op>, k: nat, i: nat)
    requires k <= |ops|
  {
    var s := After(cfg, e, ops, k);
    i < k && s.pendingUp == !s.confirmedUp && Disputed(cfg, e, ops, i, k, s.confirmedUp) && ops[i].now == s.pendingSince
  }

  lemma {:induction false} PendingExplained(cfg: Config, e: Engine, ops: seq<Op>, k: nat) returns (i: nat)
    requires !e.pending && k <= |ops| && After(cfg, e, ops, k).pending
    ensures PendingSince(cfg, e, ops, k, i)
  {
    var j := k - 1;
    var s := After(cfg, e, ops, j);
    assert EventAt(cfg, e, ops, j) == NoEvent;
    if s.pending {
      i := PendingExplained(cfg, e, ops, j);
      assert VerdictAt(cfg, e, ops, j) != Some(s.confirmedUp);
    } else {
      i := j;
      assert VerdictAt(cfg, e, ops, j) == Some(!s.confirmedUp);
    }
  }

  /** The disagreement lasted the stability window. */
  predicate Lasted(cfg: Config, ops: seq<Op>, i: nat, j: nat) {
    i < |ops| && j < |ops| && ops[i].Tick? && ops[j].Tick? && ops[j].now - ops[i].now >= cfg.stability
  }

  /** Evaluation `j` closes an unbroken disagreement with the committed state that began at `i`. */
  ghost predicate Sustained(cfg: Config, e: Engine, ops: seq<Op>, i: nat, j: nat)
    requires j < |ops|
  {
    && i <= j
    && Disputed(cfg, e, ops, i, j, UpAt(cfg, e, ops, j))
    && VerdictAt(cfg, e, ops, j) == Some(!UpAt(cfg, e, ops, j))
    && Lasted(cfg, ops, i, j)
  }

  ghost predicate IsSustained(cfg: Config, e: Engine, ops: seq<Op>, j: nat)
    requires j < |ops|
  {
    exists i: nat :: Sustained(cfg, e, ops, i, j)
  }

  /** No flapping: an event has an earlier or same evaluation, a stability window before it, since
      which the fresh regions disagreed with the committed state without a break. */
  lemma FlapsSuppressed(cfg: Config, e: Engine, ops: seq<Op>, j: nat) returns (i: nat)
    requires !e.pending && j < |ops| && EventAt(cfg, e, ops, j) != NoEvent
    ensures Sustained(cfg, e, ops, i, j)
  {
    var s := After(cfg, e, ops, j);
    if s.pending {
      i := PendingExplained(cfg, e, ops, j);
    } else {
      i := j;
    }
  }

  /** Evaluation times do not go back. */
  ghost predicate Forward(ops: seq<Op>) {
    forall i, j | 0 <= i <= j < |ops| && ops[i].Tick? && ops[j].Tick? :: ops[i].now <= ops[j].now
  }

  /** Without an event, a candidate started no later than `i` stays. */
  lemma {:induction false} CandidateStays(cfg: Config, e: Engine, ops: seq<Op>, i: nat, j: nat, up: bool)
    requires !e.pending && Forward(ops) && i < j <= |ops|
    requires UpAt(cfg, e, ops, i) == up && Disputed(cfg, e, ops, i, j, up)
    ensures var s := After(cfg, e, ops, j);
      s.confirmedUp == up && s.pending && s.pendingUp == !up && s.pendingSince <= ops[i].now
    decreases j
  {
    var k := j - 1;
    assert EventAt(cfg, e, ops, k) == NoEvent && VerdictAt(cfg, e, ops, k) != Some(up);
    if k > i {
      CandidateStays(cfg, e, ops, i, k, up);
    } else if After(cfg, e, ops, i).pending {
      var b := PendingExplained(cfg, e, ops, i);
    }
  }

  /** With evaluation times that do not go back, an event is committed exactly when the disagreement
      has lasted the stability window. */
  lemma CommitsIffSustained(cfg: Config, e: Engine, ops: seq<Op>, j: nat)
    requires !e.pending && Forward(ops) && j < |ops|
    ensures EventAt(cfg, e, ops, j) != NoEvent <==> IsSustained(cfg, e, ops, j)
  {
    if EventAt(cfg, e, ops, j) != NoEvent {
      var i := FlapsSuppressed(cfg, e, ops, j);
    }
    if i: nat :| Sustained(cfg, e, ops, i, j) {
      var up := UpAt(cfg, e, ops, j);
      QuietKeepsState(cfg, e, ops, i, j);
      if i < j {
        CandidateStays(cfg, e, ops, i, j, up);
      } else if After(cfg, e, ops, i).pending {
        var b := PendingExplained(cfg, e, ops, i);
      }
    }
  }

  lemma {:induction false} QuietKeepsState(cfg: Config, e: Engine, ops: seq<Op>, i: nat, j: nat)
    requires i <= j <= |ops| && NoEventIn(cfg, e, ops, i, j)
    ensures UpAt(cfg, e, ops, i) == UpAt(cfg, e, ops, j)
    decreases j
  {
    if i < j {
      QuietKeepsState(cfg, e, ops, i, j - 1);
      assert EventAt(cfg, e, ops, j - 1) == NoEvent;
    }
  }

  /** Once the committed state is what the regions say, nothing more happens. */
  lemma {:induction false} SettledStaysQuiet(cfg: Config, e: Engine, ops: seq<Op>, i: nat, j: nat, up: bool)
    requires i <= j <= |ops| && UpAt(cfg, e, ops, i) != up && NoAgreement(cfg, e, ops, i, j, up)
    ensures UpAt(cfg, e, ops, j) != up && NoEventIn(cfg, e, ops, i, j)
    decreases j
  {
    if i < j {
      SettledStaysQuiet(cfg, e, ops, i, j - 1, up);
      assert VerdictAt(cfg, e, ops, j - 1) != Some(up);
    }
  }

  /** The first event in [i, j), or `j`. */
  lemma {:induction false} FirstEvent(cfg: Config, e: Engine, ops: seq<Op>, i: nat, j: nat) returns (k: nat)
    requires i <= j <= |ops|
    ensures i <= k <= j && NoEventIn(cfg, e, ops, i, k) && (k < j ==> EventAt(cfg, e, ops, k) != NoEvent)
    decreases j
  {
    if i == j {
      k := j;
    } else {
      k := FirstEvent(cfg, e, ops, i, j - 1);
      if k == j - 1 && EventAt(cfg, e, ops, k) == NoEvent {
        k := j;
      }
    }
  }

  /** Evaluation `k` is the one and only event in [i, j]. */
  ghost predicate OnlyEvent(cfg: Config, e: Engine, ops: seq<Op>, i: nat, j: nat, k: nat, ev: Event)
    requires j < |ops|
  {
    i <= k <= j && EventAt(cfg, e, ops, k) == ev && NoEventIn(cfg, e, ops, i, k) && NoEventIn(cfg, e, ops, k + 1, j + 1)
  }

  /** An unbroken disagreement with the state committed at `i` that lasts the stability window commits
      exactly one event, the change to what the regions say. */
  lemma SustainedCommitsOnce(cfg: Config, e: Engine, ops: seq<Op>, i: nat, j: nat) returns (k: nat)
    requires !e.pending && Forward(ops) && i <= j < |ops| && Lasted(cfg, ops, i, j)
    requires var up := UpAt(cfg, e, ops, i);
      && VerdictAt(cfg, e, ops, i) == Some(!up) && VerdictAt(cfg, e, ops, j) == Some(!up)
      && NoAgreement(cfg, e, ops, i, j + 1, up)
    ensures var up := UpAt(cfg, e, ops, i); OnlyEvent(cfg, e, ops, i, j, k, Transition(up, !up))
  {
    var up := UpAt(cfg, e, ops, i);
    k := FirstEvent(cfg, e, ops, i, j);
    QuietKeepsState(cfg, e, ops, i, k);
    if k == j {
      assert Sustained(cfg, e, ops, i, j);
      CommitsIffSustained(cfg, e, ops, j);
    }
    EventIsTransition(cfg, e, ops, k);
    SettledStaysQuiet(cfg, e, ops, k + 1, j + 1, up);
  }

  // ---- Minorities ----

  /** At every evaluation at most half of the fresh regions are down. */
  ghost predicate NeverMostlyDown(cfg: Config, e: Engine, ops: seq<Op>) {
    forall k {:trigger VerdictAt(cfg, e, ops, k)} | 0 <= k < |ops| && ops[k].Tick? ::
      var samples, now := After(cfg, e, ops, k).samples, ops[k].now;
      2 * |set r | r in samples && now - samples[r].at <= cfg.freshness && !samples[r].up|
        <= |set r | r in samples && now - samples[r].at <= cfg.freshness|
  }

  /** A monitor that starts up and never has a majority of its fresh regions down never pages. */
  lemma MinorityNeverPages(cfg: Config, ops: seq<Op>, k: nat)
    requires NeverMostlyDown(cfg, Seeded(true), ops) && k < |ops|
    ensures EventAt(cfg, Seeded(true), ops, k) == NoEvent
  {
    var e := Seeded(true);
    forall j | 0 <= j < |ops| ensures VerdictAt(cfg, e, ops, j) != Some(false) {
      if ops[j].Tick? {
        VerdictMeans(cfg, After(cfg, e, ops, j).samples, ops[j].now);
      }
    }
    SettledStaysQuiet(cfg, e, ops, 0, |ops|, false);
  }

  // ---- Stale samples ----

  /** `b` is `a` without some samples that are older than the freshness window at `now`. */
  ghost predicate Pruned(cfg: Config, a: Engine, b: Engine, now: int) {
    && b == a.(samples := b.samples)
    && (forall r | r in b.samples :: r in a.samples && a.samples[r] == b.samples[r])
    && (forall r | r in a.samples && r !in b.samples :: now - a.samples[r].at > cfg.freshness)
  }

  lemma PrunedVerdict(cfg: Config, a: Engine, b: Engine, now: int, later: int)
    requires Pruned(cfg, a, b, now) && now <= later
    ensures Verdict(cfg, a.samples, later) == Verdict(cfg, b.samples, later)
  {
    assert Fresh(cfg, a.samples, later) == Fresh(cfg, b.samples, later);
    assert FreshDown(cfg, a.samples, later) == FreshDown(cfg, b.samples, later);
  }

  /** Every evaluation is at `now` or later. */
  ghost predicate NotBefore(ops: seq<Op>, now: int) {
    forall k | 0 <= k < |ops| && ops[k].Tick? :: now <= ops[k].now
  }

  lemma PrunedStep(cfg: Config, a: Engine, b: Engine, now: int, op: Op)
    requires Pruned(cfg, a, b, now) && (op.Tick? ==> now <= op.now)
    ensures Pruned(cfg, Step(cfg, a, op).0, Step(cfg, b, op).0, now)
    ensures Step(cfg, a, op).1 == Step(cfg, b, op).1
  {
    match op
    case Observe(_, _) =>
    case Tick(later) => PrunedVerdict(cfg, a, b, now, later);
  }

  lemma {:induction false} PrunedRun(cfg: Config, a: Engine, b: Engine, now: int, ops: seq<Op>, k: nat)
    requires Pruned(cfg, a, b, now) && NotBefore(ops, now) && k <= |ops|
    ensures Pruned(cfg, After(cfg, a, ops, k), After(cfg, b, ops, k), now)
  {
    if k > 0 {
      PrunedRun(cfg, a, b, now, ops, k - 1);
      PrunedStep(cfg, After(cfg, a, ops, k - 1), After(cfg, b, ops, k - 1), now, ops[k - 1]);
    }
  }

  /** Dropping any stale samples at any moment changes no later event. */
  lemma StaleSamplesIrrelevant(cfg: Config, a: Engine, b: Engine, now: int, ops: seq<Op>, k: nat)
    requires Pruned(cfg, a, b, now) && NotBefore(ops, now) && k < |ops|
    ensures EventAt(cfg, a, ops, k) == EventAt(cfg, b, ops, k)
  {
    PrunedRun(cfg, a, b, now, ops, k);
    PrunedStep(cfg, After(cfg, a, ops, k), After(cfg, b, ops, k), now, ops[k]);
  }
}
