/** What the evaluator guarantees about one monitor over whole histories of results, ticks and
    restarts. Monitors do not interact, so this is everything about any monitor. */
module EvaluatorRuns {
  import opened Entries
  import opened Evaluate
  import opened Evaluator
  import EvaluateRuns

  datatype SiteOp =
    | Result(r: CheckResult, now: int)
    | Tick(now: int)
    | Restart(enabled: Option<(string, string)>)

  function SiteStep(cfg: Config, s: Site, op: SiteOp): Site {
    match op
    case Result(r, now) => HandleResult(cfg, s, r, now)
    case Tick(now) => TickSite(cfg, s, now)
    case Restart(enabled) => RestartSite(s, enabled)
  }

  const NEW_SITE := Site(None, [], [])

  /** A new monitor after the first `k` operations. */
  function SiteAfter(cfg: Config, ops: seq<SiteOp>, k: nat): Site
    requires k <= |ops|
  {
    if k == 0 then NEW_SITE else SiteStep(cfg, SiteAfter(cfg, ops, k - 1), ops[k - 1])
  }

  // ---- Incidents mirror the engine ----

  /** One open incident while the engine says down, none while it says up. */
  predicate Mirrors(s: Site) {
    match s.tracked
    case None => true
    case Some(t) => |s.open| == if t.engine.confirmedUp then 0 else 1
  }

  /** A monitor met for the first time by a result, not at start-up, has no open incident. */
  predicate Clean(s: Site, op: SiteOp) {
    op.Result? && s.tracked.None? ==> s.open == []
  }

  ghost predicate AllClean(cfg: Config, ops: seq<SiteOp>, n: nat)
    requires n <= |ops|
  {
    forall k {:trigger SiteAfter(cfg, ops, k)} | 0 <= k < n :: Clean(SiteAfter(cfg, ops, k), ops[k])
  }

  /** What commits at an evaluation of `s` with entry `t` is the change of the committed state. */
  lemma EvaluationMirrors(cfg: Config, s: Site, t: Tracked, now: int)
    ensures var s' := EvaluateSite(cfg, s, t, now);
      s'.tracked.Some? && var up' := s'.tracked.value.engine.confirmedUp;
      match Transition(t.engine.confirmedUp, up')
      case Down => |s'.open| == |s.open| + 1
      case Recovered => s'.open == []
      case NoEvent => s'.open == s.open
  {
  }

  lemma StepMirrors(cfg: Config, s: Site, op: SiteOp)
    requires Mirrors(s) && |s.open| <= 1 && Clean(s, op)
    ensures Mirrors(SiteStep(cfg, s, op)) && |SiteStep(cfg, s, op).open| <= 1
  {
    match op
    case Result(r, now) =>
      var (t, slow) := Taken(EntryFor(s, r), r);
      EvaluationMirrors(cfg, s.(alerts := s.alerts + slow), t, now);
    case Tick(now) =>
      if s.tracked.Some? {
        EvaluationMirrors(cfg, s, s.tracked.value, now);
      }
    case Restart(_) =>
  }

  /** A result for an unknown monitor with an open incident breaks the mirror at once. */
  lemma UncleanBreaks(cfg: Config, s: Site, op: SiteOp)
    requires !Clean(s, op)
    ensures !Mirrors(SiteStep(cfg, s, op))
  {
    var (t, slow) := Taken(EntryFor(s, op.r), op.r);
    EvaluationMirrors(cfg, s.(alerts := s.alerts + slow), t, op.now);
  }

  lemma {:induction false} CleanMirrors(cfg: Config, ops: seq<SiteOp>, k: nat)
    requires k <= |ops| && AllClean(cfg, ops, k)
    ensures Mirrors(SiteAfter(cfg, ops, k)) && |SiteAfter(cfg, ops, k).open| <= 1
  {
    if k > 0 {
      CleanMirrors(cfg, ops, k - 1);
      StepMirrors(cfg, SiteAfter(cfg, ops, k - 1), ops[k - 1]);
    }
  }

  ghost predicate AllMirror(cfg: Config, ops: seq<SiteOp>, n: nat)
    requires n <= |ops|
  {
    forall k {:trigger SiteAfter(cfg, ops, k)} | 0 <= k <= n :: Mirrors(SiteAfter(cfg, ops, k))
  }

  lemma MirroredIsClean(cfg: Config, ops: seq<SiteOp>, k: nat, next: nat)
    requires next == k + 1 <= |ops| && Mirrors(SiteAfter(cfg, ops, next))
    ensures Clean(SiteAfter(cfg, ops, k), ops[k])
  {
    if !Clean(SiteAfter(cfg, ops, k), ops[k]) {
      UncleanBreaks(cfg, SiteAfter(cfg, ops, k), ops[k]);
    }
  }

  /** In every history, restarts included, the open incidents mirror the engine throughout, exactly
      when no result reaches an unknown monitor that has an incident open. */
  lemma MirrorsIffClean(cfg: Config, ops: seq<SiteOp>, n: nat)
    requires n <= |ops|
    ensures AllMirror(cfg, ops, n) <==> AllClean(cfg, ops, n)
  {
    if AllClean(cfg, ops, n) {
      forall k | 0 <= k <= n ensures Mirrors(SiteAfter(cfg, ops, k)) {
        CleanMirrors(cfg, ops, k);
      }
    }
    if AllMirror(cfg, ops, n) {
      forall k | 0 <= k < n ensures Clean(SiteAfter(cfg, ops, k), ops[k]) {
        MirroredIsClean(cfg, ops, k, k + 1);
      }
    }
  }

  /** The condition can fail: a monitor goes down, the process restarts while the monitor is
      disabled, and a late result finds it unknown with its incident still open. */
  lemma DisabledWhileDown(r: CheckResult)
    requires !r.up && r.checkedAt == 0
    ensures var cfg := Config(60, 0);
      var s := SiteAfter(cfg, [Result(r, 0), Restart(None), Result(r, 0)], 3);
      |s.open| == 2 && !Mirrors(s)
  {
    var cfg := Config(60, 0);
    var ops := [Result(r, 0), Restart(None), Result(r, 0)];
    var s0, s1, s2 := SiteAfter(cfg, ops, 0), SiteAfter(cfg, ops, 1), SiteAfter(cfg, ops, 2);
    assert s1 == SiteStep(cfg, s0, ops[0]) && s2 == SiteStep(cfg, s1, ops[1]);
    assert SiteAfter(cfg, ops, 3) == SiteStep(cfg, s2, ops[2]);
    FirstDownResult(cfg, s0, r);
    FirstDownResult(cfg, s2, r);
  }

  lemma FirstDownResult(cfg: Config, s: Site, r: CheckResult)
    requires cfg == Config(60, 0) && s.tracked.None? && !r.up && r.checkedAt == 0
    ensures var s' := HandleResult(cfg, s, r, 0);
      |s'.open| == |s.open| + 1 && s'.tracked.Some? && !s'.tracked.value.engine.confirmedUp
  {
    var (t, slow) := Taken(EntryFor(s, r), r);
    var samples := t.engine.samples;
    assert samples == map[r.region := Sample(false, 0)];
    assert Fresh(cfg, samples, 0) == {r.region} && FreshDown(cfg, samples, 0) == {r.region};
  }

  // ---- Events alternate ----

  /** The state changes among the alerts: true for down, false for recovered. */
  function Changes(alerts: seq<Alert>): seq<bool> {
    if alerts == [] then []
    else
      var before := Changes(alerts[..|alerts| - 1]);
      match alerts[|alerts| - 1]
      case WentDown(_, _) => before + [true]
      case CameBack(_) => before + [false]
      case TooSlow(_, _, _) => before
  }

  /** Down and recovered in turn, down first. */
  ghost predicate Alternates(c: seq<bool>) {
    forall i | 0 <= i < |c| :: c[i] == (i % 2 == 0)
  }

  /** The alerts alternate, and the last change is down exactly while an incident is open. */
  ghost predicate InTurn(s: Site) {
    Alternates(Changes(s.alerts)) && (s.open != [] <==> |Changes(s.alerts)| % 2 == 1)
  }

  lemma ChangesAppend(alerts: seq<Alert>, a: Alert)
    ensures Changes(alerts + [a]) == Changes(alerts)
      + match a case WentDown(_, _) => [true] case CameBack(_) => [false] case TooSlow(_, _, _) => []
  {
    assert (alerts + [a])[..|alerts|] == alerts;
  }

  lemma EvaluationInTurn(cfg: Config, s: Site, t: Tracked, now: int)
    requires InTurn(s) && (t.engine.confirmedUp <==> s.open == [])
    ensures InTurn(EvaluateSite(cfg, s, t, now))
  {
    var ev := Evaluated(cfg, t.engine, now).1;
    ChangesAppend(s.alerts, WentDown(t.lastRegion, t.downCause));
    ChangesAppend(s.alerts, CameBack(t.lastRegion));
  }

  lemma SlowChangesNothing(alerts: seq<Alert>, t: Tracked, r: CheckResult)
    ensures Changes(alerts + Taken(t, r).1) == Changes(alerts)
  {
    var slow := Taken(t, r).1;
    if slow == [] {
      assert alerts + slow == alerts;
    } else {
      assert slow == [slow[0]] && slow[0].TooSlow?;
      ChangesAppend(alerts, slow[0]);
    }
  }

  lemma StepInTurn(cfg: Config, s: Site, op: SiteOp)
    requires InTurn(s) && Mirrors(s) && Clean(s, op)
    ensures InTurn(SiteStep(cfg, s, op))
  {
    match op
    case Result(r, now) =>
      var (t, slow) := Taken(EntryFor(s, r), r);
      SlowChangesNothing(s.alerts, EntryFor(s, r), r);
      EvaluationInTurn(cfg, s.(alerts := s.alerts + slow), t, now);
    case Tick(now) =>
      if s.tracked.Some? {
        EvaluationInTurn(cfg, s, s.tracked.value, now);
      }
    case Restart(_) =>
  }

  /** What a history of clean operations keeps. */
  ghost predicate Sound(s: Site) {
    Mirrors(s) && |s.open| <= 1 && InTurn(s)
  }

  lemma StepSound(cfg: Config, s: Site, op: SiteOp, s': Site)
    requires Sound(s) && Clean(s, op) && s' == SiteStep(cfg, s, op)
    ensures Sound(s')
  {
    StepMirrors(cfg, s, op);
    StepInTurn(cfg, s, op);
  }

  /** In every such history, restarts included, down and recovered alerts strictly alternate. */
  lemma {:induction false} AlertsAlternate(cfg: Config, ops: seq<SiteOp>, k: nat)
    requires k <= |ops| && AllClean(cfg, ops, k)
    ensures Sound(SiteAfter(cfg, ops, k))
  {
    if k == 0 {
      assert Changes([]) == [];
    } else {
      AlertsAlternate(cfg, ops, k - 1);
      StepSound(cfg, SiteAfter(cfg, ops, k - 1), ops[k - 1], SiteAfter(cfg, ops, k));
    }
  }

  // ---- Slow alerts ----

  function SlowAlerts(alerts: seq<Alert>): nat {
    if alerts == [] then 0
    else SlowAlerts(alerts[..|alerts| - 1]) + if alerts[|alerts| - 1].TooSlow? then 1 else 0
  }

  lemma SlowAlertsAppend(alerts: seq<Alert>, a: Alert)
    ensures SlowAlerts(alerts + [a]) == SlowAlerts(alerts) + if a.TooSlow? then 1 else 0
  {
    assert (alerts + [a])[..|alerts|] == alerts;
  }

  /** Which of the first `k` operations' results were slow, that is, up but over a threshold that is
      set; a restart ends any spell, as a fast
      result does. */
  function Marks(ops: seq<SiteOp>, k: nat): seq<bool>
    requires k <= |ops|
  {
    if k == 0 then []
    else
      match ops[k - 1]
      case Result(r, _) => Marks(ops, k - 1) + [r.up && r.slowThresholdMs > 0 && r.latencyMs > r.slowThresholdMs]
      case Tick(_) => Marks(ops, k - 1)
      case Restart(_) => Marks(ops, k - 1) + [false]
  }

  /** A maximal run of at least three slow results begins at `i`. */
  predicate RunBegins(m: seq<bool>, i: nat) {
    i + 2 < |m| && m[i] && m[i + 1] && m[i + 2] && (i == 0 || !m[i - 1])
  }

  ghost function Runs(m: seq<bool>): set<nat> {
    set i: nat | i < |m| && RunBegins(m, i)
  }

  /** How many slow results the marks end with. */
  function Trailing(m: seq<bool>): nat {
    if m == [] || !m[|m| - 1] then 0 else 1 + Trailing(m[..|m| - 1])
  }

  lemma {:induction false} TrailingIs(m: seq<bool>)
    ensures Trailing(m) <= |m| && (forall i | |m| - Trailing(m) <= i < |m| :: m[i])
    ensures Trailing(m) < |m| ==> !m[|m| - Trailing(m) - 1]
    decreases |m|
  {
    if m != [] && m[|m| - 1] {
      TrailingIs(m[..|m| - 1]);
    }
  }

  /** Only the run whose third slow result is the new mark is new. */
  lemma RunGrows(m: seq<bool>, b: bool, i: nat)
    ensures RunBegins(m + [b], i) <==> RunBegins(m, i) || (b && Trailing(m) == 2 && i + 2 == |m|)
  {
    TrailingIs(m);
    if i + 2 == |m| && m[i] && m[i + 1] && (i == 0 || !m[i - 1]) {
      TrailingTwo(m);
    }
  }

  lemma TrailingTwo(m: seq<bool>)
    requires |m| >= 2 && m[|m| - 1] && m[|m| - 2] && (|m| == 2 || !m[|m| - 3])
    ensures Trailing(m) == 2
  {
    TrailingIs(m);
  }

  lemma RunsGrow(m: seq<bool>, b: bool)
    ensures |Runs(m + [b])| == |Runs(m)| + if b && Trailing(m) == 2 then 1 else 0
  {
    TrailingIs(m);
    forall i: nat ensures RunBegins(m + [b], i) <==> RunBegins(m, i) || (b && Trailing(m) == 2 && i + 2 == |m|) {
      RunGrows(m, b, i);
    }
    if b && Trailing(m) == 2 {
      assert Runs(m + [b]) == Runs(m) + {|m| - 2};
    } else {
      assert Runs(m + [b]) == Runs(m);
    }
  }

  /** The entry's streak is the trailing run, and the alert was given once it reached three. */
  ghost predicate SlowOk(s: Site, m: seq<bool>) {
    && SlowAlerts(s.alerts) == |Runs(m)|
    && match s.tracked
       case None => Trailing(m) == 0
       case Some(t) => t.slowStreak == Trailing(m) && (t.slowAlerted <==> Trailing(m) >= SLOW_STREAK_TO_ALERT)
  }

  lemma TrailingAppend(m: seq<bool>, b: bool)
    ensures Trailing(m + [b]) == if b then Trailing(m) + 1 else 0
  {
    assert (m + [b])[..|m|] == m;
  }

  lemma EvaluationSlow(cfg: Config, s: Site, t: Tracked, now: int)
    ensures var s' := EvaluateSite(cfg, s, t, now);
      && SlowAlerts(s'.alerts) == SlowAlerts(s.alerts)
      && s'.tracked.Some? && s'.tracked.value.slowStreak == t.slowStreak
      && s'.tracked.value.slowAlerted == t.slowAlerted
  {
    SlowAlertsAppend(s.alerts, WentDown(t.lastRegion, t.downCause));
    SlowAlertsAppend(s.alerts, CameBack(t.lastRegion));
  }

  lemma ResultSlow(cfg: Config, s: Site, r: CheckResult, now: int, m: seq<bool>)
    requires SlowOk(s, m)
    ensures SlowOk(HandleResult(cfg, s, r, now), m + [IsSlow(r)])
  {
    var (t, slow) := Taken(EntryFor(s, r), r);
    EvaluationSlow(cfg, s.(alerts := s.alerts + slow), t, now);
    TrailingAppend(m, IsSlow(r));
    RunsGrow(m, IsSlow(r));
    if slow == [] {
      assert s.alerts + slow == s.alerts;
    } else {
      assert slow == [slow[0]];
      SlowAlertsAppend(s.alerts, slow[0]);
    }
  }

  lemma {:induction false} SlowTracked(cfg: Config, ops: seq<SiteOp>, k: nat)
    requires k <= |ops|
    ensures SlowOk(SiteAfter(cfg, ops, k), Marks(ops, k))
  {
    if k > 0 {
      SlowTracked(cfg, ops, k - 1);
      var s, m := SiteAfter(cfg, ops, k - 1), Marks(ops, k - 1);
      match ops[k - 1]
      case Result(r, now) => ResultSlow(cfg, s, r, now, m);
      case Tick(now) =>
        if s.tracked.Some? {
          EvaluationSlow(cfg, s, s.tracked.value, now);
        }
      case Restart(_) =>
        TrailingAppend(m, false);
        RunsGrow(m, false);
    }
  }

  /** In every history there are exactly as many slow alerts as maximal runs of three or more
      consecutive slow results. */
  lemma SlowAlertsCountRuns(cfg: Config, ops: seq<SiteOp>)
    ensures SlowAlerts(SiteAfter(cfg, ops, |ops|).alerts) == |Runs(Marks(ops, |ops|))|
  {
    SlowTracked(cfg, ops, |ops|);
  }

  // ---- Causes ----

  /** An entry whose engine knows a region to be down knows a cause. */
  ghost predicate CauseKnown(t: Tracked) {
    (exists r :: r in t.engine.samples && !t.engine.samples[r].up) ==> t.downCause != ""
  }

  ghost predicate CausesOk(s: Site) {
    && (s.tracked.Some? ==> CauseKnown(s.tracked.value))
    && (forall i | 0 <= i < |s.open| :: s.open[i] != "")
    && (forall i | 0 <= i < |s.alerts| :: s.alerts[i].WentDown? ==> s.alerts[i].cause != "")
  }

  /** A down verdict has a down sample behind it. */
  lemma DownHasSample(cfg: Config, samples: map<Region, Sample>, now: int) returns (r: Region)
    requires Verdict(cfg, samples, now) == Some(false)
    ensures r in samples && !samples[r].up
  {
    var down := FreshDown(cfg, samples, now);
    assert |down| != 0;
    r :| r in down;
  }

  lemma EvaluationCauses(cfg: Config, s: Site, t: Tracked, now: int)
    requires CausesOk(s.(tracked := Some(t)))
    ensures CausesOk(EvaluateSite(cfg, s, t, now))
  {
    assert Evaluated(cfg, t.engine, now).0.samples == t.engine.samples;
    if Evaluated(cfg, t.engine, now).1 == Down {
      var r := DownHasSample(cfg, t.engine.samples, now);
    }
  }

  lemma TakenCauses(t: Tracked, r: CheckResult)
    requires CauseKnown(t)
    ensures CauseKnown(Taken(t, r).0)
  {
    var t' := Taken(t, r).0;
    if x :| x in t'.engine.samples && !t'.engine.samples[x].up {
      if x != r.region {
        assert x in t.engine.samples && !t.engine.samples[x].up;
      }
    }
  }

  lemma StepCauses(cfg: Config, s: Site, op: SiteOp)
    requires CausesOk(s)
    ensures CausesOk(SiteStep(cfg, s, op))
  {
    match op
    case Result(r, now) =>
      var (t, slow) := Taken(EntryFor(s, r), r);
      TakenCauses(EntryFor(s, r), r);
      EvaluationCauses(cfg, s.(alerts := s.alerts + slow), t, now);
    case Tick(now) =>
      if s.tracked.Some? {
        EvaluationCauses(cfg, s, s.tracked.value, now);
      }
    case Restart(_) =>
  }

  /** In every history, no incident is opened and no down alert raised without a cause. */
  lemma {:induction false} IncidentsHaveCauses(cfg: Config, ops: seq<SiteOp>, k: nat)
    requires k <= |ops|
    ensures CausesOk(SiteAfter(cfg, ops, k))
  {
    if k > 0 {
      IncidentsHaveCauses(cfg, ops, k - 1);
      StepCauses(cfg, SiteAfter(cfg, ops, k - 1), ops[k - 1]);
    }
  }

  /** Operation `i` is the latest down result this process has handled before `k`, and `cause` is its
      error, or its status if it carries no error. */
  ghost predicate LatestDown(ops: seq<SiteOp>, k: nat, i: nat, cause: string) {
    && i < k <= |ops| && ops[i].Result? && !ops[i].r.up
    && (forall j | i < j < k :: ops[j].Tick? || (ops[j].Result? && ops[j].r.up))
    && cause == if ops[i].r.error != "" then ops[i].r.error else "unexpected status " + Itoa(ops[i].r.statusCode)
  }

  /** Operation `i` is the latest result this process has handled before `k`, and it is from `region`. */
  ghost predicate LatestFrom(ops: seq<SiteOp>, k: nat, i: nat, region: Region) {
    && i < k <= |ops| && ops[i].Result? && ops[i].r.region == region
    && (forall j | i < j < k :: ops[j].Tick?)
  }

  /** The entry shows the latest result's region, address and latency. */
  ghost predicate ShowsLatest(ops: seq<SiteOp>, k: nat, i: nat, t: Tracked) {
    LatestFrom(ops, k, i, t.lastRegion) && t.url == ops[i].r.url && t.lastMs == ops[i].r.latencyMs
  }

  /** What the entry remembers is what the latest results said. */
  ghost predicate Remembers(ops: seq<SiteOp>, k: nat, t: Tracked) {
    && (t.downCause != "" ==> exists i :: LatestDown(ops, k, i, t.downCause))
    && (t.engine.samples != map[] ==> exists i :: ShowsLatest(ops, k, i, t))
  }

  /** The same entry after an operation that is not a result. */
  lemma RemembersOn(ops: seq<SiteOp>, k: nat, next: nat, t: Tracked, t': Tracked)
    requires next == k + 1 <= |ops| && ops[k].Tick? && Remembers(ops, k, t)
    requires t' == t.(engine := t'.engine) && t'.engine.samples == t.engine.samples
    ensures Remembers(ops, next, t')
  {
    if t.downCause != "" {
      var i :| LatestDown(ops, k, i, t.downCause);
      assert LatestDown(ops, next, i, t.downCause);
    }
    if t.engine.samples != map[] {
      var i :| ShowsLatest(ops, k, i, t);
      assert ShowsLatest(ops, next, i, t');
    }
  }

  /** The entry after a result, whatever the evaluation then does to the rest of the engine. */
  lemma RemembersResult(ops: seq<SiteOp>, k: nat, next: nat, t: Tracked, t': Tracked)
    requires next == k + 1 <= |ops| && ops[k].Result? && Remembers(ops, k, t)
    requires t' == Taken(t, ops[k].r).0.(engine := t'.engine)
    ensures Remembers(ops, next, t')
  {
    assert ShowsLatest(ops, next, k, t');
    if !ops[k].r.up {
      assert LatestDown(ops, next, k, t'.downCause);
    } else if t.downCause != "" {
      var i :| LatestDown(ops, k, i, t.downCause);
      assert LatestDown(ops, next, i, t'.downCause);
    }
  }

  /** What an evaluation leaves alone in the entry, and what a growing table got. */
  lemma EvaluationKeeps(cfg: Config, s: Site, t: Tracked, now: int)
    ensures var s' := EvaluateSite(cfg, s, t, now);
      && s'.tracked.Some? && s'.tracked.value == t.(engine := s'.tracked.value.engine)
      && s'.tracked.value.engine.samples == t.engine.samples
      && (|s'.open| > |s.open| ==>
          && Verdict(cfg, t.engine.samples, now) == Some(false)
          && s'.open == s.open + [t.downCause] && s'.alerts == s.alerts + [WentDown(t.lastRegion, t.downCause)])
  {
  }

  lemma {:induction false} EntriesRemember(cfg: Config, ops: seq<SiteOp>, k: nat)
    requires k <= |ops|
    ensures SiteAfter(cfg, ops, k).tracked.Some? ==> Remembers(ops, k, SiteAfter(cfg, ops, k).tracked.value)
  {
    if k > 0 {
      var j := k - 1;
      var s, s' := SiteAfter(cfg, ops, j), SiteAfter(cfg, ops, k);
      EntriesRemember(cfg, ops, j);
      match ops[j] {
        case Result(r, now) =>
          var t := EntryFor(s, r);
          EvaluationKeeps(cfg, s.(alerts := s.alerts + Taken(t, r).1), Taken(t, r).0, now);
          RemembersResult(ops, j, k, t, s'.tracked.value);
        case Tick(now) =>
          if s.tracked.Some? {
            EvaluationKeeps(cfg, s, s.tracked.value, now);
            RemembersOn(ops, j, k, s.tracked.value, s'.tracked.value);
          }
        case Restart(_) =>
      }
    }
  }

  /** The operation opened an incident with this cause and raised an alert naming this region. */
  ghost predicate Opens(s: Site, s': Site, region: Region, cause: string) {
    && s'.open == s.open + [cause]
    && s'.alerts != [] && s'.alerts[|s'.alerts| - 1] == WentDown(region, cause)
  }

  ghost predicate NamesLatest(ops: seq<SiteOp>, k: nat, s: Site, s': Site, i: nat, j: nat) {
    exists region, cause :: Opens(s, s', region, cause) && LatestDown(ops, k, i, cause) && LatestFrom(ops, k, j, region)
  }

  /** What a growing table got is what the entry remembers. */
  lemma OpeningNames(cfg: Config, s: Site, s': Site, op: SiteOp)
    requires s' == SiteStep(cfg, s, op) && |s'.open| > |s.open| && CausesOk(s')
    ensures s'.tracked.Some? && s'.tracked.value.downCause != "" && s'.tracked.value.engine.samples != map[]
    ensures Opens(s, s', s'.tracked.value.lastRegion, s'.tracked.value.downCause)
  {
    match op
    case Result(r, now) =>
      var (t, slow) := Taken(EntryFor(s, r), r);
      EvaluationKeeps(cfg, s.(alerts := s.alerts + slow), t, now);
      assert r.region in t.engine.samples;
      assert s'.open[|s.open|] == t.downCause;
    case Tick(now) =>
      if s.tracked.Some? {
        var t := s.tracked.value;
        EvaluationKeeps(cfg, s, t, now);
        var r := DownHasSample(cfg, t.engine.samples, now);
        assert s'.open[|s.open|] == t.downCause;
      }
    case Restart(_) =>
  }

  /** In every history, an incident that is opened has the cause of the latest down result its process
      has handled, and the alert names the region of the latest result. */
  lemma IncidentsNameLatest(cfg: Config, ops: seq<SiteOp>, k: nat, next: nat) returns (i: nat, j: nat)
    requires next == k + 1 <= |ops|
    requires |SiteAfter(cfg, ops, next).open| > |SiteAfter(cfg, ops, k).open|
    ensures NamesLatest(ops, next, SiteAfter(cfg, ops, k), SiteAfter(cfg, ops, next), i, j)
  {
    var s, s' := SiteAfter(cfg, ops, k), SiteAfter(cfg, ops, next);
    IncidentsHaveCauses(cfg, ops, next);
    EntriesRemember(cfg, ops, next);
    OpeningNames(cfg, s, s', ops[k]);
    var t := s'.tracked.value;
    i :| LatestDown(ops, next, i, t.downCause);
    j :| ShowsLatest(ops, next, j, t);
  }

  /** Every slow alert is raised by a slow result, with that result's numbers, as the third of its run. */
  lemma SlowAlertsSay(cfg: Config, ops: seq<SiteOp>, k: nat, r: CheckResult, now: int)
    requires k < |ops| && ops[k] == Result(r, now)
    ensures var slow := Taken(EntryFor(SiteAfter(cfg, ops, k), r), r).1;
      slow == if r.up && r.slowThresholdMs > 0 && r.latencyMs > r.slowThresholdMs && Trailing(Marks(ops, k)) == 2
              then [TooSlow(r.latencyMs, r.slowThresholdMs, 3)] else []
  {
    SlowTracked(cfg, ops, k);
  }

  /** A recovered alert names the region of the latest result. */
  lemma RecoveriesNameLatest(cfg: Config, ops: seq<SiteOp>, k: nat, next: nat, region: Region) returns (j: nat)
    requires next == k + 1 <= |ops|
    requires var s' := SiteAfter(cfg, ops, next);
      s'.alerts == SiteAfter(cfg, ops, k).alerts + [CameBack(region)]
    ensures LatestFrom(ops, next, j, region)
  {
    var s, s' := SiteAfter(cfg, ops, k), SiteAfter(cfg, ops, next);
    EntriesRemember(cfg, ops, next);
    RecoveryNames(cfg, s, s', ops[k], region);
    j :| ShowsLatest(ops, next, j, s'.tracked.value);
  }

  lemma RecoveryNames(cfg: Config, s: Site, s': Site, op: SiteOp, region: Region)
    requires s' == SiteStep(cfg, s, op) && s'.alerts == s.alerts + [CameBack(region)]
    ensures s'.tracked.Some? && s'.tracked.value.lastRegion == region && s'.tracked.value.engine.samples != map[]
  {
    assert |s'.alerts| == |s.alerts| + 1;
    match op
    case Result(r, now) =>
      var (t, slow) := Taken(EntryFor(s, r), r);
      EvaluationCameBack(cfg, s.(alerts := s.alerts + slow), t, now);
      assert r.region in t.engine.samples;
      assert s'.alerts[|s.alerts|] == CameBack(region);
    case Tick(now) =>
      assert s'.alerts[|s.alerts|] == CameBack(region);
      assert s.tracked.Some?;
      EvaluationCameBack(cfg, s, s.tracked.value, now);
    case Restart(_) =>
  }

  /** What an evaluation adds to the alerts. */
  lemma EvaluationCameBack(cfg: Config, s: Site, t: Tracked, now: int)
    ensures var s' := EvaluateSite(cfg, s, t, now);
      && s'.tracked.Some? && s'.tracked.value == t.(engine := s'.tracked.value.engine)
      && s'.tracked.value.engine.samples == t.engine.samples
      && (s'.alerts == s.alerts || s'.alerts == s.alerts + [WentDown(t.lastRegion, t.downCause)]
          || (t.engine.samples != map[] && s'.alerts == s.alerts + [CameBack(t.lastRegion)]))
  {
  }

  // ---- Pages come from sustained disagreement ----

  /** What the engine of the current entry has seen by the first `k` operations. */
  function EngineOps(cfg: Config, ops: seq<SiteOp>, k: nat): seq<EvaluateRuns.Op>
    requires k <= |ops|
  {
    if k == 0 then []
    else
      var before := EngineOps(cfg, ops, k - 1);
      match ops[k - 1]
      case Result(r, now) =>
        before + [EvaluateRuns.Observe(r.region, Sample(r.up, r.checkedAt)), EvaluateRuns.Tick(now)]
      case Tick(now) => if SiteAfter(cfg, ops, k - 1).tracked.None? then before else before + [EvaluateRuns.Tick(now)]
      case Restart(_) => []
  }

  /** The state the engine was seeded with. */
  function SeedOf(cfg: Config, ops: seq<SiteOp>, k: nat): Engine
    requires k <= |ops|
  {
    if k == 0 then Seeded(true)
    else
      match ops[k - 1]
      case Restart(Some(_)) => Seeded(SiteAfter(cfg, ops, k - 1).open == [])
      case Restart(None) => Seeded(true)
      case _ => SeedOf(cfg, ops, k - 1)
  }

  lemma {:induction false} AfterPrefix(cfg: Config, e: Engine, ops: seq<EvaluateRuns.Op>, more: seq<EvaluateRuns.Op>, k: nat)
    requires k <= |ops|
    ensures EvaluateRuns.After(cfg, e, ops + more, k) == EvaluateRuns.After(cfg, e, ops, k)
  {
    if k > 0 {
      AfterPrefix(cfg, e, ops, more, k - 1);
    }
  }

  /** The engine after one more operation. */
  lemma AfterOne(cfg: Config, e: Engine, ops: seq<EvaluateRuns.Op>, op: EvaluateRuns.Op)
    ensures EvaluateRuns.After(cfg, e, ops + [op], |ops + [op]|)
      == EvaluateRuns.Step(cfg, EvaluateRuns.After(cfg, e, ops, |ops|), op).0
    ensures EvaluateRuns.EventAt(cfg, e, ops + [op], |ops|)
      == EvaluateRuns.Step(cfg, EvaluateRuns.After(cfg, e, ops, |ops|), op).1
  {
    AfterPrefix(cfg, e, ops, [op], |ops|);
  }

  /** The engine of `s` is the seed after `ops`; an unknown monitor's has seen nothing. */
  ghost predicate Driven(cfg: Config, s: Site, e: Engine, ops: seq<EvaluateRuns.Op>) {
    match s.tracked
    case None => ops == [] && e == Seeded(true)
    case Some(t) => t.engine == EvaluateRuns.After(cfg, e, ops, |ops|)
  }

  /** An evaluation at `now` drives the engine, and changes the alerts only by its event. */
  lemma EvaluationDrives(cfg: Config, s: Site, t: Tracked, now: int, e: Engine, ops: seq<EvaluateRuns.Op>)
    requires t.engine == EvaluateRuns.After(cfg, e, ops, |ops|)
    ensures var s' := EvaluateSite(cfg, s, t, now);
      var ops' := ops + [EvaluateRuns.Tick(now)];
      && Driven(cfg, s', e, ops')
      && (EvaluateRuns.EventAt(cfg, e, ops', |ops|) == NoEvent ==> s'.alerts == s.alerts)
  {
    AfterOne(cfg, e, ops, EvaluateRuns.Tick(now));
  }

  lemma ResultDrives(cfg: Config, s: Site, r: CheckResult, now: int, e: Engine, ops: seq<EvaluateRuns.Op>, ops': seq<EvaluateRuns.Op>)
    requires Driven(cfg, s, e, ops)
    requires ops' == ops + [EvaluateRuns.Observe(r.region, Sample(r.up, r.checkedAt)), EvaluateRuns.Tick(now)]
    ensures Driven(cfg, HandleResult(cfg, s, r, now), e, ops')
    ensures EvaluateRuns.EventAt(cfg, e, ops', |ops| + 1) == NoEvent ==>
      Changes(HandleResult(cfg, s, r, now).alerts) == Changes(s.alerts)
  {
    var (t, slow) := Taken(EntryFor(s, r), r);
    var seen := EvaluateRuns.Observe(r.region, Sample(r.up, r.checkedAt));
    AfterOne(cfg, e, ops, seen);
    assert ops' == ops + [seen] + [EvaluateRuns.Tick(now)];
    EvaluationDrives(cfg, s.(alerts := s.alerts + slow), t, now, e, ops + [seen]);
    SlowChangesNothing(s.alerts, EntryFor(s, r), r);
  }

  lemma TickDrives(cfg: Config, s: Site, now: int, e: Engine, ops: seq<EvaluateRuns.Op>)
    requires Driven(cfg, s, e, ops)
    ensures Driven(cfg, TickSite(cfg, s, now), e, if s.tracked.None? then ops else ops + [EvaluateRuns.Tick(now)])
  {
    if s.tracked.Some? {
      EvaluationDrives(cfg, s, s.tracked.value, now, e, ops);
    }
  }

  /** How one operation changes what the engine was seeded with and has seen. */
  ghost predicate Sees(s: Site, op: SiteOp, e: Engine, seen: seq<EvaluateRuns.Op>, e': Engine, seen': seq<EvaluateRuns.Op>) {
    match op
    case Result(r, now) =>
      e' == e && seen' == seen + [EvaluateRuns.Observe(r.region, Sample(r.up, r.checkedAt)), EvaluateRuns.Tick(now)]
    case Tick(now) => e' == e && seen' == if s.tracked.None? then seen else seen + [EvaluateRuns.Tick(now)]
    case Restart(None) => e' == Seeded(true) && seen' == []
    case Restart(Some(_)) => e' == Seeded(s.open == []) && seen' == []
  }

  lemma StepDrives(cfg: Config, s: Site, op: SiteOp, e: Engine, seen: seq<EvaluateRuns.Op>, e': Engine, seen': seq<EvaluateRuns.Op>)
    requires Driven(cfg, s, e, seen) && Sees(s, op, e, seen, e', seen')
    ensures Driven(cfg, SiteStep(cfg, s, op), e', seen')
  {
    match op
    case Result(r, now) => ResultDrives(cfg, s, r, now, e, seen, seen');
    case Tick(now) => TickDrives(cfg, s, now, e, seen);
    case Restart(_) =>
  }

  lemma {:induction false} EnginesDriven(cfg: Config, ops: seq<SiteOp>, k: nat)
    requires k <= |ops|
    ensures Driven(cfg, SiteAfter(cfg, ops, k), SeedOf(cfg, ops, k), EngineOps(cfg, ops, k))
  {
    if k > 0 {
      var j := k - 1;
      EnginesDriven(cfg, ops, j);
      StepDrives(cfg, SiteAfter(cfg, ops, j), ops[j], SeedOf(cfg, ops, j), EngineOps(cfg, ops, j),
                 SeedOf(cfg, ops, k), EngineOps(cfg, ops, k));
    }
  }

  lemma {:induction false} SeedsAreQuiet(cfg: Config, ops: seq<SiteOp>, k: nat)
    requires k <= |ops|
    ensures !SeedOf(cfg, ops, k).pending
  {
    if k > 0 {
      SeedsAreQuiet(cfg, ops, k - 1);
    }
  }

  /** The last thing the engine saw was an evaluation that committed an event. */
  ghost predicate EndsInEvent(cfg: Config, e: Engine, seen: seq<EvaluateRuns.Op>) {
    seen != [] && EvaluateRuns.EventAt(cfg, e, seen, |seen| - 1) != NoEvent
  }

  /** The last thing the engine saw was an evaluation that closed a disagreement of the fresh regions
      with the committed state, unbroken for the stability window. */
  ghost predicate EndsSustained(cfg: Config, e: Engine, seen: seq<EvaluateRuns.Op>) {
    seen != [] && EvaluateRuns.IsSustained(cfg, e, seen, |seen| - 1)
  }

  lemma EventEndsSustained(cfg: Config, e: Engine, seen: seq<EvaluateRuns.Op>)
    requires !e.pending && EndsInEvent(cfg, e, seen)
    ensures EndsSustained(cfg, e, seen)
  {
    var i := EvaluateRuns.FlapsSuppressed(cfg, e, seen, |seen| - 1);
  }

  /** A result changes what the alerts say only by an event. */
  lemma ResultChange(cfg: Config, s: Site, r: CheckResult, now: int, e: Engine, ops: seq<EvaluateRuns.Op>, ops': seq<EvaluateRuns.Op>)
    requires Driven(cfg, s, e, ops) && Changes(HandleResult(cfg, s, r, now).alerts) != Changes(s.alerts)
    requires ops' == ops + [EvaluateRuns.Observe(r.region, Sample(r.up, r.checkedAt)), EvaluateRuns.Tick(now)]
    ensures EndsInEvent(cfg, e, ops')
  {
    ResultDrives(cfg, s, r, now, e, ops, ops');
  }

  lemma TickChange(cfg: Config, s: Site, now: int, e: Engine, ops: seq<EvaluateRuns.Op>, ops': seq<EvaluateRuns.Op>)
    requires Driven(cfg, s, e, ops) && Changes(TickSite(cfg, s, now).alerts) != Changes(s.alerts)
    requires ops' == if s.tracked.None? then ops else ops + [EvaluateRuns.Tick(now)]
    ensures EndsInEvent(cfg, e, ops')
  {
    EvaluationDrives(cfg, s, s.tracked.value, now, e, ops);
  }

  lemma ChangeIsEvent(cfg: Config, ops: seq<SiteOp>, k: nat, next: nat)
    requires next == k + 1 <= |ops|
    requires Changes(SiteAfter(cfg, ops, next).alerts) != Changes(SiteAfter(cfg, ops, k).alerts)
    ensures EndsInEvent(cfg, SeedOf(cfg, ops, next), EngineOps(cfg, ops, next))
  {
    EnginesDriven(cfg, ops, k);
    var s, e, seen := SiteAfter(cfg, ops, k), SeedOf(cfg, ops, k), EngineOps(cfg, ops, k);
    match ops[k] {
      case Result(r, now) => ResultChange(cfg, s, r, now, e, seen, EngineOps(cfg, ops, next));
      case Tick(now) => TickChange(cfg, s, now, e, seen, EngineOps(cfg, ops, next));
    }
  }

  /** In every history, an operation that raises a down or recovered alert ends a disagreement of the
      fresh regions with the committed state that has lasted the stability window, unbroken, within
      the same process. */
  lemma PagesAreSustained(cfg: Config, ops: seq<SiteOp>, k: nat, next: nat)
    requires next == k + 1 <= |ops|
    requires Changes(SiteAfter(cfg, ops, next).alerts) != Changes(SiteAfter(cfg, ops, k).alerts)
    ensures EndsSustained(cfg, SeedOf(cfg, ops, next), EngineOps(cfg, ops, next))
  {
    ChangeIsEvent(cfg, ops, k, next);
    SeedsAreQuiet(cfg, ops, next);
    EventEndsSustained(cfg, SeedOf(cfg, ops, next), EngineOps(cfg, ops, next));
  }
}
