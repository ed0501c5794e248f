/** The evaluator process: an engine per monitor, the incident table and the alerts it raises. */
module Evaluator {
  import opened Entries
  import opened Evaluate

  type MonitorId = int

  datatype CheckResult = CheckResult(
    name: string, url: string, region: Region, checkedAt: int, up: bool, statusCode: int, latencyMs: int,
    error: string, slowThresholdMs: int)

  datatype Alert =
    | WentDown(region: Region, cause: string)
    | CameBack(region: Region)
    | TooSlow(latencyMs: int, slowThresholdMs: int, checks: nat)

  const SLOW_STREAK_TO_ALERT: nat := 3

  /** The bookkeeping around one monitor's engine. */
  datatype Tracked = Tracked(
    name: string, url: string, engine: Engine, lastRegion: Region, lastMs: int, downCause: string,
    slowStreak: nat, slowAlerted: bool)

  /** All there is about one monitor: the process's entry, if it has one, the causes of the open
      incidents in the table, and the alerts raised so far. */
  datatype Site = Site(tracked: Option<Tracked>, open: seq<string>, alerts: seq<Alert>)

  // ---- Steps ----

  function Track(name: string, url: string, up: bool): Tracked {
    Tracked(name, url, Seeded(up), "", 0, "", 0, false)
  }

  function Digits(n: nat): string {
    if n < 10 then [('0' as int + n) as char] else Digits(n / 10) + [('0' as int + n % 10) as char]
  }

  function Itoa(n: int): string {
    if n < 0 then "-" + Digits(-n) else Digits(n)
  }

  function CauseOf(r: CheckResult): string {
    if r.error != "" then r.error else "unexpected status " + Itoa(r.statusCode)
  }

  /** What the entry remembers of the latest result. */
  function Noted(t: Tracked, r: CheckResult): Tracked {
    t.(url := r.url, lastRegion := r.region, lastMs := r.latencyMs, downCause := if r.up then t.downCause else CauseOf(r))
  }

  predicate IsSlow(r: CheckResult) {
    r.slowThresholdMs > 0 && r.up && r.latencyMs > r.slowThresholdMs
  }

  function SlowCheck(t: Tracked, r: CheckResult): (Tracked, seq<Alert>) {
    if !IsSlow(r) then (t.(slowStreak := 0, slowAlerted := false), [])
    else
      var t := t.(slowStreak := t.slowStreak + 1);
      if t.slowStreak < SLOW_STREAK_TO_ALERT || t.slowAlerted then (t, [])
      else (t.(slowAlerted := true), [TooSlow(r.latencyMs, r.slowThresholdMs, t.slowStreak)])
  }

  /** The table and the alerts after the engine's event. Resolving closes every open incident. */
  function Committed(s: Site, t: Tracked, ev: Event): Site {
    match ev
    case Down => Site(Some(t), s.open + [t.downCause], s.alerts + [WentDown(t.lastRegion, t.downCause)])
    case Recovered => Site(Some(t), [], s.alerts + [CameBack(t.lastRegion)])
    case NoEvent => s.(tracked := Some(t))
  }

  function EvaluateSite(cfg: Config, s: Site, t: Tracked, now: int): Site {
    var (engine, ev) := Evaluated(cfg, t.engine, now);
    Committed(s, t.(engine := engine), ev)
  }

  /** The entry a result is handled with; an unknown monitor is taken to be up. */
  function EntryFor(s: Site, r: CheckResult): Tracked {
    match s.tracked
    case Some(t) => t
    case None => Track(r.name, r.url, true)
  }

  /** The result taken into its entry, before the evaluation. */
  function Taken(t: Tracked, r: CheckResult): (Tracked, seq<Alert>) {
    var (t, slow) := SlowCheck(Noted(t, r), r);
    (t.(engine := Observed(t.engine, r.region, Sample(r.up, r.checkedAt))), slow)
  }

  function HandleResult(cfg: Config, s: Site, r: CheckResult, now: int): Site {
    var (t, slow) := Taken(EntryFor(s, r), r);
    EvaluateSite(cfg, s.(alerts := s.alerts + slow), t, now)
  }

  function TickSite(cfg: Config, s: Site, now: int): Site {
    match s.tracked
    case None => s
    case Some(t) => EvaluateSite(cfg, s, t, now)
  }

  /** A new process: an enabled monitor is seeded from the incident table, any other is unknown. */
  function RestartSite(s: Site, enabled: Option<(string, string)>): Site {
    match enabled
    case None => s.(tracked := None)
    case Some((name, url)) => s.(tracked := Some(Track(name, url, s.open == [])))
  }

  // ---- The process ----

  class Entry {
    const id: MonitorId
    const engine: Monitor
    var name: string
    var url: string
    var lastRegion: Region
    var lastMs: int
    var downCause: string
    var slowStreak: nat
    var slowAlerted: bool

    function Value(): Tracked
      reads this, engine
    {
      Tracked(name, url, engine.Value(), lastRegion, lastMs, downCause, slowStreak, slowAlerted)
    }

    constructor (id: MonitorId, name: string, url: string, engine: Monitor)
      ensures this.id == id && this.engine == engine
      ensures Value() == Track(name, url, true).(engine := engine.Value())
    {
      this.id, this.name, this.url, this.engine := id, name, url, engine;
      lastRegion, lastMs, downCause, slowStreak, slowAlerted := "", 0, "", 0, false;
    }

    method Note(r: CheckResult)
      modifies this
      ensures Value() == Noted(old(Value()), r)
    {
      url, lastRegion, lastMs := r.url, r.region, r.latencyMs;
      if !r.up {
        downCause := CauseOf(r);
      }
    }
  }

  class Evaluator {
    const cfg: Config
    var monitors: map<MonitorId, Entry>
    var incidents: map<MonitorId, seq<string>>   // the causes of each monitor's open incidents
    var sent: map<MonitorId, seq<Alert>>

    /** Every entry is filed under its id and has an engine of its own. */
    ghost predicate Valid()
      reads this
    {
      && (forall i | i in monitors :: monitors[i].id == i && monitors[i].engine.cfg == cfg)
      && (forall i, j | i in monitors && j in monitors && i != j :: monitors[i].engine != monitors[j].engine)
    }

    ghost function Entries(): set<object>
      reads this
    {
      set i | i in monitors :: monitors[i]
    }

    ghost function Engines(): set<object>
      reads this
    {
      set i | i in monitors :: monitors[i].engine
    }

    function OpenOf(id: MonitorId): seq<string>
      reads this
    {
      if id in incidents then incidents[id] else []
    }

    function SentOf(id: MonitorId): seq<Alert>
      reads this
    {
      if id in sent then sent[id] else []
    }

    ghost function SiteOf(id: MonitorId): Site
      reads this, Entries(), Engines()
    {
      Site(if id in monitors then Some(monitors[id].Value()) else None, OpenOf(id), SentOf(id))
    }

    /** Starts a process on the table as it is, with an entry for every enabled monitor. */
    constructor (cfg: Config, enabled: map<MonitorId, (string, string)>,
                 incidents: map<MonitorId, seq<string>>, sent: map<MonitorId, seq<Alert>>)
      ensures Valid() && this.cfg == cfg && this.incidents == incidents && this.sent == sent
      ensures monitors.Keys == enabled.Keys
      ensures forall i | i in monitors :: IsSeeded(i, enabled)
    {
      this.cfg, this.incidents, this.sent := cfg, incidents, sent;
      this.monitors := map[];
      new;
      var todo := enabled.Keys;
      while todo != {}
        invariant todo <= enabled.Keys && monitors.Keys == enabled.Keys - todo && Valid()
        invariant this.incidents == incidents && this.sent == sent
        invariant forall i | i in monitors :: fresh(monitors[i]) && fresh(monitors[i].engine)
        invariant forall i | i in monitors :: IsSeeded(i, enabled)
        decreases |todo|
      {
        var id := Pick(todo);
        Seed(id, enabled[id].0, enabled[id].1);
        todo := todo - {id};
      }
    }

    /** Entry `i` was seeded from the incident table. */
    ghost predicate IsSeeded(i: MonitorId, enabled: map<MonitorId, (string, string)>)
      reads this, Entries(), Engines()
      requires i in monitors
    {
      i in enabled && monitors[i].Value() == Track(enabled[i].0, enabled[i].1, OpenOf(i) == [])
    }

    method Seed(id: MonitorId, name: string, url: string)
      requires Valid() && id !in monitors
      modifies this`monitors
      ensures Valid() && id in monitors && fresh(monitors[id]) && fresh(monitors[id].engine)
      ensures monitors == old(monitors)[id := monitors[id]]
      ensures monitors[id].Value() == Track(name, url, OpenOf(id) == [])
    {
      var open := HasOpenIncident(id);
      var engine := new Monitor(cfg, !open);
      var en := new Entry(id, name, url, engine);
      monitors := monitors[id := en];
    }

    method HasOpenIncident(id: MonitorId) returns (open: bool)
      ensures open <==> OpenOf(id) != []
    {
      open := id in incidents && incidents[id] != [];
    }

    method OpenIncident(id: MonitorId, cause: string)
      modifies this`incidents
      ensures incidents == old(incidents)[id := old(OpenOf(id)) + [cause]]
    {
      incidents := incidents[id := OpenOf(id) + [cause]];
    }

    method ResolveIncident(id: MonitorId)
      modifies this`incidents
      ensures incidents == old(incidents)[id := []]
    {
      incidents := incidents[id := []];
    }

    method Notify(id: MonitorId, a: Alert)
      modifies this`sent
      ensures sent == old(sent)[id := old(SentOf(id)) + [a]]
    {
      sent := sent[id := SentOf(id) + [a]];
    }

    /** Turns a committed event into table writes and an alert. */
    method Commit(en: Entry, ev: Event)
      modifies this`incidents, this`sent
      ensures Site(Some(en.Value()), OpenOf(en.id), SentOf(en.id))
        == Committed(Site(None, old(OpenOf(en.id)), old(SentOf(en.id))), en.Value(), ev)
      ensures forall j | j != en.id :: OpenOf(j) == old(OpenOf(j)) && SentOf(j) == old(SentOf(j))
    {
      match ev
      case Down =>
        OpenIncident(en.id, en.downCause);
        Notify(en.id, WentDown(en.lastRegion, en.downCause));
      case Recovered =>
        ResolveIncident(en.id);
        Notify(en.id, CameBack(en.lastRegion));
      case NoEvent =>
    }

    /** Warns once when a monitor stays slow; re-arms once it is fast again. */
    method CheckSlow(en: Entry, r: CheckResult)
      modifies this`sent, en`slowStreak, en`slowAlerted
      ensures en.Value() == SlowCheck(old(en.Value()), r).0
      ensures SentOf(en.id) == old(SentOf(en.id)) + SlowCheck(old(en.Value()), r).1
      ensures forall j | j != en.id :: SentOf(j) == old(SentOf(j))
    {
      if r.slowThresholdMs <= 0 || !r.up || r.latencyMs <= r.slowThresholdMs {
        en.slowStreak, en.slowAlerted := 0, false;
        return;
      }
      en.slowStreak := en.slowStreak + 1;
      if en.slowStreak < SLOW_STREAK_TO_ALERT || en.slowAlerted {
        return;
      }
      en.slowAlerted := true;
      Notify(en.id, TooSlow(r.latencyMs, r.slowThresholdMs, en.slowStreak));
    }

    method Find(id: MonitorId, r: CheckResult) returns (en: Entry)
      requires Valid()
      modifies this`monitors
      ensures Valid() && id in monitors && en == monitors[id] && en.id == id
      ensures en.Value() == EntryFor(old(SiteOf(id)), r)
      ensures monitors == old(monitors)[id := en]
      ensures if id in old(monitors) then en == old(monitors)[id] else fresh(en) && fresh(en.engine)
    {
      if id in monitors {
        en := monitors[id];
      } else {
        var engine := new Monitor(cfg, true);
        en := new Entry(id, r.name, r.url, engine);
        monitors := monitors[id := en];
      }
    }

    /** Evaluates one monitor and commits what its engine says; no other engine changes. */
    method EvaluateEntry(en: Entry, now: int)
      requires en.engine.cfg == cfg
      modifies this`incidents, this`sent, en.engine
      ensures Site(Some(en.Value()), OpenOf(en.id), SentOf(en.id))
        == EvaluateSite(cfg, Site(None, old(OpenOf(en.id)), old(SentOf(en.id))), old(en.Value()), now)
      ensures forall j | j != en.id :: OpenOf(j) == old(OpenOf(j)) && SentOf(j) == old(SentOf(j))
    {
      var ev := en.engine.Evaluate(now);
      Commit(en, ev);
    }

    /** Takes a result into its entry. */
    method TakeResult(en: Entry, r: CheckResult)
      modifies this`sent, en, en.engine
      ensures en.Value() == Taken(old(en.Value()), r).0
      ensures SentOf(en.id) == old(SentOf(en.id)) + Taken(old(en.Value()), r).1
      ensures forall j | j != en.id :: SentOf(j) == old(SentOf(j))
    {
      en.Note(r);
      CheckSlow(en, r);
      en.engine.Observe(r.region, Sample(r.up, r.checkedAt));
    }

    method HandleEntry(en: Entry, r: CheckResult, now: int)
      requires en.engine.cfg == cfg
      modifies this`incidents, this`sent, en, en.engine
      ensures Site(Some(en.Value()), OpenOf(en.id), SentOf(en.id))
        == HandleResult(cfg, Site(Some(old(en.Value())), old(OpenOf(en.id)), old(SentOf(en.id))), r, now)
      ensures forall j | j != en.id :: OpenOf(j) == old(OpenOf(j)) && SentOf(j) == old(SentOf(j))
    {
      TakeResult(en, r);
      EvaluateEntry(en, now);
    }

    /** Handles one check result: exactly its own monitor changes. */
    method HandleResultFor(id: MonitorId, r: CheckResult, now: int)
      requires Valid()
      modifies this, Entries(), Engines()
      ensures Valid() && SiteOf(id) == HandleResult(cfg, old(SiteOf(id)), r, now)
      ensures forall j | j != id :: SiteOf(j) == old(SiteOf(j))
    {
      var en := Find(id, r);
      HandleEntry(en, r, now);
    }

    method TickOne(id: MonitorId, now: int)
      requires Valid() && id in monitors
      modifies this`incidents, this`sent, monitors[id].engine
      ensures Ticked(id, old(SiteOf(id)), now)
      ensures forall j | j != id :: SiteOf(j) == old(SiteOf(j))
    {
      EvaluateEntry(monitors[id], now);
    }

    /** Monitor `j` has been evaluated. */
    ghost predicate Ticked(j: MonitorId, was: Site, now: int)
      reads this, Entries(), Engines()
    {
      SiteOf(j) == TickSite(cfg, was, now)
    }

    /** One tick: every monitor is evaluated, in whatever order. */
    method Tick(now: int)
      requires Valid()
      modifies this`incidents, this`sent, Engines()
      ensures Valid() && monitors == old(monitors)
      ensures forall j :: Ticked(j, old(SiteOf(j)), now)
    {
      var todo := monitors.Keys;
      ghost var was := imap j: MonitorId :: SiteOf(j);
      while todo != {}
        invariant todo <= monitors.Keys && monitors == old(monitors)
        invariant forall j | j in todo :: SiteOf(j) == was[j]
        invariant forall j | j !in todo :: Ticked(j, was[j], now)
        decreases |todo|
      {
        var id := Pick(todo);
        TickOne(id, now);
        todo := todo - {id};
      }
    }
  }

  method Pick<T>(s: set<T>) returns (x: T)
    requires s != {}
    ensures x in s
  {
    x :| x in s;
  }
}
