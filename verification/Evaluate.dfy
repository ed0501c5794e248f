/** The up/down engine of one monitor: majority consensus over fresh regions and flap suppression. */
module Evaluate {
  import opened Entries

  datatype Event = NoEvent | Down | Recovered

  /** The first version's state machine. */
  function Transition(prevUp: bool, nowUp: bool): Event {
    if prevUp && !nowUp then Down
    else if !prevUp && nowUp then Recovered
    else NoEvent
  }

  type Region = string

  /** One region's latest observation. Times and durations are in nanoseconds. */
  datatype Sample = Sample(up: bool, at: int)

  datatype Config = Config(freshness: int, stability: int)

  /** The engine as a value. */
  datatype Engine = Engine(
    samples: map<Region, Sample>,
    confirmedUp: bool,
    pending: bool,
    pendingUp: bool,
    pendingSince: int)

  function Seeded(up: bool): Engine {
    Engine(map[], up, false, false, 0)
  }

  // ---- Consensus ----

  predicate IsFresh(cfg: Config, s: Sample, now: int) {
    now - s.at <= cfg.freshness
  }

  function Fresh(cfg: Config, samples: map<Region, Sample>, now: int): set<Region> {
    set r | r in samples && IsFresh(cfg, samples[r], now)
  }

  function FreshDown(cfg: Config, samples: map<Region, Sample>, now: int): set<Region> {
    set r | r in samples && IsFresh(cfg, samples[r], now) && !samples[r].up
  }

  /** What the fresh regions agree on: down only on a strict majority, nothing without a fresh sample. */
  function Verdict(cfg: Config, samples: map<Region, Sample>, now: int): Option<bool> {
    if Fresh(cfg, samples, now) == {} then None
    else Some(2 * |FreshDown(cfg, samples, now)| <= |Fresh(cfg, samples, now)|)
  }

  /** The counts over all regions but those in `todo`. */
  ghost predicate Counted(cfg: Config, samples: map<Region, Sample>, now: int, todo: set<Region>, total: nat, down: nat) {
    total == |Fresh(cfg, samples, now) - todo| && down == |FreshDown(cfg, samples, now) - todo|
  }

  lemma CountStarts(cfg: Config, samples: map<Region, Sample>, now: int)
    ensures Counted(cfg, samples, now, samples.Keys, 0, 0)
  {
    assert Fresh(cfg, samples, now) - samples.Keys == {} && FreshDown(cfg, samples, now) - samples.Keys == {};
  }

  lemma CountOne(cfg: Config, samples: map<Region, Sample>, now: int, todo: set<Region>, total: nat, down: nat, r: Region)
    requires r in todo && r in samples && Counted(cfg, samples, now, todo, total, down)
    ensures !IsFresh(cfg, samples[r], now) ==> Counted(cfg, samples, now, todo - {r}, total, down)
    ensures IsFresh(cfg, samples[r], now) ==>
      Counted(cfg, samples, now, todo - {r}, total + 1, if samples[r].up then down else down + 1)
  {
    CountOneIn(Fresh(cfg, samples, now), todo, r);
    CountOneIn(FreshDown(cfg, samples, now), todo, r);
  }

  lemma CountOneIn(all: set<Region>, todo: set<Region>, r: Region)
    requires r in todo
    ensures |all - (todo - {r})| == |all - todo| + if r in all then 1 else 0
  {
    assert all - (todo - {r}) == (all - todo) + if r in all then {r} else {};
  }

  lemma CountEnds(cfg: Config, samples: map<Region, Sample>, now: int, total: nat, down: nat)
    requires Counted(cfg, samples, now, {}, total, down)
    ensures Verdict(cfg, samples, now) == if total == 0 then None else Some(2 * down <= total)
  {
    assert Fresh(cfg, samples, now) - {} == Fresh(cfg, samples, now);
    assert FreshDown(cfg, samples, now) - {} == FreshDown(cfg, samples, now);
  }

  /** The verdict in terms of the samples' ages alone: a sample votes exactly while it is at most the
      freshness window old, and only a strict majority of the votes says down. */
  lemma VerdictMeans(cfg: Config, samples: map<Region, Sample>, now: int)
    ensures var votes := set r | r in samples && now - samples[r].at <= cfg.freshness;
      var downs := set r | r in samples && now - samples[r].at <= cfg.freshness && !samples[r].up;
      && (Verdict(cfg, samples, now).Some? <==> exists r :: r in samples && now - samples[r].at <= cfg.freshness)
      && (Verdict(cfg, samples, now) == Some(true) <==> votes != {} && 2 * |downs| <= |votes|)
      && (Verdict(cfg, samples, now) == Some(false) <==> 2 * |downs| > |votes|)
  {
    var votes := set r | r in samples && now - samples[r].at <= cfg.freshness;
    var downs := set r | r in samples && now - samples[r].at <= cfg.freshness && !samples[r].up;
    assert votes == Fresh(cfg, samples, now) && downs == FreshDown(cfg, samples, now);
    assert forall r | r in samples && now - samples[r].at <= cfg.freshness :: r in votes;
    if votes == {} {
      assert downs == {};
    } else {
      var r :| r in votes;
    }
  }

  /** Among older samples a region decides alone exactly while its sample is at most the freshness
      window old; exactly that old it still votes. */
  lemma LoneVoter(cfg: Config, samples: map<Region, Sample>, r: Region, s: Sample, now: int)
    requires forall q | q in samples && q != r :: now - samples[q].at > cfg.freshness
    ensures Verdict(cfg, samples[r := s], now) == if now - s.at <= cfg.freshness then Some(s.up) else None
  {
    var all := samples[r := s];
    var voters := if now - s.at <= cfg.freshness then {r} else {};
    assert Fresh(cfg, all, now) == voters;
    assert FreshDown(cfg, all, now) == if s.up then {} else voters;
  }

  // ---- Evaluation ----

  function Observed(e: Engine, region: Region, s: Sample): Engine {
    e.(samples := e.samples[region := s])
  }

  /** The candidate change after a disagreeing verdict `up` at `now`. */
  function Candidate(e: Engine, up: bool, now: int): Engine {
    if !e.pending || e.pendingUp != up then e.(pending := true, pendingUp := up, pendingSince := now) else e
  }

  function Disagree(cfg: Config, e: Engine, up: bool, now: int): (Engine, Event) {
    var c := Candidate(e, up, now);
    if now - c.pendingSince >= cfg.stability then
      (c.(confirmedUp := up, pending := false), if up then Recovered else Down)
    else (c, NoEvent)
  }

  function Evaluated(cfg: Config, e: Engine, now: int): (Engine, Event) {
    match Verdict(cfg, e.samples, now)
    case None => (e, NoEvent)
    case Some(up) => if up == e.confirmedUp then (e.(pending := false), NoEvent) else Disagree(cfg, e, up, now)
  }

  // ---- The engine ----

  class Monitor {
    const cfg: Config
    var samples: map<Region, Sample>
    var confirmedUp: bool
    var pending: bool
    var pendingUp: bool
    var pendingSince: int

    function Value(): Engine
      reads this
    {
      Engine(samples, confirmedUp, pending, pendingUp, pendingSince)
    }

    constructor (cfg: Config, initialUp: bool)
      ensures this.cfg == cfg && Value() == Seeded(initialUp)
    {
      this.cfg := cfg;
      samples, confirmedUp, pending, pendingUp, pendingSince := map[], initialUp, false, false, 0;
    }

    method Observe(region: Region, s: Sample)
      modifies this
      ensures Value() == Observed(old(Value()), region, s)
    {
      samples := samples[region := s];
    }

    method Up() returns (up: bool)
      ensures up == Value().confirmedUp
    {
      up := confirmedUp;
    }

    /** Counts the fresh regions and those of them that are down. There is an answer exactly when some
        region's sample is at most the freshness window old, and it is down exactly when more than
        half of the samples that young are down. */
    method Consensus(now: int) returns (up: bool, ok: bool)
      ensures ok <==> exists r :: r in samples && now - samples[r].at <= cfg.freshness
      ensures ok ==>
        (up <==> 2 * |set r | r in samples && now - samples[r].at <= cfg.freshness && !samples[r].up|
                 <= |set r | r in samples && now - samples[r].at <= cfg.freshness|)
      ensures Verdict(cfg, samples, now) == if ok then Some(up) else None
    {
      var total: nat, down: nat := 0, 0;
      var todo := samples.Keys;
      CountStarts(cfg, samples, now);
      while todo != {}
        invariant todo <= samples.Keys && Counted(cfg, samples, now, todo, total, down)
        decreases |todo|
      {
        var r :| r in todo;
        CountOne(cfg, samples, now, todo, total, down, r);
        todo := todo - {r};
        if now - samples[r].at > cfg.freshness {
          continue;
        }
        total := total + 1;
        if !samples[r].up {
          down := down + 1;
        }
      }
      CountEnds(cfg, samples, now, total, down);
      VerdictMeans(cfg, samples, now);
      if total == 0 {
        return false, false;
      }
      return 2 * down <= total, true;
    }

    method Evaluate(now: int) returns (ev: Event)
      modifies this
      ensures (Value(), ev) == Evaluated(cfg, old(Value()), now)
    {
      var consUp, ok := Consensus(now);
      if !ok {
        return NoEvent;
      }
      if consUp == confirmedUp {
        pending := false;
        return NoEvent;
      }
      if !pending || pendingUp != consUp {
        pending, pendingUp, pendingSince := true, consUp, now;
      }
      if now - pendingSince >= cfg.stability {
        confirmedUp, pending := consUp, false;
        if consUp {
          return Recovered;
        }
        return Down;
      }
      return NoEvent;
    }
  }
}
