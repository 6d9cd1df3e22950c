/** The collector's accounting as a state machine over values: connection readings
    in, per-group running totals out. `Collecting` refines it with objects. */
module Ledger {
  import opened Basics
  import opened Counters
  import opened Net

  /** `GroupPublicIPs` and `SendTrafficDelta`. */
  datatype Config = Config(groupPublic: bool, delta: bool)

  /** One conntrack entry as listed by a snapshot. Times are nanoseconds since the
      zero time, so a missing lifetime is 0. */
  datatype Reading = Reading(key: ConnKey, counters: Traffic, lifetime: int)

  datatype Seen = Seen(counters: Traffic, lifetime: int)

  datatype Metric = Metric(total: Traffic, lifetime: int)

  datatype State = State(cache: map<ConnKey, Seen>, metrics: map<GroupKey, Metric>, primed: bool)

  const INIT := State(map[], map[], false)

  /** What can happen to a collector. A call of `collect` is one `Observe` per listed
      entry and then `Done`; a failed call is no event. `clock(g)` is the instant at
      which a written scrape resets group `g`: the handler reads the clock once per group. */
  datatype Event =
    | Observe(r: Reading)
    | Done
    | Cleanup(now: int)
    | Scrape(written: bool, clock: GroupKey -> int)

  const TWO_MINUTES: int := 120_000_000_000

  // ---------- one step ----------

  function Group(cfg: Config, k: ConnKey): GroupKey {
    GroupKey(k.src.ip, if cfg.groupPublic && !IsPrivateNetwork(k.dst.ip) then ANY else k.dst.ip, k.proto)
  }

  /** Traffic a reading adds to what was last seen of its connection. */
  function Growth(seen: Option<Seen>, counters: Traffic): Traffic {
    match seen
    case None => counters
    case Some(s) => counters.Since(s.counters)
  }

  function Lookup(cache: map<ConnKey, Seen>, k: ConnKey): Option<Seen> {
    if k in cache then Some(cache[k]) else None
  }

  /** Total of a group, zero when it is not held. */
  function Total(s: State, g: GroupKey): Traffic {
    if g in s.metrics then s.metrics[g].total else ZERO
  }

  function Feed(ms: map<GroupKey, Metric>, g: GroupKey, extra: Traffic, lifetime: int): Metric {
    if g in ms
    then Metric(ms[g].total.Plus(extra), Max(ms[g].lifetime, lifetime))
    else Metric(extra, lifetime)
  }

  /** In delta mode nothing is credited before the first collect has finished. */
  predicate Silent(cfg: Config, s: State) {
    cfg.delta && !s.primed
  }

  /** Remembers a reading and books `extra` to its group. */
  function Book(cfg: Config, s: State, r: Reading, extra: Traffic): State {
    var cache := s.cache[r.key := Seen(r.counters, r.lifetime)];
    if Silent(cfg, s) then s.(cache := cache) else
      var g := Group(cfg, r.key);
      s.(cache := cache, metrics := s.metrics[g := Feed(s.metrics, g, extra, r.lifetime)])
  }

  /** One iteration of the collect loop. */
  function Absorb(cfg: Config, s: State, r: Reading): State {
    Book(cfg, s, r, Growth(Lookup(s.cache, r.key), r.counters))
  }

  function Expire(s: State, now: int): State {
    s.(cache := map k | k in s.cache && now <= s.cache[k].lifetime :: s.cache[k],
       metrics := map g | g in s.metrics && now <= s.metrics[g].lifetime :: s.metrics[g])
  }

  function Flushed(m: Metric, now: int): Metric {
    Metric(ZERO, Min(m.lifetime, now + TWO_MINUTES))
  }

  function Apply(cfg: Config, s: State, ev: Event): State {
    match ev
    case Observe(r) => Absorb(cfg, s, r)
    case Done => s.(primed := true)
    case Cleanup(now) => Expire(s, now)
    case Scrape(written, clock) =>
      if written && cfg.delta
      then s.(metrics := map g | g in s.metrics :: Flushed(s.metrics[g], clock(g)))
      else s
  }

  // ---------- runs ----------

  function From(cfg: Config, s: State, evs: seq<Event>): State {
    if |evs| == 0 then s else Apply(cfg, From(cfg, s, Front(evs)), Last(evs))
  }

  /** Every reachable state is `Run(cfg, evs)` for some history `evs`. */
  function Run(cfg: Config, evs: seq<Event>): State {
    From(cfg, INIT, evs)
  }

  function Observes(rs: seq<Reading>): (evs: seq<Event>)
    ensures |evs| == |rs| && forall i :: 0 <= i < |rs| ==> evs[i] == Observe(rs[i])
  {
    seq(|rs|, i requires 0 <= i < |rs| => Observe(rs[i]))
  }

  /** The events of one successful `collect`. */
  function CollectEvents(rs: seq<Reading>): seq<Event> {
    Observes(rs) + [Done]
  }

  lemma FromOne(cfg: Config, s: State, evs: seq<Event>, ev: Event)
    ensures From(cfg, s, evs + [ev]) == Apply(cfg, From(cfg, s, evs), ev)
  {
    assert Front(evs + [ev]) == evs;
  }

  lemma {:induction false} FromConcat(cfg: Config, s: State, xs: seq<Event>, ys: seq<Event>)
    ensures From(cfg, s, xs + ys) == From(cfg, From(cfg, s, xs), ys)
    decreases |ys|
  {
    if |ys| == 0 {
      assert xs + ys == xs;
    } else {
      FromConcat(cfg, s, xs, Front(ys));
      assert Front(xs + ys) == xs + Front(ys);
    }
  }
}
