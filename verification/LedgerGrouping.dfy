/** Grouping of public destinations compared with the same run ungrouped. */
module LedgerGrouping {
  import opened Basics
  import opened Counters
  import opened Net
  import opened Ledger
  import opened LedgerConservation

  function Fine(delta: bool): Config { Config(false, delta) }

  function Grouped(delta: bool): Config { Config(true, delta) }

  /** The group a fine group is merged into. */
  function Coarse(g: GroupKey): GroupKey {
    if IsPrivateNetwork(g.dst) then g else g.(dst := ANY)
  }

  ghost function Parts(s: State, g: GroupKey): set<GroupKey> {
    set p | p in s.metrics && Coarse(p) == g
  }

  ghost function PartsTotal(s: State, g: GroupKey, c: Counter): nat {
    Sum(Parts(s, g), p => Total(s, p).At(c))
  }

  lemma CoarseGroup(delta: bool, k: ConnKey)
    ensures Group(Grouped(delta), k) == Coarse(Group(Fine(delta), k))
  {
  }

  /** Both runs remember the same connections. */
  lemma SameCache(delta: bool, evs: seq<Event>)
    ensures Run(Fine(delta), evs).cache == Run(Grouped(delta), evs).cache
    ensures Run(Fine(delta), evs).primed == Run(Grouped(delta), evs).primed
  {
    var a, b := Run(Fine(delta), evs).cache, Run(Grouped(delta), evs).cache;
    forall k ensures Lookup(a, k) == Lookup(b, k) {
      CacheIsMemory(Fine(delta), evs, k);
      CacheIsMemory(Grouped(delta), evs, k);
    }
    assert forall k :: k in a <==> Lookup(a, k).Some?;
    assert forall k :: k in b <==> Lookup(b, k).Some?;
    assert a.Keys == b.Keys;
    assert forall k :: k in a ==> a[k] == Lookup(a, k).value == Lookup(b, k).value == b[k];
    var any := ConnKey(Endpoint(ANY, 0), Endpoint(ANY, 0), 0);
    CacheIsMemory(Fine(delta), evs, any);
    CacheIsMemory(Grouped(delta), evs, any);
  }

  /** What booking `x` for a reading adds to the parts of group `g`. */
  lemma BookParts(s: State, r: Reading, delta: bool, x: Traffic, g: GroupKey, c: Counter)
    ensures PartsTotal(Book(Fine(delta), s, r, x), g, c) == PartsTotal(s, g, c) +
      if !Silent(Fine(delta), s) && Coarse(Group(Fine(delta), r.key)) == g then x.At(c) else 0
  {
    var s' := Book(Fine(delta), s, r, x);
    var f, h := p => Total(s, p).At(c), p => Total(s', p).At(c);
    var p := Group(Fine(delta), r.key);
    if !Silent(Fine(delta), s) && Coarse(p) == g {
      assert Parts(s', g) == Parts(s, g) + {p};
      SumBump(Parts(s, g), f, h, p, x.At(c));
    } else {
      assert Parts(s', g) == Parts(s, g);
      SumSame(Parts(s, g), f, h);
    }
  }

  lemma BookTotal(t: State, r: Reading, delta: bool, x: Traffic, g: GroupKey, c: Counter)
    ensures Total(Book(Grouped(delta), t, r, x), g).At(c) == Total(t, g).At(c) +
      if !Silent(Grouped(delta), t) && Group(Grouped(delta), r.key) == g then x.At(c) else 0
  {
  }

  /** A reading adds the same amount to its merged group as to that group's parts. */
  lemma ObserveParts(s: State, t: State, r: Reading, delta: bool, g: GroupKey, c: Counter)
    requires s.cache == t.cache && s.primed == t.primed
    ensures var s', t' := Absorb(Fine(delta), s, r), Absorb(Grouped(delta), t, r);
      Total(t', g).At(c) + PartsTotal(s, g, c) == Total(t, g).At(c) + PartsTotal(s', g, c)
  {
    var x := Growth(Lookup(s.cache, r.key), r.counters);
    BookParts(s, r, delta, x, g, c);
    BookTotal(t, r, delta, x, g, c);
    CoarseGroup(delta, r.key);
  }

  lemma EmptyParts(s: State, g: GroupKey, c: Counter)
    requires forall p :: p in Parts(s, g) ==> Total(s, p) == ZERO
    ensures PartsTotal(s, g, c) == 0
  {
    SumZero(Parts(s, g), p => Total(s, p).At(c));
  }

  lemma SameParts(s: State, t: State, g: GroupKey, c: Counter)
    requires s.metrics == t.metrics
    ensures PartsTotal(s, g, c) == PartsTotal(t, g, c)
  {
    assert Parts(s, g) == Parts(t, g);
    SumSame(Parts(s, g), p => Total(s, p).At(c), p => Total(t, p).At(c));
  }

  /** Coarsening: with any collects and scrapes but no cleanup, the grouped run holds
      exactly the merged groups of the fine run, each with the sum of its parts. */
  lemma {:induction false} GroupingIsCoarsening(delta: bool, evs: seq<Event>, g: GroupKey, c: Counter)
    requires forall i :: 0 <= i < |evs| ==> !evs[i].Cleanup?
    ensures var s, t := Run(Fine(delta), evs), Run(Grouped(delta), evs);
      && (g in t.metrics <==> exists p :: p in s.metrics && Coarse(p) == g)
      && Total(t, g).At(c) == PartsTotal(s, g, c)
  {
    if |evs| == 0 {
      EmptyParts(INIT, g, c);
    } else {
      var pre, ev := Front(evs), Last(evs);
      var s, t := Run(Fine(delta), pre), Run(Grouped(delta), pre);
      var s' := Run(Fine(delta), evs);
      GroupingIsCoarsening(delta, pre, g, c);
      SameCache(delta, pre);
      match ev {
        case Observe(r) =>
          ObserveParts(s, t, r, delta, g, c);
          CoarseGroup(delta, r.key);
          assert !Silent(Fine(delta), s) ==> Group(Fine(delta), r.key) in s'.metrics;
        case Scrape(written, clock) =>
          if written && delta {
            EmptyParts(s', g, c);
          }
          assert s'.metrics.Keys == s.metrics.Keys;
        case Done => SameParts(s, s', g, c);
      }
    }
  }

  /** Every part's merged group is held and expires no earlier than the part. */
  ghost predicate Covers(s: State, t: State) {
    forall p :: p in s.metrics ==>
      Coarse(p) in t.metrics && s.metrics[p].lifetime <= t.metrics[Coarse(p)].lifetime
  }

  lemma AbsorbCovers(delta: bool, s: State, t: State, r: Reading)
    requires s.cache == t.cache && s.primed == t.primed && Covers(s, t)
    ensures Covers(Absorb(Fine(delta), s, r), Absorb(Grouped(delta), t, r))
  {
    CoarseGroup(delta, r.key);
  }

  /** That is what it takes for every cleanup, whenever it comes, to keep the merged group
      of each part it keeps. */
  lemma CoversIffCleanupsSafe(s: State, t: State)
    ensures Covers(s, t) <==>
      forall now, p :: p in Expire(s, now).metrics ==> Coarse(p) in Expire(t, now).metrics
  {
    if forall now, p :: p in Expire(s, now).metrics ==> Coarse(p) in Expire(t, now).metrics {
      forall p | p in s.metrics
        ensures Coarse(p) in t.metrics && s.metrics[p].lifetime <= t.metrics[Coarse(p)].lifetime
      {
        assert p in Expire(s, s.metrics[p].lifetime).metrics;
      }
    }
  }

  /** No held part is capped later than its merged group, as far as the cap reaches it:
      the part is reset at an instant no later, or expires before the group's cap anyway. */
  ghost predicate CapsInOrder(s: State, clock: GroupKey -> int) {
    forall p :: p in s.metrics ==>
      clock(p) <= clock(Coarse(p)) || s.metrics[p].lifetime <= clock(Coarse(p)) + TWO_MINUTES
  }

  /** A written delta scrape, which reads the clock once per group, keeps merged groups
      outliving their parts exactly when its caps are in order. */
  lemma ScrapeCoversIff(s: State, t: State, clock: GroupKey -> int)
    requires Covers(s, t)
    ensures Covers(Apply(Fine(true), s, Scrape(true, clock)), Apply(Grouped(true), t, Scrape(true, clock)))
      <==> CapsInOrder(s, clock)
  {
    var s', t' := Apply(Fine(true), s, Scrape(true, clock)), Apply(Grouped(true), t, Scrape(true, clock));
    if Covers(s', t') {
      forall p | p in s.metrics
        ensures clock(p) <= clock(Coarse(p)) || s.metrics[p].lifetime <= clock(Coarse(p)) + TWO_MINUTES
      {
        assert p in s'.metrics && s'.metrics[p] == Flushed(s.metrics[p], clock(p));
      }
    }
  }

  /** Every written delta scrape of the fine run has its caps in order. */
  ghost predicate InOrder(delta: bool, evs: seq<Event>) {
    |evs| == 0 ||
    (var pre, ev := Front(evs), Last(evs);
     && InOrder(delta, pre)
     && (delta && ev.Scrape? && ev.written ==> CapsInOrder(Run(Fine(delta), pre), ev.clock)))
  }

  ghost predicate CoversThroughout(delta: bool, evs: seq<Event>) {
    && Covers(Run(Fine(delta), evs), Run(Grouped(delta), evs))
    && (|evs| > 0 ==> CoversThroughout(delta, Front(evs)))
  }

  lemma EventCoversIff(delta: bool, pre: seq<Event>, ev: Event)
    requires Covers(Run(Fine(delta), pre), Run(Grouped(delta), pre))
    ensures Covers(Apply(Fine(delta), Run(Fine(delta), pre), ev), Apply(Grouped(delta), Run(Grouped(delta), pre), ev))
      <==> (delta && ev.Scrape? && ev.written ==> CapsInOrder(Run(Fine(delta), pre), ev.clock))
  {
    var s, t := Run(Fine(delta), pre), Run(Grouped(delta), pre);
    match ev
    case Observe(r) => SameCache(delta, pre); AbsorbCovers(delta, s, t, r);
    case Scrape(written, clock) =>
      if delta && written {
        ScrapeCoversIff(s, t, clock);
      }
    case _ =>
  }

  /** Merged groups outlive their parts all along a run, with any collects, cleanups and
      scrapes, if and only if its written delta scrapes have their caps in order; in
      cumulative mode that is always so. */
  lemma {:induction false} GroupedOutlivesParts(delta: bool, evs: seq<Event>)
    ensures CoversThroughout(delta, evs) <==> InOrder(delta, evs)
    ensures !delta ==> InOrder(delta, evs)
  {
    if |evs| > 0 {
      GroupedOutlivesParts(delta, Front(evs));
      if InOrder(delta, Front(evs)) {
        EventCoversIff(delta, Front(evs), Last(evs));
      }
    }
  }

  lemma CleanupParts(s: State, now: int, g: GroupKey, c: Counter)
    ensures PartsTotal(Expire(s, now), g, c) <= PartsTotal(s, g, c)
  {
    var s' := Expire(s, now);
    SumSame(Parts(s', g), p => Total(s, p).At(c), p => Total(s', p).At(c));
    SumSubset(Parts(s', g), Parts(s, g), p => Total(s, p).At(c));
  }

  /** With cleanups, a grouped total is still at least the sum of its surviving parts:
      always in cumulative mode, and in delta mode while the scrapes' caps are in order. */
  lemma {:induction false} GroupedCoversParts(delta: bool, evs: seq<Event>, g: GroupKey, c: Counter)
    requires delta ==> InOrder(delta, evs)
    ensures PartsTotal(Run(Fine(delta), evs), g, c) <= Total(Run(Grouped(delta), evs), g).At(c)
  {
    if |evs| == 0 {
      EmptyParts(INIT, g, c);
    } else {
      var pre, ev := Front(evs), Last(evs);
      var s, t := Run(Fine(delta), pre), Run(Grouped(delta), pre);
      var s', t' := Run(Fine(delta), evs), Run(Grouped(delta), evs);
      GroupedCoversParts(delta, pre, g, c);
      SameCache(delta, pre);
      GroupedOutlivesParts(delta, evs);
      match ev {
        case Observe(r) => ObserveParts(s, t, r, delta, g, c);
        case Cleanup(now) =>
          CleanupParts(s, now, g, c);
          if g !in t'.metrics {
            assert Parts(s', g) == {};
          }
        case Scrape(written, clock) =>
          if written && delta {
            EmptyParts(s', g, c);
          }
        case Done => SameParts(s, s', g, c);
      }
    }
  }

  // ---------- why the clock readings matter in delta mode ----------

  /** A first collect that finds nothing, a connection, and a written scrape. */
  ghost function Opening(r: Reading, clock: GroupKey -> int): seq<Event> {
    [Done] + [Observe(r)] + [Scrape(true, clock)]
  }

  /** The connection again, and a cleanup. */
  ghost function OneConnection(r: Reading, clock: GroupKey -> int, r': Reading, now: int): seq<Event> {
    Opening(r, clock) + [Observe(r')] + [Cleanup(now)]
  }

  /** One connection and one group. */
  ghost function Single(r: Reading, g: GroupKey, m: Metric): State {
    State(map[r.key := Seen(r.counters, r.lifetime)], map[g := m], true)
  }

  lemma FirstReading(cfg: Config, s: State, r: Reading)
    requires s == State(map[], map[], true)
    ensures Absorb(cfg, s, r) == Single(r, Group(cfg, r.key), Metric(r.counters, r.lifetime))
  {
  }

  lemma ScrapedSingle(cfg: Config, s: State, r: Reading, g: GroupKey, m: Metric, clock: GroupKey -> int)
    requires cfg.delta && s == Single(r, g, m)
    ensures Apply(cfg, s, Scrape(true, clock)) == Single(r, g, Flushed(m, clock(g)))
  {
    var t := Apply(cfg, s, Scrape(true, clock));
    assert t.metrics == map[g := Flushed(m, clock(g))];
  }

  lemma OpeningRun(cfg: Config, r: Reading, clock: GroupKey -> int)
    requires cfg.delta
    ensures var g := Group(cfg, r.key);
      Run(cfg, Opening(r, clock)) == Single(r, g, Flushed(Metric(r.counters, r.lifetime), clock(g)))
  {
    var start := INIT.(primed := true);
    FromOne(cfg, INIT, [], Done);
    assert [] + [Done] == [Done];
    FromOne(cfg, INIT, [Done], Observe(r));
    FromOne(cfg, INIT, [Done] + [Observe(r)], Scrape(true, clock));
    FirstReading(cfg, start, r);
    ScrapedSingle(cfg, Absorb(cfg, start, r), r, Group(cfg, r.key), Metric(r.counters, r.lifetime), clock);
  }

  /** What is left of a group after a cleanup. */
  ghost function Left(g: GroupKey, m: Metric, now: int): map<GroupKey, Metric> {
    if now <= m.lifetime then map[g := m] else map[]
  }

  lemma NextReading(cfg: Config, s: State, r: Reading, m: Metric, r': Reading, now: int)
    requires r.key == r'.key && s == Single(r, Group(cfg, r.key), m)
    ensures var g := Group(cfg, r.key);
      var fed := Metric(m.total.Plus(r'.counters.Since(r.counters)), Max(m.lifetime, r'.lifetime));
      Expire(Absorb(cfg, s, r'), now).metrics == Left(g, fed, now)
  {
  }

  /** The group of reading `r`, reset at `at`, after reading `r'`. */
  ghost function Renewed(r: Reading, at: int, r': Reading): Metric {
    Metric(ZERO.Plus(r'.counters.Since(r.counters)), Max(Min(r.lifetime, at + TWO_MINUTES), r'.lifetime))
  }

  lemma OneConnectionRun(cfg: Config, r: Reading, clock: GroupKey -> int, r': Reading, now: int, evs: seq<Event>)
    requires cfg.delta && r.key == r'.key && evs == OneConnection(r, clock, r', now)
    ensures var g := Group(cfg, r.key);
      Run(cfg, evs).metrics == Left(g, Renewed(r, clock(g), r'), now)
  {
    var e, s := Opening(r, clock), Run(cfg, Opening(r, clock));
    OpeningRun(cfg, r, clock);
    FromOne(cfg, INIT, e, Observe(r'));
    FromOne(cfg, INIT, e + [Observe(r')], Cleanup(now));
    NextReading(cfg, s, r, s.metrics[Group(cfg, r.key)], r', now);
  }

  lemma SinglePart(s: State, p: GroupKey, m: Metric, c: Counter)
    requires s.metrics == map[p := m]
    ensures PartsTotal(s, Coarse(p), c) == m.total.At(c)
  {
    var f := q => Total(s, q).At(c);
    assert Parts(s, Coarse(p)) == {p};
    SumPick({p}, f, p);
    assert {p} - {p} == {};
    SumZero({p} - {p}, f);
  }

  lemma GrowthFromZero(x: Traffic, y: Traffic, c: Counter)
    ensures ZERO.Plus(y.Since(x)).At(c) == Monus(y.At(c), x.At(c))
  {
  }

  lemma PartWithoutGroup(s: State, t: State, p: GroupKey, m: Metric, merged: Metric, now: int, c: Counter)
    requires s.metrics == Left(p, m, now) && t.metrics == Left(Coarse(p), merged, now)
    requires merged.lifetime < now <= m.lifetime
    ensures Coarse(p) !in t.metrics && PartsTotal(s, Coarse(p), c) == m.total.At(c)
  {
    SinglePart(s, p, m, c);
  }

  /** When a scrape resets a merged group more than the cleanup's margin before one of its
      parts, the cleanup can drop the merged group and keep the part: the grouped run
      then reports nothing where the fine run still holds new traffic. */
  lemma ClocksMatter(
    delta: bool, r: Reading, clock: GroupKey -> int, r': Reading, now: int, evs: seq<Event>, p: GroupKey, c: Counter)
    requires delta && r.key == r'.key && p == Group(Fine(delta), r.key)
    requires evs == OneConnection(r, clock, r', now)
    requires clock(Coarse(p)) + TWO_MINUTES < now <= clock(p) + TWO_MINUTES && r'.lifetime < now <= r.lifetime
    ensures Coarse(p) !in Run(Grouped(delta), evs).metrics
    ensures PartsTotal(Run(Fine(delta), evs), Coarse(p), c) == Monus(r'.counters.At(c), r.counters.At(c))
  {
    CoarseGroup(delta, r.key);
    var s, t := Run(Fine(delta), evs), Run(Grouped(delta), evs);
    var m, merged := Renewed(r, clock(p), r'), Renewed(r, clock(Coarse(p)), r');
    OneConnectionRun(Grouped(delta), r, clock, r', now, evs);
    OneConnectionRun(Fine(delta), r, clock, r', now, evs);
    PartWithoutGroup(s, t, p, m, merged, now, c);
    GrowthFromZero(r.counters, r'.counters, c);
  }
}
