/** Expiry: when cleanups may drop a group, in every reachable state. */
module LedgerLifetimes {
  import opened Basics
  import opened Counters
  import opened Net
  import opened Ledger
  import opened LedgerConservation

  // ---------- cumulative mode ----------

  /** In cumulative mode the group of every cached connection is held, and expires no
      earlier than the connection. */
  lemma {:induction false} GroupsOutliveConnections(cfg: Config, evs: seq<Event>, k: ConnKey)
    requires !cfg.delta
    ensures var s := Run(cfg, evs);
      k in s.cache ==>
        Group(cfg, k) in s.metrics && s.cache[k].lifetime <= s.metrics[Group(cfg, k)].lifetime
  {
    if |evs| > 0 {
      GroupsOutliveConnections(cfg, Front(evs), k);
    }
  }

  /** Scraped totals never go down while one of the group's connections stays cached,
      whatever collects, cleanups and scrapes happen meanwhile. */
  lemma {:induction false} TotalsGrowWhileConnected(cfg: Config, evs: seq<Event>, more: seq<Event>, k: ConnKey, c: Counter)
    requires !cfg.delta
    requires forall i :: 0 <= i <= |more| ==> k in Run(cfg, evs + more[..i]).cache
    ensures Pending(cfg, evs, Group(cfg, k), c) <= Pending(cfg, evs + more, Group(cfg, k), c)
  {
    if |more| == 0 {
      assert evs + more == evs;
    } else {
      var pre := Front(more);
      assert forall i :: 0 <= i <= |pre| ==> pre[..i] == more[..i];
      TotalsGrowWhileConnected(cfg, evs, pre, k, c);
      assert more[..|more|] == more;
      assert Front(evs + more) == evs + pre && Last(evs + more) == Last(more);
      GroupsOutliveConnections(cfg, evs + more, k);
      if Last(more).Observe? {
        ObservePending(cfg, evs + pre, Last(more).r, Group(cfg, k), c);
      }
    }
  }

  // ---------- either mode ----------

  /** One contribution to a pending total: the reading's lifetime and its credit. */
  datatype Feeding = Feeding(lifetime: int, extra: Traffic)

  /** The contributions making up what group `g` holds: those since it was last emptied
      by a written scrape in delta mode, or dropped by a cleanup. */
  ghost function Feeders(cfg: Config, evs: seq<Event>, g: GroupKey): seq<Feeding> {
    if |evs| == 0 then [] else
      var pre := Front(evs);
      match Last(evs)
      case Observe(r) =>
        if Group(cfg, r.key) == g && Counting(cfg, pre)
        then Feeders(cfg, pre, g) + [Feeding(r.lifetime, Growth(Remembered(pre, r.key), r.counters))]
        else Feeders(cfg, pre, g)
      case Done => Feeders(cfg, pre, g)
      case Cleanup(_) => if g in Run(cfg, evs).metrics then Feeders(cfg, pre, g) else []
      case Scrape(written, _) => if written && cfg.delta then [] else Feeders(cfg, pre, g)
  }

  ghost function FedTotal(fs: seq<Feeding>, c: Counter): nat {
    if |fs| == 0 then 0 else FedTotal(Front(fs), c) + Last(fs).extra.At(c)
  }

  lemma FedTotalSnoc(fs: seq<Feeding>, f: Feeding, c: Counter)
    ensures FedTotal(fs + [f], c) == FedTotal(fs, c) + f.extra.At(c)
  {
    assert Front(fs + [f]) == fs;
  }

  lemma ObserveIsFed(cfg: Config, pre: seq<Event>, r: Reading, g: GroupKey, c: Counter)
    requires Pending(cfg, pre, g, c) == FedTotal(Feeders(cfg, pre, g), c)
    ensures Pending(cfg, pre + [Observe(r)], g, c) == FedTotal(Feeders(cfg, pre + [Observe(r)], g), c)
  {
    assert Front(pre + [Observe(r)]) == pre && Last(pre + [Observe(r)]) == Observe(r);
    ObservePending(cfg, pre, r, g, c);
    FedTotalSnoc(Feeders(cfg, pre, g), Feeding(r.lifetime, Growth(Remembered(pre, r.key), r.counters)), c);
  }

  /** A held total is the sum of its feeders. */
  lemma {:induction false} PendingIsFed(cfg: Config, evs: seq<Event>, g: GroupKey, c: Counter)
    ensures Pending(cfg, evs, g, c) == FedTotal(Feeders(cfg, evs, g), c)
  {
    if |evs| > 0 {
      var pre, ev := Front(evs), Last(evs);
      PendingIsFed(cfg, pre, g, c);
      if ev.Observe? {
        assert evs == pre + [ev];
        ObserveIsFed(cfg, pre, ev.r, g, c);
      }
    }
  }

  /** Every feeder expires by `lifetime`. */
  ghost predicate FeedersBy(fs: seq<Feeding>, lifetime: int) {
    forall i :: 0 <= i < |fs| ==> fs[i].lifetime <= lifetime
  }

  /** Some feeder expires at `lifetime`. */
  ghost predicate FeederAt(fs: seq<Feeding>, lifetime: int) {
    exists i :: 0 <= i < |fs| && fs[i].lifetime == lifetime
  }

  lemma FeedersSnoc(fs: seq<Feeding>, f: Feeding, lifetime: int)
    ensures FeedersBy(fs, lifetime) ==> FeedersBy(fs + [f], Max(lifetime, f.lifetime))
    ensures FeederAt(fs, lifetime) ==> FeederAt(fs + [f], lifetime)
    ensures FeederAt(fs + [f], f.lifetime)
  {
    assert (fs + [f])[|fs|] == f;
    if FeederAt(fs, lifetime) {
      var i :| 0 <= i < |fs| && fs[i].lifetime == lifetime;
      assert (fs + [f])[i] == fs[i];
    }
  }

  /** A group outlives every reading that fed it since it was last emptied, despite the
      two-minute cap a written scrape puts on it; in cumulative mode it outlives them
      by nothing. */
  lemma {:induction false} GroupOutlivesFeeders(cfg: Config, evs: seq<Event>, g: GroupKey)
    ensures var s, fs := Run(cfg, evs), Feeders(cfg, evs, g);
      && (|fs| > 0 ==> g in s.metrics)
      && (g in s.metrics ==> FeedersBy(fs, s.metrics[g].lifetime))
      && (!cfg.delta && g in s.metrics ==> FeederAt(fs, s.metrics[g].lifetime))
  {
    if |evs| > 0 {
      var pre, ev := Front(evs), Last(evs);
      var s, fs := Run(cfg, pre), Feeders(cfg, pre, g);
      GroupOutlivesFeeders(cfg, pre, g);
      if ev.Observe? {
        CacheIsMemory(cfg, pre, ev.r.key);
        if Group(cfg, ev.r.key) == g && Counting(cfg, pre) {
          var f := Feeding(ev.r.lifetime, Growth(Remembered(pre, ev.r.key), ev.r.counters));
          FeedersSnoc(fs, f, if g in s.metrics then s.metrics[g].lifetime else ev.r.lifetime);
        }
      }
    }
  }

  /** A cleanup that drops a group discards exactly its feeders' traffic, and only after
      every one of them has expired; in cumulative mode that is also sufficient. */
  lemma CleanupDiscardsOnlyExpired(cfg: Config, evs: seq<Event>, now: int, g: GroupKey, c: Counter)
    requires g in Run(cfg, evs).metrics
    ensures var fs, dropped := Feeders(cfg, evs, g), g !in Run(cfg, evs + [Cleanup(now)]).metrics;
      && (dropped ==> forall i :: 0 <= i < |fs| ==> fs[i].lifetime < now)
      && (!cfg.delta && (forall i :: 0 <= i < |fs| ==> fs[i].lifetime < now) ==> dropped)
      && (dropped ==> Discarded(cfg, evs + [Cleanup(now)], g, c) == Discarded(cfg, evs, g, c) + FedTotal(fs, c))
  {
    var all := evs + [Cleanup(now)];
    assert Front(all) == evs && Last(all) == Cleanup(now);
    FromOne(cfg, INIT, evs, Cleanup(now));
    GroupOutlivesFeeders(cfg, evs, g);
    PendingIsFed(cfg, evs, g, c);
  }

  // ---------- the two-minute cap ----------

  /** The event does not feed group `g`. */
  ghost predicate Spares(cfg: Config, ev: Event, g: GroupKey) {
    ev.Observe? ==> Group(cfg, ev.r.key) != g
  }

  /** A group that is not fed after a written delta scrape keeps a zero total, and expires
      no later than it would have, nor later than two minutes after its reset. */
  lemma {:induction false} IdleGroupStaysCapped(
    cfg: Config, evs: seq<Event>, clock: GroupKey -> int, more: seq<Event>, g: GroupKey)
    requires cfg.delta && forall i :: 0 <= i < |more| ==> Spares(cfg, more[i], g)
    ensures var b, s := Run(cfg, evs), Run(cfg, evs + [Scrape(true, clock)] + more);
      && Total(s, g) == ZERO
      && (g in s.metrics ==> g in b.metrics)
      && (g in s.metrics ==> s.metrics[g].lifetime <= b.metrics[g].lifetime)
      && (g in s.metrics ==> s.metrics[g].lifetime <= clock(g) + TWO_MINUTES)
  {
    var start := evs + [Scrape(true, clock)];
    if |more| == 0 {
      assert start + more == start;
      FromOne(cfg, INIT, evs, Scrape(true, clock));
    } else {
      IdleGroupStaysCapped(cfg, evs, clock, Front(more), g);
      assert Front(start + more) == start + Front(more) && Last(start + more) == Last(more);
      assert Spares(cfg, more[|more| - 1], g);
    }
  }

  /** So a cleanup after either instant drops it, and loses nothing. */
  lemma IdleGroupExpires(
    cfg: Config, evs: seq<Event>, clock: GroupKey -> int, more: seq<Event>, now: int, g: GroupKey, c: Counter)
    requires cfg.delta && forall i :: 0 <= i < |more| ==> Spares(cfg, more[i], g)
    requires g in Run(cfg, evs).metrics ==> now > Min(Run(cfg, evs).metrics[g].lifetime, clock(g) + TWO_MINUTES)
    ensures var before := evs + [Scrape(true, clock)] + more;
      && g !in Run(cfg, before + [Cleanup(now)]).metrics
      && Discarded(cfg, before + [Cleanup(now)], g, c) == Discarded(cfg, before, g, c)
  {
    var before := evs + [Scrape(true, clock)] + more;
    IdleGroupStaysCapped(cfg, evs, clock, more, g);
    FromOne(cfg, INIT, before, Cleanup(now));
    assert Front(before + [Cleanup(now)]) == before;
  }
}
