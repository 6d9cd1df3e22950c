/** Both ends of a netfilter session are accounted alike: what one pod's group has
    sent, the other pod's group has received. */
module Symmetry {
  import opened Basics
  import opened Counters
  import opened Net
  import opened Ledger
  import opened LedgerOrder
  import opened Conntrack
  import opened NodePods
  import opened Agent

  // ---------- mirrored states ----------

  function MirrorSeen(m: Option<Seen>): Option<Seen> {
    if m.None? then None else Some(Seen(m.value.counters.Mirrored(), m.value.lifetime))
  }

  function Find(s: State, g: GroupKey): Option<Metric> {
    if g in s.metrics then Some(s.metrics[g]) else None
  }

  function MirrorMetric(m: Option<Metric>): Option<Metric> {
    if m.None? then None else Some(Metric(m.value.total.Mirrored(), m.value.lifetime))
  }

  /** Connections between two different endpoints are remembered alike in both directions. */
  ghost predicate CacheMirrors(s: State, a: IPv4, b: IPv4) {
    forall k: ConnKey :: k.src.ip == a && k.dst.ip == b && k.src != k.dst ==>
      Lookup(s.cache, k.Mirrored()) == MirrorSeen(Lookup(s.cache, k))
  }

  ghost predicate MetricsMirror(s: State, a: IPv4, b: IPv4) {
    forall p: Byte :: Find(s, GroupKey(b, a, p)) == MirrorMetric(Find(s, GroupKey(a, b, p)))
  }

  /** Grouping either is off or does not touch the two addresses. */
  predicate Ungrouped(cfg: Config, a: IPv4, b: IPv4) {
    cfg.groupPublic ==> IsPrivateNetwork(a) && IsPrivateNetwork(b)
  }

  predicate Between(k: ConnKey, a: IPv4, b: IPv4) {
    (k.src.ip == a && k.dst.ip == b) || (k.src.ip == b && k.dst.ip == a)
  }

  /** Only connections between two ungrouped addresses feed their group. */
  lemma GroupBetween(cfg: Config, k: ConnKey, a: IPv4, b: IPv4, p: Byte)
    requires Ungrouped(cfg, a, b)
    ensures Group(cfg, k) == GroupKey(a, b, p) <==> k.src.ip == a && k.dst.ip == b && k.proto == p
    ensures Group(cfg, k) == GroupKey(b, a, p) <==> k.src.ip == b && k.dst.ip == a && k.proto == p
  {
  }

  lemma MirrorLaws(x: Traffic, y: Traffic)
    ensures x.Mirrored().Mirrored() == x
    ensures x.Plus(y).Mirrored() == x.Mirrored().Plus(y.Mirrored())
    ensures x.Since(y).Mirrored() == x.Mirrored().Since(y.Mirrored())
    ensures x.Plus(y) == y.Plus(x)
  {
  }

  lemma GrowthMirrors(m: Option<Seen>, x: Traffic)
    ensures Growth(MirrorSeen(m), x.Mirrored()) == Growth(m, x).Mirrored()
  {
    if m.Some? {
      MirrorLaws(x, m.value.counters);
    }
  }

  lemma {:induction false} AbsorbElsewhere(cfg: Config, s: State, r: Reading, a: IPv4, b: IPv4)
    requires Ungrouped(cfg, a, b) && !Between(r.key, a, b)
    requires CacheMirrors(s, a, b) && MetricsMirror(s, a, b)
    ensures CacheMirrors(Absorb(cfg, s, r), a, b) && MetricsMirror(Absorb(cfg, s, r), a, b)
  {
    var t := Absorb(cfg, s, r);
    forall k: ConnKey | k.src.ip == a && k.dst.ip == b && k.src != k.dst
      ensures Lookup(t.cache, k.Mirrored()) == MirrorSeen(Lookup(t.cache, k))
    {
      assert Lookup(s.cache, k.Mirrored()) == MirrorSeen(Lookup(s.cache, k));
    }
    forall p: Byte
      ensures Find(t, GroupKey(b, a, p)) == MirrorMetric(Find(t, GroupKey(a, b, p)))
    {
      GroupBetween(cfg, r.key, a, b, p);
      assert Find(s, GroupKey(b, a, p)) == MirrorMetric(Find(s, GroupKey(a, b, p)));
    }
  }

  lemma PairLookup(cfg: Config, s: State, r: Reading, k: ConnKey)
    ensures Lookup(Absorb(cfg, Absorb(cfg, s, r), Mirror(r)).cache, k) ==
      if k == r.key.Mirrored() then Some(Seen(r.counters.Mirrored(), r.lifetime))
      else if k == r.key then Some(Seen(r.counters, r.lifetime))
      else Lookup(s.cache, k)
  {
  }

  lemma PairCache(cfg: Config, s: State, r: Reading, a: IPv4, b: IPv4)
    requires Between(r.key, a, b) && r.key.src != r.key.dst
    requires CacheMirrors(s, a, b)
    ensures CacheMirrors(Absorb(cfg, Absorb(cfg, s, r), Mirror(r)), a, b)
  {
    var t := Absorb(cfg, Absorb(cfg, s, r), Mirror(r));
    MirrorLaws(r.counters, r.counters);
    forall k: ConnKey | k.src.ip == a && k.dst.ip == b && k.src != k.dst
      ensures Lookup(t.cache, k.Mirrored()) == MirrorSeen(Lookup(t.cache, k))
    {
      PairLookup(cfg, s, r, k);
      PairLookup(cfg, s, r, k.Mirrored());
      assert Lookup(s.cache, k.Mirrored()) == MirrorSeen(Lookup(s.cache, k));
    }
  }

  /** The mirror entry credits the mirrored amount. */
  lemma PairGrowth(s: State, r: Reading, a: IPv4, b: IPv4)
    requires Between(r.key, a, b) && r.key.src != r.key.dst
    requires CacheMirrors(s, a, b)
    ensures Growth(Lookup(s.cache, r.key.Mirrored()), r.counters.Mirrored())
         == Growth(Lookup(s.cache, r.key), r.counters).Mirrored()
  {
    var k := r.key;
    if k.src.ip == a && k.dst.ip == b {
      GrowthMirrors(Lookup(s.cache, k), r.counters);
    } else {
      assert k.Mirrored().Mirrored() == k;
      assert Lookup(s.cache, k) == MirrorSeen(Lookup(s.cache, k.Mirrored()));
      GrowthMirrors(Lookup(s.cache, k.Mirrored()), r.counters.Mirrored());
      MirrorLaws(r.counters, r.counters);
      var x := Growth(Lookup(s.cache, k.Mirrored()), r.counters.Mirrored());
      MirrorLaws(x, x);
    }
  }

  /** Feeding mirrored metrics mirrored amounts keeps them mirrored. */
  lemma FeedMirrors(s: State, t: State, g: GroupKey, h: GroupKey, x: Traffic, lifetime: int)
    requires Find(t, h) == MirrorMetric(Find(s, g))
    ensures Some(Feed(t.metrics, h, x.Mirrored(), lifetime)) == MirrorMetric(Some(Feed(s.metrics, g, x, lifetime)))
  {
    if g in s.metrics {
      MirrorLaws(s.metrics[g].total, x);
    }
  }

  /** Within one pod, an entry and its mirror together add as much sent as received. */
  lemma FeedTwiceMirrors(s: State, t: State, g: GroupKey, x: Traffic, lifetime: int)
    requires Find(s, g) == MirrorMetric(Find(s, g))
    requires Find(t, g) == Some(Feed(s.metrics, g, x, lifetime))
    ensures Some(Feed(t.metrics, g, x.Mirrored(), lifetime)) == MirrorMetric(Some(Feed(t.metrics, g, x.Mirrored(), lifetime)))
  {
    MirrorLaws(x, x.Mirrored());
    if g in s.metrics {
      var m := s.metrics[g].total;
      MirrorLaws(m, x);
      MirrorLaws(m.Plus(x), x.Mirrored());
      assert m.Plus(x).Plus(x.Mirrored()) == m.Plus(x.Mirrored()).Plus(x) by {
        PlusCommutes(m, x, x.Mirrored());
      }
    }
  }

  lemma PairMetrics(cfg: Config, s: State, r: Reading, a: IPv4, b: IPv4)
    requires Ungrouped(cfg, a, b) && Between(r.key, a, b) && r.key.src != r.key.dst
    requires CacheMirrors(s, a, b) && MetricsMirror(s, a, b)
    ensures MetricsMirror(Absorb(cfg, Absorb(cfg, s, r), Mirror(r)), a, b)
  {
    var s' := Absorb(cfg, s, r);
    var t := Absorb(cfg, s', Mirror(r));
    if !Silent(cfg, s) {
      var x := Growth(Lookup(s.cache, r.key), r.counters);
      PairGrowth(s, r, a, b);
      assert Lookup(s'.cache, r.key.Mirrored()) == Lookup(s.cache, r.key.Mirrored());
      forall p: Byte
        ensures Find(t, GroupKey(b, a, p)) == MirrorMetric(Find(t, GroupKey(a, b, p)))
      {
        var ab, ba := GroupKey(a, b, p), GroupKey(b, a, p);
        GroupBetween(cfg, r.key, a, b, p);
        GroupBetween(cfg, r.key.Mirrored(), a, b, p);
        assert Find(s, ba) == MirrorMetric(Find(s, ab));
        if p == r.key.proto {
          if a == b {
            FeedTwiceMirrors(s, s', ab, x, r.lifetime);
          } else if r.key.src.ip == a {
            FeedMirrors(s, s', ab, ba, x, r.lifetime);
          } else {
            if ab in s.metrics {
              MirrorLaws(s.metrics[ab].total, x);
            }
            FeedMirrors(s, s', ba, ab, x, r.lifetime);
            MirrorLaws(Feed(s.metrics, ba, x, r.lifetime).total, x);
          }
        }
      }
    } else {
      assert t.metrics == s.metrics;
      assert forall g :: Find(t, g) == Find(s, g);
    }
  }

  // ---------- sessions from an endpoint to itself ----------

  function HeldNow(s: State, k: ConnKey): Traffic {
    if k in s.cache then s.cache[k].counters else ZERO
  }

  /** The reading of a self session agrees with what is held of it, as far as both reach,
      on how much was sent and how much received. */
  ghost predicate SelfEven(s: State, r: Reading) {
    forall c: Counter :: EvenAt(s, r, c)
  }

  predicate EvenAt(s: State, r: Reading, c: Counter) {
    var x, h := r.counters, HeldNow(s, r.key);
    Min(x.At(c), h.At(c)) == Min(x.At(c.Mirrored()), h.At(c.Mirrored()))
  }

  lemma ZeroLaws(x: Traffic)
    ensures ZERO.Plus(x) == x && x.Since(ZERO) == x
  {
  }

  /** What absorbing a reading does to its own connection and group. */
  lemma AbsorbEffect(cfg: Config, s: State, r: Reading)
    requires !Silent(cfg, s)
    ensures var t, g := Absorb(cfg, s, r), Group(cfg, r.key);
      HeldNow(t, r.key) == r.counters && Total(t, g) == Total(s, g).Plus(r.counters.Since(HeldNow(s, r.key)))
  {
    var x := Growth(Lookup(s.cache, r.key), r.counters);
    ZeroLaws(r.counters);
    ZeroLaws(x);
    assert x == r.counters.Since(HeldNow(s, r.key));
  }

  lemma GrowthTwice(m: Traffic, x: Traffic, h: Traffic, c: Counter)
    ensures m.Plus(x.Since(h)).Plus(x.Mirrored().Since(x)).At(c) ==
      m.At(c) + Monus(x.At(c), h.At(c)) + Monus(x.At(c.Mirrored()), x.At(c))
  {
  }

  /** A self session shares one cache entry with its mirror. */
  lemma SelfPairTotal(cfg: Config, s: State, r: Reading, c: Counter)
    requires r.key.src == r.key.dst && !Silent(cfg, s)
    ensures var t, g := Absorb(cfg, Absorb(cfg, s, r), Mirror(r)), Group(cfg, r.key);
      var x, h := r.counters, HeldNow(s, r.key);
      && HeldNow(t, r.key) == x.Mirrored()
      && Total(t, g).At(c) == Total(s, g).At(c) + Monus(x.At(c), h.At(c)) + Monus(x.At(c.Mirrored()), x.At(c))
  {
    AbsorbEffect(cfg, s, r);
    AbsorbEffect(cfg, Absorb(cfg, s, r), Mirror(r));
    GrowthTwice(Total(s, Group(cfg, r.key)), r.counters, HeldNow(s, r.key), c);
  }

  /** Absorbing a self session and its mirror keeps sent equal to received, counter by
      counter, if and only if the reading is even with what is held. */
  lemma SelfPairEvenIff(cfg: Config, s: State, r: Reading, c: Counter)
    requires r.key.src == r.key.dst && !Silent(cfg, s)
    requires Total(s, Group(cfg, r.key)).At(c) == Total(s, Group(cfg, r.key)).At(c.Mirrored())
    ensures var t, g := Absorb(cfg, Absorb(cfg, s, r), Mirror(r)), Group(cfg, r.key);
      Total(t, g).At(c) == Total(t, g).At(c.Mirrored()) <==> EvenAt(s, r, c)
  {
    SelfPairTotal(cfg, s, r, c);
    SelfPairTotal(cfg, s, r, c.Mirrored());
    assert c.Mirrored().Mirrored() == c;
  }

  lemma MirroredIff(x: Traffic)
    ensures x.Mirrored() == x <==> forall c: Counter :: x.At(c) == x.At(c.Mirrored())
  {
    if forall c: Counter :: x.At(c) == x.At(c.Mirrored()) {
      assert x.At(TxBytes) == x.At(TxBytes.Mirrored()) && x.At(TxPackets) == x.At(TxPackets.Mirrored());
    }
  }

  /** For one pod's group toward itself: a self session keeps its metrics mirrored if and
      only if it is silent or even. */
  lemma SelfPairMetricsIff(cfg: Config, s: State, r: Reading, a: IPv4)
    requires Ungrouped(cfg, a, a) && r.key.src == r.key.dst && r.key.src.ip == a && MetricsMirror(s, a, a)
    ensures MetricsMirror(Absorb(cfg, Absorb(cfg, s, r), Mirror(r)), a, a) <==> Silent(cfg, s) || SelfEven(s, r)
  {
    var t, g := Absorb(cfg, Absorb(cfg, s, r), Mirror(r)), GroupKey(a, a, r.key.proto);
    GroupBetween(cfg, r.key, a, a, r.key.proto);
    assert Find(s, g) == MirrorMetric(Find(s, g));
    if Silent(cfg, s) {
      assert t.metrics == s.metrics && forall h :: Find(t, h) == Find(s, h);
    } else {
      MirroredIff(Total(s, g));
      MirroredIff(Total(t, g));
      forall c: Counter ensures Total(t, g).At(c) == Total(t, g).At(c.Mirrored()) <==> EvenAt(s, r, c) {
        SelfPairEvenIff(cfg, s, r, c);
      }
      SelfPairElsewhere(cfg, s, r, a);
    }
  }

  lemma SelfPairElsewhere(cfg: Config, s: State, r: Reading, a: IPv4)
    requires Ungrouped(cfg, a, a) && r.key.src == r.key.dst && r.key.src.ip == a && MetricsMirror(s, a, a)
    requires !Silent(cfg, s)
    ensures var t, g := Absorb(cfg, Absorb(cfg, s, r), Mirror(r)), GroupKey(a, a, r.key.proto);
      && g in t.metrics
      && (MetricsMirror(t, a, a) <==> Total(t, g).Mirrored() == Total(t, g))
  {
    var t, g := Absorb(cfg, Absorb(cfg, s, r), Mirror(r)), GroupKey(a, a, r.key.proto);
    GroupBetween(cfg, r.key, a, a, r.key.proto);
    forall p: Byte | p != r.key.proto
      ensures Find(t, GroupKey(a, a, p)) == MirrorMetric(Find(t, GroupKey(a, a, p)))
    {
      assert Find(s, GroupKey(a, a, p)) == MirrorMetric(Find(s, GroupKey(a, a, p)));
    }
    if MetricsMirror(t, a, a) {
      assert Find(t, g) == MirrorMetric(Find(t, g));
    }
  }

  lemma SelfPairCache(cfg: Config, s: State, r: Reading, a: IPv4, b: IPv4)
    requires r.key.src == r.key.dst && CacheMirrors(s, a, b)
    ensures CacheMirrors(Absorb(cfg, Absorb(cfg, s, r), Mirror(r)), a, b)
  {
    var t := Absorb(cfg, Absorb(cfg, s, r), Mirror(r));
    forall k: ConnKey | k.src.ip == a && k.dst.ip == b && k.src != k.dst
      ensures Lookup(t.cache, k.Mirrored()) == MirrorSeen(Lookup(t.cache, k))
    {
      assert Lookup(s.cache, k.Mirrored()) == MirrorSeen(Lookup(s.cache, k));
    }
  }

  // ---------- whole snapshots ----------

  /** The session does not upset the balance of the two addresses. */
  ghost predicate FairSession(cfg: Config, s: State, r: Reading, a: IPv4, b: IPv4) {
    Between(r.key, a, b) && r.key.src == r.key.dst ==> Silent(cfg, s) || SelfEven(s, r)
  }

  lemma SessionKeepsMirrors(cfg: Config, s: State, r: Reading, tracked: set<IPv4>, a: IPv4, b: IPv4)
    requires Ungrouped(cfg, a, b) && a in tracked && b in tracked && FairSession(cfg, s, r, a, b)
    requires CacheMirrors(s, a, b) && MetricsMirror(s, a, b)
    ensures var t := AbsorbAll(cfg, s, Pair(r, tracked));
      CacheMirrors(t, a, b) && MetricsMirror(t, a, b)
  {
    if Between(r.key, a, b) {
      assert Pair(r, tracked) == [r, Mirror(r)];
      AbsorbPair(cfg, s, r);
      if r.key.src == r.key.dst {
        SelfPairCache(cfg, s, r, a, b);
        SelfPairMetricsIff(cfg, s, r, a);
      } else {
        PairCache(cfg, s, r, a, b);
        PairMetrics(cfg, s, r, a, b);
      }
    } else {
      ElsewhereKeepsMirrors(cfg, s, Pair(r, tracked), a, b);
    }
  }

  lemma {:induction false} ElsewhereKeepsMirrors(cfg: Config, s: State, rs: seq<Reading>, a: IPv4, b: IPv4)
    requires Ungrouped(cfg, a, b)
    requires forall i :: 0 <= i < |rs| ==> !Between(rs[i].key, a, b)
    requires CacheMirrors(s, a, b) && MetricsMirror(s, a, b)
    ensures var t := AbsorbAll(cfg, s, rs);
      CacheMirrors(t, a, b) && MetricsMirror(t, a, b)
    decreases |rs|
  {
    if |rs| > 0 {
      AbsorbElsewhere(cfg, s, rs[0], a, b);
      ElsewhereKeepsMirrors(cfg, Absorb(cfg, s, rs[0]), rs[1..], a, b);
    }
  }

  lemma {:induction false} AbsorbAllConcat(cfg: Config, s: State, xs: seq<Reading>, ys: seq<Reading>)
    ensures AbsorbAll(cfg, s, xs + ys) == AbsorbAll(cfg, AbsorbAll(cfg, s, xs), ys)
    decreases |xs|
  {
    if |xs| == 0 {
      assert xs + ys == ys;
    } else {
      assert (xs + ys)[1..] == xs[1..] + ys;
      AbsorbAllConcat(cfg, Absorb(cfg, s, xs[0]), xs[1..], ys);
    }
  }

  /** Every session of a dump is fair when it comes up; always so for two addresses. */
  ghost predicate FairListing(
    cfg: Config, s: State, ss: seq<Session>, tracked: set<IPv4>, now: int, a: IPv4, b: IPv4)
  {
    |ss| == 0 ||
    (var pre, last := Front(ss), Last(ss);
     && FairListing(cfg, s, pre, tracked, now, a, b)
     && (Accepted(last) && Readable(last) ==>
           FairSession(cfg, AbsorbAll(cfg, s, Listing(pre, tracked, now)), Forward(last, now), a, b)))
  }

  lemma {:induction false} TwoAddressesAreFair(
    cfg: Config, s: State, ss: seq<Session>, tracked: set<IPv4>, now: int, a: IPv4, b: IPv4)
    requires a != b
    ensures FairListing(cfg, s, ss, tracked, now, a, b)
  {
    if |ss| > 0 {
      TwoAddressesAreFair(cfg, s, Front(ss), tracked, now, a, b);
    }
  }

  lemma {:induction false} ListingKeepsMirrors(
    cfg: Config, s: State, ss: seq<Session>, tracked: set<IPv4>, now: int, a: IPv4, b: IPv4)
    requires Ungrouped(cfg, a, b) && a in tracked && b in tracked
    requires FairListing(cfg, s, ss, tracked, now, a, b)
    requires CacheMirrors(s, a, b) && MetricsMirror(s, a, b)
    ensures var t := AbsorbAll(cfg, s, Listing(ss, tracked, now));
      CacheMirrors(t, a, b) && MetricsMirror(t, a, b)
    decreases |ss|
  {
    if |ss| > 0 {
      var pre, last := Front(ss), Last(ss);
      var t := AbsorbAll(cfg, s, Listing(pre, tracked, now));
      ListingKeepsMirrors(cfg, s, pre, tracked, now, a, b);
      AbsorbAllConcat(cfg, s, Listing(pre, tracked, now), SessionEntries(last, tracked, now));
      if Accepted(last) && Readable(last) {
        SessionKeepsMirrors(cfg, t, Forward(last, now), tracked, a, b);
      }
    }
  }

  lemma CollectKeepsMirrors(
    cfg: Config, s: State, ss: seq<Session>, tracked: set<IPv4>, now: int, a: IPv4, b: IPv4)
    requires Ungrouped(cfg, a, b) && a in tracked && b in tracked
    requires FairListing(cfg, s, ss, tracked, now, a, b)
    requires CacheMirrors(s, a, b) && MetricsMirror(s, a, b)
    ensures var t := From(cfg, s, CollectEvents(Listing(ss, tracked, now)));
      CacheMirrors(t, a, b) && MetricsMirror(t, a, b)
  {
    var rs := Listing(ss, tracked, now);
    var t, u := From(cfg, s, CollectEvents(rs)), AbsorbAll(cfg, s, rs);
    ListingKeepsMirrors(cfg, s, ss, tracked, now, a, b);
    CollectIsAbsorbAll(cfg, s, rs);
    assert t.cache == u.cache && forall g :: Find(t, g) == Find(u, g);
  }

  // ---------- scrapes and cleanups ----------

  /** The instants at which a scrape resets the two groups of a protocol cap them alike:
      they are the same, or neither cap reaches the groups' lifetime. */
  predicate CapsAlikeAt(s: State, clock: GroupKey -> int, a: IPv4, b: IPv4, p: Byte) {
    var ab, ba := GroupKey(a, b, p), GroupKey(b, a, p);
    ab in s.metrics ==>
      || clock(ab) == clock(ba)
      || (s.metrics[ab].lifetime <= clock(ab) + TWO_MINUTES && s.metrics[ab].lifetime <= clock(ba) + TWO_MINUTES)
  }

  ghost predicate CapsAlike(s: State, clock: GroupKey -> int, a: IPv4, b: IPv4) {
    forall p: Byte :: CapsAlikeAt(s, clock, a, b, p)
  }

  /** A written delta scrape keeps the two directions mirrored if and only if it caps them
      alike. It reads the clock once per group, so it need not. */
  lemma ScrapeMirrorsIff(cfg: Config, s: State, clock: GroupKey -> int, a: IPv4, b: IPv4)
    requires cfg.delta && MetricsMirror(s, a, b)
    ensures MetricsMirror(Apply(cfg, s, Scrape(true, clock)), a, b) <==> CapsAlike(s, clock, a, b)
  {
    var t := Apply(cfg, s, Scrape(true, clock));
    assert ZERO.Mirrored() == ZERO;
    forall p: Byte
      ensures Find(t, GroupKey(b, a, p)) == MirrorMetric(Find(t, GroupKey(a, b, p))) <==> CapsAlikeAt(s, clock, a, b, p)
    {
      assert Find(s, GroupKey(b, a, p)) == MirrorMetric(Find(s, GroupKey(a, b, p)));
    }
  }

  /** After a scrape that does not, some cleanup drops one end and keeps the other, and
      only then. */
  lemma OneEndDroppedIff(cfg: Config, s: State, clock: GroupKey -> int, a: IPv4, b: IPv4, p: Byte)
    requires cfg.delta && MetricsMirror(s, a, b)
    ensures var t := Apply(cfg, s, Scrape(true, clock));
      (exists now :: (GroupKey(a, b, p) in Expire(t, now).metrics) != (GroupKey(b, a, p) in Expire(t, now).metrics))
      <==> !CapsAlikeAt(s, clock, a, b, p)
  {
    var t, ab, ba := Apply(cfg, s, Scrape(true, clock)), GroupKey(a, b, p), GroupKey(b, a, p);
    assert Find(s, ba) == MirrorMetric(Find(s, ab));
    if !CapsAlikeAt(s, clock, a, b, p) {
      var now := Max(t.metrics[ab].lifetime, t.metrics[ba].lifetime);
      assert (ab in Expire(t, now).metrics) != (ba in Expire(t, now).metrics);
    }
  }

  lemma ExpireKeepsMirrors(s: State, now: int, a: IPv4, b: IPv4)
    requires CacheMirrors(s, a, b) && MetricsMirror(s, a, b)
    ensures CacheMirrors(Expire(s, now), a, b) && MetricsMirror(Expire(s, now), a, b)
  {
    var t := Expire(s, now);
    forall k: ConnKey | k.src.ip == a && k.dst.ip == b && k.src != k.dst
      ensures Lookup(t.cache, k.Mirrored()) == MirrorSeen(Lookup(t.cache, k))
    {
      assert Lookup(s.cache, k.Mirrored()) == MirrorSeen(Lookup(s.cache, k));
    }
    forall p: Byte
      ensures Find(t, GroupKey(b, a, p)) == MirrorMetric(Find(t, GroupKey(a, b, p)))
    {
      assert Find(s, GroupKey(b, a, p)) == MirrorMetric(Find(s, GroupKey(a, b, p)));
    }
  }

  // ---------- histories ----------

  /** What keeps the two addresses mirrored through a happening in state `s`: at a
      successful collect both are tracked and every session is fair; a written delta scrape caps alike. */
  ghost predicate Balanced(
    cfg: Config, s: State, known: map<string, Pod>, excluded: set<string>, h: Happening, a: IPv4, b: IPv4)
  {
    match h
    case Collected(dump, now) =>
      var tracked := TrackedIPs(known, excluded);
      dump.Some? ==> a in tracked && b in tracked && FairListing(cfg, s, dump.value, tracked, now, a, b)
    case Scraped(marshalled, written, clock) => cfg.delta && marshalled && written ==> CapsAlike(s, clock, a, b)
    case _ => true
  }

  lemma HappeningKeepsMirrors(
    cfg: Config, s: State, known: map<string, Pod>, excluded: set<string>, h: Happening, a: IPv4, b: IPv4)
    requires Ungrouped(cfg, a, b) && Balanced(cfg, s, known, excluded, h, a, b)
    requires CacheMirrors(s, a, b) && MetricsMirror(s, a, b)
    ensures var t := From(cfg, s, Effect(known, excluded, h));
      CacheMirrors(t, a, b) && MetricsMirror(t, a, b)
  {
    match h
    case Collected(dump, now) =>
      if dump.Some? {
        CollectKeepsMirrors(cfg, s, dump.value, TrackedIPs(known, excluded), now, a, b);
      }
    case Cleaned(now) =>
      OneEvent(cfg, s, Cleanup(now));
      ExpireKeepsMirrors(s, now, a, b);
    case Scraped(marshalled, written, clock) =>
      OneEvent(cfg, s, Scrape(marshalled && written, clock));
      if cfg.delta && marshalled && written {
        ScrapeMirrorsIff(cfg, s, clock, a, b);
      }
    case _ =>
  }

  /** Every happening of a history is balanced in the state and with the pods it meets. */
  ghost predicate AllBalanced(cfg: Config, hist: seq<Happening>, excluded: set<string>, a: IPv4, b: IPv4) {
    |hist| == 0 ||
    (var pre := Front(hist);
     && AllBalanced(cfg, pre, excluded, a, b)
     && Balanced(cfg, Run(cfg, LedgerEvents(pre, excluded)), Known(pre), excluded, Last(hist), a, b))
  }

  lemma {:induction false} RunKeepsMirrors(cfg: Config, hist: seq<Happening>, excluded: set<string>, a: IPv4, b: IPv4)
    requires Ungrouped(cfg, a, b) && AllBalanced(cfg, hist, excluded, a, b)
    ensures var s := Run(cfg, LedgerEvents(hist, excluded));
      CacheMirrors(s, a, b) && MetricsMirror(s, a, b)
  {
    if |hist| > 0 {
      var pre, h := Front(hist), Last(hist);
      RunKeepsMirrors(cfg, pre, excluded, a, b);
      FromConcat(cfg, INIT, LedgerEvents(pre, excluded), Effect(Known(pre), excluded, h));
      HappeningKeepsMirrors(cfg, Run(cfg, LedgerEvents(pre, excluded)), Known(pre), excluded, h, a, b);
    }
  }

  /** End to end, after any balanced history of pod events, netfilter collects, cleanups
      and scrapes: two tracked pods' groups toward each other exist and expire together,
      and what one has sent the other has received, counter by counter. Snapshots may
      repeat a connection. */
  lemma BothEndsAgree(
    cfg: Config, hist: seq<Happening>, excluded: set<string>, a: IPv4, b: IPv4, p: Byte, c: Counter)
    requires Ungrouped(cfg, a, b) && AllBalanced(cfg, hist, excluded, a, b)
    ensures var s, ab, ba := Run(cfg, LedgerEvents(hist, excluded)), GroupKey(a, b, p), GroupKey(b, a, p);
      && (ab in s.metrics <==> ba in s.metrics)
      && (ab in s.metrics ==> s.metrics[ab].lifetime == s.metrics[ba].lifetime)
      && Total(s, ab).At(c) == Total(s, ba).At(c.Mirrored())
  {
    var s := Run(cfg, LedgerEvents(hist, excluded));
    RunKeepsMirrors(cfg, hist, excluded, a, b);
    assert Find(s, GroupKey(b, a, p)) == MirrorMetric(Find(s, GroupKey(a, b, p)));
    assert c.Mirrored().Mirrored() == c;
  }

  predicate Collects(h: Happening) {
    h.Collected? && h.dump.Some?
  }

  /** Both addresses are tracked at every successful collect. */
  ghost predicate TrackedThroughout(hist: seq<Happening>, excluded: set<string>, a: IPv4, b: IPv4) {
    |hist| == 0 ||
    (var known := Known(Front(hist));
     && TrackedThroughout(Front(hist), excluded, a, b)
     && (Collects(Last(hist)) ==> a in TrackedIPs(known, excluded) && b in TrackedIPs(known, excluded)))
  }

  /** Every written delta scrape caps the two directions alike. */
  ghost predicate CapsAlikeThroughout(cfg: Config, hist: seq<Happening>, excluded: set<string>, a: IPv4, b: IPv4) {
    |hist| == 0 ||
    (var pre, h := Front(hist), Last(hist);
     && CapsAlikeThroughout(cfg, pre, excluded, a, b)
     && (cfg.delta && h.Scraped? && h.marshalled && h.written ==>
           CapsAlike(Run(cfg, LedgerEvents(pre, excluded)), h.clock, a, b)))
  }

  ghost predicate MirrorsThroughout(cfg: Config, hist: seq<Happening>, excluded: set<string>, a: IPv4, b: IPv4) {
    && MetricsMirror(Run(cfg, LedgerEvents(hist, excluded)), a, b)
    && (|hist| > 0 ==> MirrorsThroughout(cfg, Front(hist), excluded, a, b))
  }

  lemma HappeningMirrorsIff(
    cfg: Config, s: State, known: map<string, Pod>, excluded: set<string>, h: Happening, a: IPv4, b: IPv4)
    requires Ungrouped(cfg, a, b) && a != b && CacheMirrors(s, a, b) && MetricsMirror(s, a, b)
    requires Collects(h) ==> a in TrackedIPs(known, excluded) && b in TrackedIPs(known, excluded)
    ensures MetricsMirror(From(cfg, s, Effect(known, excluded, h)), a, b) <==>
      (cfg.delta && h.Scraped? && h.marshalled && h.written ==> CapsAlike(s, h.clock, a, b))
    ensures CacheMirrors(From(cfg, s, Effect(known, excluded, h)), a, b)
  {
    if Collects(h) {
      TwoAddressesAreFair(cfg, s, h.dump.value, TrackedIPs(known, excluded), h.now, a, b);
    }
    if Balanced(cfg, s, known, excluded, h, a, b) {
      HappeningKeepsMirrors(cfg, s, known, excluded, h, a, b);
    } else {
      OneEvent(cfg, s, Scrape(true, h.clock));
      ScrapeMirrorsIff(cfg, s, h.clock, a, b);
    }
  }

  /** For two different tracked pods the two directions mirror each other all along a
      history if and only if its written delta scrapes cap them alike; in cumulative mode
      they always do. */
  lemma {:induction false} BothEndsAgreeIff(cfg: Config, hist: seq<Happening>, excluded: set<string>, a: IPv4, b: IPv4)
    requires Ungrouped(cfg, a, b) && a != b && TrackedThroughout(hist, excluded, a, b)
    ensures MirrorsThroughout(cfg, hist, excluded, a, b) <==> CapsAlikeThroughout(cfg, hist, excluded, a, b)
    ensures MirrorsThroughout(cfg, hist, excluded, a, b) ==> CacheMirrors(Run(cfg, LedgerEvents(hist, excluded)), a, b)
    ensures !cfg.delta ==> CapsAlikeThroughout(cfg, hist, excluded, a, b)
  {
    if |hist| > 0 {
      var pre, h := Front(hist), Last(hist);
      BothEndsAgreeIff(cfg, pre, excluded, a, b);
      if MirrorsThroughout(cfg, pre, excluded, a, b) {
        FromConcat(cfg, INIT, LedgerEvents(pre, excluded), Effect(Known(pre), excluded, h));
        HappeningMirrorsIff(cfg, Run(cfg, LedgerEvents(pre, excluded)), Known(pre), excluded, h, a, b);
      }
    }
  }

  // ---------- a self session that is not even ----------

  function SelfSession(a: IPv4, sent: UInt64, received: UInt64): Session {
    var flow := Flow(Some(a), Some(a), Some(Ports(Some(6), Some(80), Some(80))));
    Session(Some(flow), Some(flow), Some(Volume(Some(sent), Some(0))), Some(Volume(Some(received), Some(0))), None)
  }

  /** The events of a collect that finds just that session. */
  function SelfEvents(a: IPv4, sent: UInt64, received: UInt64): seq<Event> {
    CollectEvents(Listing([SelfSession(a, sent, received)], {a}, 0))
  }

  function SelfReading(a: IPv4, sent: UInt64, received: UInt64): Reading {
    Reading(ConnKey(Endpoint(a, 80), Endpoint(a, 80), 6), Traffic(sent, 0, received, 0), 0)
  }

  lemma AbsorbPair(cfg: Config, s: State, r: Reading)
    ensures AbsorbAll(cfg, s, [r, Mirror(r)]) == Absorb(cfg, Absorb(cfg, s, r), Mirror(r))
  {
    assert [r, Mirror(r)][1..] == [Mirror(r)];
    assert [Mirror(r)][1..] == [];
    assert AbsorbAll(cfg, Absorb(cfg, s, r), [Mirror(r)]) == Absorb(cfg, Absorb(cfg, s, r), Mirror(r));
  }

  /** Collecting a self session absorbs its reading and the mirror under the same key. */
  lemma SelfCollect(cfg: Config, s: State, a: IPv4, sent: UInt64, received: UInt64)
    ensures var r := SelfReading(a, sent, received);
      From(cfg, s, SelfEvents(a, sent, received)) == Absorb(cfg, Absorb(cfg, s, r), Mirror(r)).(primed := true)
  {
    var r, ss := SelfReading(a, sent, received), [SelfSession(a, sent, received)];
    assert Front(ss) == [];
    assert Listing(ss, {a}, 0) == Listing([], {a}, 0) + SessionEntries(Last(ss), {a}, 0);
    assert Listing(ss, {a}, 0) == [r, Mirror(r)];
    CollectIsAbsorbAll(cfg, s, [r, Mirror(r)]);
    AbsorbPair(cfg, s, r);
  }

  /** Two collects of a self session report as many bytes sent as received if and only if
      the second reading is even with the mirror of the first. */
  lemma SelfSessionTwiceIff(cfg: Config, a: IPv4, s1: UInt64, r1: UInt64, s2: UInt64, r2: UInt64)
    requires cfg == Config(false, false)
    ensures var t := Total(Run(cfg, SelfEvents(a, s1, r1) + SelfEvents(a, s2, r2)), GroupKey(a, a, 6));
      t.txBytes == t.rxBytes <==> Min(s2, r1) == Min(r2, s1)
  {
    var x, y := SelfReading(a, s1, r1), SelfReading(a, s2, r2);
    FromConcat(cfg, INIT, SelfEvents(a, s1, r1), SelfEvents(a, s2, r2));
    SelfCollect(cfg, INIT, a, s1, r1);
    var s := From(cfg, INIT, SelfEvents(a, s1, r1));
    SelfPairTotal(cfg, INIT, x, TxBytes);
    SelfPairEvenIff(cfg, INIT, x, TxBytes);
    SelfCollect(cfg, s, a, s2, r2);
    SelfPairEvenIff(cfg, s, y, TxBytes);
  }

  /** So a session from an endpoint to itself breaks the symmetry: first 1 byte sent and 5
      received, then 6 and 7. */
  lemma SelfSessionBreaksSymmetry(cfg: Config, a: IPv4)
    requires cfg == Config(false, false)
    ensures var t := Total(Run(cfg, SelfEvents(a, 1, 5) + SelfEvents(a, 6, 7)), GroupKey(a, a, 6));
      t.txBytes != t.rxBytes
  {
    SelfSessionTwiceIff(cfg, a, 1, 5, 6, 7);
  }
}
