/** The collector as it is written: two maps of pointers, entries whose destination is
    rewritten after they are cached, and `int64` totals updated in place. */
module Collecting {
  import opened Basics
  import opened Counters
  import opened Net
  import opened Ledger
  import opened Conntrack

  /** Both arms are computed before one is chosen. */
  function Ternary<T>(b: bool, yes: T, no: T): T {
    if b then yes else no
  }

  /** The wrapped difference is never the one chosen when it wrapped. */
  lemma ClampedDifference(a: UInt64, b: UInt64)
    ensures Ternary(a < b, 0, SubU64(a, b)) == Monus(a, b)
  {
  }

  function AddWord(w: Int64, u: UInt64): Int64 {
    Wrap64(w + Wrap64(u))
  }

  /** The counters of a pod metric, each an `int64`. */
  datatype Words = Words(txBytes: Int64, txPackets: Int64, rxBytes: Int64, rxPackets: Int64) {

    function At(c: Counter): Int64 {
      match c
      case TxBytes => txBytes
      case TxPackets => txPackets
      case RxBytes => rxBytes
      case RxPackets => rxPackets
    }
  }

  /** The words are the exact totals reduced to 64 bits. */
  ghost predicate Reports(w: Words, exact: Traffic) {
    forall c: Counter :: w.At(c) == Wrap64(exact.At(c))
  }

  /** Reported totals are exact precisely while they stay below 2^63. */
  lemma ReportsExactly(w: Words, exact: Traffic, c: Counter)
    requires Reports(w, exact)
    ensures w.At(c) == exact.At(c) <==> exact.At(c) < TWO63
  {
    assert w.At(c) == Wrap64(exact.At(c));
  }

  lemma AddWordWraps(n: nat, w: Int64, u: UInt64)
    requires w == Wrap64(n)
    ensures AddWord(w, u) == Wrap64(n + u)
  {
    WrapAddWrapped(n, u);
  }

  /** Adding word by word keeps up with adding exactly. */
  lemma ReportsSum(w: Words, v: Words, exact: Traffic, x: Counts)
    requires Reports(w, exact)
    requires v.txBytes == AddWord(w.txBytes, x.txBytes) && v.txPackets == AddWord(w.txPackets, x.txPackets)
    requires v.rxBytes == AddWord(w.rxBytes, x.rxBytes) && v.rxPackets == AddWord(w.rxPackets, x.rxPackets)
    ensures Reports(v, exact.Plus(x))
  {
    forall c: Counter ensures v.At(c) == Wrap64(exact.Plus(x).At(c)) {
      assert v.At(c) == AddWord(w.At(c), x.At(c));
      AddWordWraps(exact.At(c), w.At(c), x.At(c));
    }
  }

  /** One item of a written batch. */
  datatype Item = Item(srcIp: Int32, dstIp: Int32, proto: Byte, words: Words)

  /** The item names group `g` and reports its exact totals `t`. */
  ghost predicate Describes(it: Item, g: GroupKey, t: Traffic) {
    it.srcIp == ToInt32(g.src) && it.dstIp == ToInt32(g.dst) && it.proto == g.proto && Reports(it.words, t)
  }

  /** The items are one per group of state `s`, that of `keys[i]` at position `i`. */
  ghost predicate ShipsAs(s: State, items: seq<Item>, keys: seq<GroupKey>) {
    && |items| == |keys| == |s.metrics|
    && (forall i, j :: 0 <= i < j < |keys| ==> keys[i] != keys[j])
    && (forall g :: g in s.metrics <==> g in keys)
    && forall i :: 0 <= i < |keys| ==> Describes(items[i], keys[i], Total(s, keys[i]))
  }

  /** A pod metric: addresses in wire form, counters, and the lifetime wrapped around them. */
  class RawMetric {
    const group: GroupKey
    const srcIp: Int32 := ToInt32(group.src)
    const dstIp: Int32 := ToInt32(group.dst)
    const proto: Byte := group.proto
    var words: Words
    var lifetime: int

    /** The exact totals behind the words. */
    ghost var exact: Traffic

    ghost predicate Sound()
      reads this
    {
      Reports(words, exact)
    }

    constructor (g: GroupKey, x: Counts, lifetime: int)
      ensures Sound() && group == g && exact == x && this.lifetime == lifetime
    {
      this.group, this.exact, this.lifetime := g, x, lifetime;
      this.words := Words(Wrap64(x.txBytes), Wrap64(x.txPackets), Wrap64(x.rxBytes), Wrap64(x.rxPackets));
    }

    method Add(x: Counts, lifetime: int)
      requires Sound()
      modifies this
      ensures Sound() && exact == old(exact).Plus(x) && this.lifetime == Max(old(this.lifetime), lifetime)
    {
      words := words.(txBytes := AddWord(words.txBytes, x.txBytes));
      words := words.(txPackets := AddWord(words.txPackets, x.txPackets));
      words := words.(rxBytes := AddWord(words.rxBytes, x.rxBytes));
      words := words.(rxPackets := AddWord(words.rxPackets, x.rxPackets));
      ReportsSum(old(words), words, exact, x);
      exact := exact.Plus(x);
      if lifetime > this.lifetime {
        this.lifetime := lifetime;
      }
    }

    method Reset(now: int)
      modifies this
      ensures Sound() && exact == ZERO && lifetime == Min(old(lifetime), now + TWO_MINUTES)
    {
      words, exact := Words(0, 0, 0, 0), ZERO;
      var newLifetime := now + TWO_MINUTES;
      if lifetime > newLifetime {
        lifetime := newLifetime;
      }
    }

    function View(): Item
      reads this
    {
      Item(srcIp, dstIp, proto, words)
    }
  }

  class Collector {
    const cfg: Config
    var entriesCache: map<ConnKey, Entry>
    var podMetrics: map<GroupKey, RawMetric>
    var firstCollectDone: bool

    ghost var Repr: set<RawMetric>

    /** The cached objects hold the last counters and lifetimes. Their destinations,
        which may have been rewritten, play no part. */
    ghost predicate CacheShows(cache: map<ConnKey, Seen>)
      reads this`entriesCache
    {
      && entriesCache.Keys == cache.Keys
      && forall k :: k in entriesCache ==> Seen(entriesCache[k].counters, entriesCache[k].lifetime) == cache[k]
    }

    ghost predicate MetricsShow(ms: map<GroupKey, Metric>)
      reads this`podMetrics, this`Repr, Repr
    {
      && podMetrics.Keys == ms.Keys
      && forall g :: g in podMetrics ==>
        && podMetrics[g] in Repr && podMetrics[g].group == g
        && Metric(podMetrics[g].exact, podMetrics[g].lifetime) == ms[g]
    }

    ghost predicate AllSound()
      reads this`Repr, Repr
    {
      forall m :: m in Repr ==> m.Sound()
    }

    /** The heap stands for ledger state `s`. */
    ghost predicate Shows(s: State)
      reads this, Repr
    {
      AllSound() && CacheShows(s.cache) && MetricsShow(s.metrics) && firstCollectDone == s.primed
    }

    constructor (cfg: Config)
      ensures Shows(INIT) && this.cfg == cfg && Repr == {}
    {
      this.cfg := cfg;
      entriesCache, podMetrics, firstCollectDone := map[], map[], false;
      Repr := {};
    }

    /** Growth of a connection over its cached entry, clamped counter by counter. */
    method Delta(conn: Entry, ghost cache: map<ConnKey, Seen>) returns (x: Counts)
      requires CacheShows(cache)
      ensures x == Growth(Lookup(cache, conn.Key()), conn.counters)
    {
      var tx, txp := conn.counters.txBytes, conn.counters.txPackets;
      var rx, rxp := conn.counters.rxBytes, conn.counters.rxPackets;
      if conn.Key() in entriesCache {
        var cached := entriesCache[conn.Key()].counters;
        ClampedDifference(tx, cached.txBytes);
        ClampedDifference(rx, cached.rxBytes);
        ClampedDifference(txp, cached.txPackets);
        ClampedDifference(rxp, cached.rxPackets);
        tx := Ternary(tx < cached.txBytes, 0, SubU64(tx, cached.txBytes));
        rx := Ternary(rx < cached.rxBytes, 0, SubU64(rx, cached.rxBytes));
        txp := Ternary(txp < cached.txPackets, 0, SubU64(txp, cached.txPackets));
        rxp := Ternary(rxp < cached.rxPackets, 0, SubU64(rxp, cached.rxPackets));
      }
      x := Traffic(tx, txp, rx, rxp);
    }

    /** Adds traffic to the metric of a group, creating it when absent. */
    method Credit(g: GroupKey, x: Counts, lifetime: int, ghost ms: map<GroupKey, Metric>)
      requires AllSound() && MetricsShow(ms)
      modifies this`podMetrics, this`Repr, Repr
      ensures fresh(Repr - old(Repr))
      ensures AllSound() && MetricsShow(ms[g := Feed(ms, g, x, lifetime)])
    {
      ghost var fed := Feed(ms, g, x, lifetime);
      if g in podMetrics {
        var m := podMetrics[g];
        m.Add(x, lifetime);
        assert Metric(m.exact, m.lifetime) == fed;
        assert forall h :: h in podMetrics && h != g ==> podMetrics[h] != m;
      } else {
        var m := new RawMetric(g, x, lifetime);
        assert Metric(m.exact, m.lifetime) == fed;
        podMetrics, Repr := podMetrics[g := m], Repr + {m};
      }
    }

    /** Caches an entry under the key its destination gives it now. */
    method Remember(conn: Entry, ghost cache: map<ConnKey, Seen>)
      requires CacheShows(cache)
      modifies this`entriesCache
      ensures CacheShows(cache[conn.Key() := Seen(conn.counters, conn.lifetime)])
    {
      entriesCache := entriesCache[conn.Key() := conn];
    }

    /** One iteration of the collect loop. */
    method Observe(conn: Entry, ghost s: State)
      requires Shows(s)
      modifies this`entriesCache, this`podMetrics, this`Repr, conn`dst, Repr
      ensures Shows(Absorb(cfg, s, old(conn.View())))
      ensures conn.dst == if cfg.groupPublic && !Silent(cfg, s) && !IsPrivateNetwork(old(conn.dst).ip)
                          then Endpoint(ANY, 0) else old(conn.dst)
      ensures fresh(Repr - old(Repr))
    {
      ghost var t := Absorb(cfg, s, conn.View());
      var x := Delta(conn, s.cache);
      assert t == Book(cfg, s, conn.View(), x);
      Remember(conn, s.cache);
      assert CacheShows(t.cache) && MetricsShow(s.metrics) && firstCollectDone == t.primed;
      if cfg.delta && !firstCollectDone {
        return;
      }
      if cfg.groupPublic && !IsPrivateNetwork(conn.dst.ip) {
        conn.dst := Endpoint(ANY, 0);
      }
      var groupKey := GroupKey(conn.src.ip, conn.dst.ip, conn.proto);
      assert t.metrics == s.metrics[groupKey := Feed(s.metrics, groupKey, x, conn.lifetime)];
      Credit(groupKey, x, conn.lifetime, s.metrics);
      assert MetricsShow(t.metrics);
    }

    /** A successful collect over a snapshot of separately allocated entries. */
    method Collect(conns: seq<Entry>, ghost s: State)
      requires Shows(s) && Distinct(conns)
      modifies this, (set e | e in conns)`dst, Repr
      ensures Shows(From(cfg, s, CollectEvents(old(Views(conns)))))
      ensures fresh(Repr - old(Repr))
    {
      ghost var rs, t := Views(conns), s;
      for i := 0 to |conns|
        invariant Shows(t) && t == From(cfg, s, Observes(rs[..i]))
        invariant fresh(Repr - old(Repr))
        invariant forall j :: i <= j < |conns| ==> conns[j].View() == rs[j]
      {
        Observe(conns[i], t);
        ObservesSnoc(cfg, s, rs, i);
        t := Absorb(cfg, t, rs[i]);
      }
      if !firstCollectDone {
        firstCollectDone := true;
      }
      assert rs[..|conns|] == rs;
      FromOne(cfg, s, Observes(rs), Done);
    }

    /** Drops expired entries, in whatever order the map is ranged over. */
    method ExpireEntries(now: int, ghost cache: map<ConnKey, Seen>)
      requires CacheShows(cache)
      modifies this`entriesCache
      ensures CacheShows(map k | k in cache && now <= cache[k].lifetime :: cache[k])
    {
      var todo := entriesCache.Keys;
      ghost var kept := cache;
      while todo != {}
        invariant todo <= entriesCache.Keys && CacheShows(kept)
        invariant forall k :: k in kept <==> k in cache && (k in todo || now <= cache[k].lifetime)
        invariant forall k :: k in kept ==> kept[k] == cache[k]
      {
        var key :| key in todo;
        todo := todo - {key};
        if now > entriesCache[key].lifetime {
          entriesCache, kept := entriesCache - {key}, kept - {key};
        }
      }
      assert kept == map k | k in cache && now <= cache[k].lifetime :: cache[k];
    }

    method DropMetric(key: GroupKey, ghost ms: map<GroupKey, Metric>)
      requires MetricsShow(ms)
      modifies this`podMetrics
      ensures podMetrics == old(podMetrics) - {key} && MetricsShow(ms - {key})
    {
      podMetrics := podMetrics - {key};
    }

    /** Drops expired metrics, in whatever order the map is ranged over. */
    method ExpireMetrics(now: int, ghost ms: map<GroupKey, Metric>)
      requires MetricsShow(ms)
      modifies this`podMetrics
      ensures MetricsShow(map g | g in ms && now <= ms[g].lifetime :: ms[g])
    {
      var todo := podMetrics.Keys;
      ghost var kept := ms;
      while todo != {}
        invariant todo <= podMetrics.Keys && MetricsShow(kept)
        invariant forall g :: g in kept <==> g in ms && (g in todo || now <= ms[g].lifetime)
        invariant forall g :: g in kept ==> kept[g] == ms[g]
      {
        var key :| key in todo;
        todo := todo - {key};
        if now > podMetrics[key].lifetime {
          DropMetric(key, kept);
          kept := kept - {key};
        }
      }
      assert kept == map g | g in ms && now <= ms[g].lifetime :: ms[g];
    }

    method Cleanup(now: int, ghost s: State)
      requires Shows(s)
      modifies this`entriesCache, this`podMetrics
      ensures Shows(Expire(s, now))
    {
      ExpireEntries(now, s.cache);
      ExpireMetrics(now, s.metrics);
    }

    /** Zeroes every metric, reading the clock once for each. */
    method ResetAll(clock: GroupKey -> int, ghost ms: map<GroupKey, Metric>)
      requires AllSound() && MetricsShow(ms)
      modifies Repr
      ensures AllSound() && MetricsShow(map g | g in ms :: Flushed(ms[g], clock(g)))
    {
      var todo := podMetrics.Keys;
      ghost var now := ms;
      while todo != {}
        invariant todo <= podMetrics.Keys && AllSound() && MetricsShow(now)
        invariant forall g :: g in ms ==> now[g] == if g in todo then ms[g] else Flushed(ms[g], clock(g))
      {
        var g :| g in todo;
        todo := todo - {g};
        var m := podMetrics[g];
        m.Reset(clock(g));
        now := now[g := Flushed(ms[g], clock(g))];
        assert Metric(m.exact, m.lifetime) == now[g];
        assert forall h :: h in podMetrics && h != g ==> podMetrics[h] != m;
      }
      assert now == map g | g in ms :: Flushed(ms[g], clock(g));
    }

    /** The live metric objects, in some order. */
    method LiveItems() returns (items: seq<RawMetric>, ghost keys: seq<GroupKey>)
      ensures |items| == |keys| == |podMetrics|
      ensures forall i, j :: 0 <= i < j < |keys| ==> keys[i] != keys[j]
      ensures forall i :: 0 <= i < |keys| ==> keys[i] in podMetrics && items[i] == podMetrics[keys[i]]
      ensures forall g :: g in podMetrics ==> g in keys
    {
      items, keys := [], [];
      var todo := podMetrics.Keys;
      while todo != {}
        invariant todo <= podMetrics.Keys && |items| == |keys| == |podMetrics| - |todo|
        invariant forall i :: 0 <= i < |keys| ==> keys[i] in podMetrics && items[i] == podMetrics[keys[i]]
        invariant forall i, j :: 0 <= i < j < |keys| ==> keys[i] != keys[j]
        invariant forall g :: g in podMetrics ==> (g in todo <==> g !in keys)
      {
        var g :| g in todo;
        todo, items, keys := todo - {g}, items + [podMetrics[g]], keys + [g];
      }
    }

    /** The contents of the live objects as they are now. */
    method Marshal(ghost s: State) returns (bytes: seq<Item>, ghost keys: seq<GroupKey>)
      requires Shows(s)
      ensures ShipsAs(s, bytes, keys)
    {
      var items;
      items, keys := LiveItems();
      bytes := seq(|items|, i requires 0 <= i < |items| reads items => items[i].View());
      assert forall i :: 0 <= i < |keys| ==> Describes(bytes[i], keys[i], Total(s, keys[i]));
    }

    /** Serves a scrape. The batch holds the live objects; what is written is their
        contents at marshalling time, before any reset. A failed marshal or write
        leaves every object as it was. */
    method Scrape(marshalled: bool, written: bool, clock: GroupKey -> int, ghost s: State)
      returns (sent: Option<seq<Item>>, ghost keys: seq<GroupKey>)
      requires Shows(s)
      modifies Repr
      ensures Shows(Apply(cfg, s, Event.Scrape(marshalled && written, clock)))
      ensures sent.Some? <==> marshalled && written
      ensures sent.Some? ==> ShipsAs(s, sent.value, keys)
      ensures sent.None? ==> forall m :: m in Repr ==> unchanged(m)
    {
      var bytes;
      bytes, keys := Marshal(s);
      ghost var t := Apply(cfg, s, Event.Scrape(marshalled && written, clock));
      if !marshalled || !written {
        assert t == s;
        return None, keys;
      }
      sent := Some(bytes);
      if cfg.delta {
        ResetAll(clock, s.metrics);
        assert MetricsShow(t.metrics) && CacheShows(t.cache);
      } else {
        assert t == s;
      }
    }
  }

  lemma ObservesSnoc(cfg: Config, s: State, rs: seq<Reading>, i: nat)
    requires i < |rs|
    ensures From(cfg, s, Observes(rs[..i + 1])) == Absorb(cfg, From(cfg, s, Observes(rs[..i])), rs[i])
  {
    assert Observes(rs[..i + 1]) == Observes(rs[..i]) + [Event.Observe(rs[i])];
    FromOne(cfg, s, Observes(rs[..i]), Event.Observe(rs[i]));
  }
}
