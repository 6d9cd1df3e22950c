/** Where every credited byte goes, and where it came from, over all runs. */
module LedgerConservation {
  import opened Basics
  import opened Counters
  import opened Net
  import opened Ledger

  // ---------- one connection, followed through a history ----------

  /** What a history leaves remembered of connection `k`: its latest reading, unless a
      later cleanup found that reading expired. Mentions neither totals nor mode. */
  ghost function Remembered(evs: seq<Event>, k: ConnKey): Option<Seen> {
    if |evs| == 0 then None else
      var before := Remembered(Front(evs), k);
      match Last(evs)
      case Observe(r) => if r.key == k then Some(Seen(r.counters, r.lifetime)) else before
      case Cleanup(now) => if before.Some? && now > before.value.lifetime then None else before
      case _ => before
  }

  /** Some collect has finished. */
  ghost predicate Primed(evs: seq<Event>) {
    |evs| > 0 && (Last(evs).Done? || Primed(Front(evs)))
  }

  ghost predicate Counting(cfg: Config, evs: seq<Event>) {
    !cfg.delta || Primed(evs)
  }

  /** The cache is the product of the per-connection memories, in either mode and with
      or without grouping. */
  lemma {:induction false} CacheIsMemory(cfg: Config, evs: seq<Event>, k: ConnKey)
    ensures Lookup(Run(cfg, evs).cache, k) == Remembered(evs, k)
    ensures Run(cfg, evs).primed <==> Primed(evs)
  {
    if |evs| > 0 {
      CacheIsMemory(cfg, Front(evs), k);
    }
  }

  ghost function Held(evs: seq<Event>, k: ConnKey, c: Counter): nat {
    var m := Remembered(evs, k);
    if m.Some? then m.value.counters.At(c) else 0
  }

  /** What the event after history `pre` credits on behalf of connection `k`. */
  ghost function Credit(cfg: Config, pre: seq<Event>, ev: Event, k: ConnKey, c: Counter): nat {
    if ev.Observe? && ev.r.key == k && Counting(cfg, pre)
    then Growth(Remembered(pre, k), ev.r.counters).At(c)
    else 0
  }

  /** How far a counter of `k` goes down at that event. */
  ghost function Drop(cfg: Config, pre: seq<Event>, ev: Event, k: ConnKey, c: Counter): nat {
    if ev.Observe? && ev.r.key == k && Counting(cfg, pre)
    then Monus(Held(pre, k, c), ev.r.counters.At(c))
    else 0
  }

  /** What that event forgets of `k`; if the connection comes back it is credited from zero. */
  ghost function Eviction(cfg: Config, pre: seq<Event>, ev: Event, k: ConnKey, c: Counter): nat {
    if ev.Cleanup? && Counting(cfg, pre) && Remembered(pre + [ev], k).None?
    then Held(pre, k, c)
    else 0
  }

  ghost function Credited(cfg: Config, evs: seq<Event>, k: ConnKey, c: Counter): nat {
    if |evs| == 0 then 0
    else Credited(cfg, Front(evs), k, c) + Credit(cfg, Front(evs), Last(evs), k, c)
  }

  ghost function Drops(cfg: Config, evs: seq<Event>, k: ConnKey, c: Counter): nat {
    if |evs| == 0 then 0
    else Drops(cfg, Front(evs), k, c) + Drop(cfg, Front(evs), Last(evs), k, c)
  }

  ghost function Evicted(cfg: Config, evs: seq<Event>, k: ConnKey, c: Counter): nat {
    if |evs| == 0 then 0
    else Evicted(cfg, Front(evs), k, c) + Eviction(cfg, Front(evs), Last(evs), k, c)
  }

  /** The reading counting starts from: nothing in cumulative mode, the reading
      remembered when the first collect ended in delta mode. */
  ghost function Baseline(cfg: Config, evs: seq<Event>, k: ConnKey, c: Counter): nat {
    if !cfg.delta then 0
    else if !Primed(evs) then Held(evs, k, c)
    else Baseline(cfg, Front(evs), k, c)
  }

  lemma RememberedSnoc(pre: seq<Event>, ev: Event, k: ConnKey)
    ensures Remembered(pre + [ev], k) ==
      if ev.Observe? && ev.r.key == k then Some(Seen(ev.r.counters, ev.r.lifetime))
      else if ev.Cleanup? && Remembered(pre, k).Some? && ev.now > Remembered(pre, k).value.lifetime then None
      else Remembered(pre, k)
  {
    assert Front(pre + [ev]) == pre;
  }

  /** The books of one connection balance at every single event. */
  lemma StepBalance(cfg: Config, pre: seq<Event>, ev: Event, k: ConnKey, c: Counter)
    requires Counting(cfg, pre)
    ensures Credit(cfg, pre, ev, k, c) + Held(pre, k, c)
         == Held(pre + [ev], k, c) + Drop(cfg, pre, ev, k, c) + Eviction(cfg, pre, ev, k, c)
  {
    RememberedSnoc(pre, ev, k);
  }

  /** Telescoping, for every run: the clamped increments of a connection add up to last
      reading minus baseline, plus every counter drop, plus everything evicted. */
  lemma {:induction false} Telescoping(cfg: Config, evs: seq<Event>, k: ConnKey, c: Counter)
    ensures Credited(cfg, evs, k, c) + Baseline(cfg, evs, k, c)
         == Held(evs, k, c) + Drops(cfg, evs, k, c) + Evicted(cfg, evs, k, c)
    ensures !Counting(cfg, evs) ==>
      Credited(cfg, evs, k, c) == Drops(cfg, evs, k, c) == Evicted(cfg, evs, k, c) == 0
  {
    if |evs| > 0 {
      var pre, ev := Front(evs), Last(evs);
      Telescoping(cfg, pre, k, c);
      assert evs == pre + [ev];
      RememberedSnoc(pre, ev, k);
      if Counting(cfg, pre) {
        StepBalance(cfg, pre, ev, k, c);
      }
    }
  }

  /** Connection `k` is never evicted and its counter `c` never goes down. */
  ghost predicate Steady(evs: seq<Event>, k: ConnKey, c: Counter) {
    |evs| == 0 ||
    (var pre, ev := Front(evs), Last(evs);
     && Steady(pre, k, c)
     && (ev.Observe? && ev.r.key == k ==> Held(pre, k, c) <= ev.r.counters.At(c))
     && (ev.Cleanup? && Remembered(pre, k).Some? ==> ev.now <= Remembered(pre, k).value.lifetime))
  }

  /** A steady connection is credited exactly its last reading minus its baseline. */
  lemma {:induction false} SteadyConnection(cfg: Config, evs: seq<Event>, k: ConnKey, c: Counter)
    requires Steady(evs, k, c)
    ensures Drops(cfg, evs, k, c) == Evicted(cfg, evs, k, c) == 0
    ensures Credited(cfg, evs, k, c) + Baseline(cfg, evs, k, c) == Held(evs, k, c)
  {
    if |evs| > 0 {
      SteadyConnection(cfg, Front(evs), k, c);
      assert evs == Front(evs) + [Last(evs)];
      RememberedSnoc(Front(evs), Last(evs), k);
    }
    Telescoping(cfg, evs, k, c);
  }

  // ---------- groups ----------

  /** What the event after `pre` credits to group `g`. */
  ghost function GroupCredit(cfg: Config, pre: seq<Event>, ev: Event, g: GroupKey, c: Counter): nat {
    if ev.Observe? && Group(cfg, ev.r.key) == g then Credit(cfg, pre, ev, ev.r.key, c) else 0
  }

  ghost function GroupCredited(cfg: Config, evs: seq<Event>, g: GroupKey, c: Counter): nat {
    if |evs| == 0 then 0
    else GroupCredited(cfg, Front(evs), g, c) + GroupCredit(cfg, Front(evs), Last(evs), g, c)
  }

  /** Traffic waiting in the group's metric. */
  ghost function Pending(cfg: Config, evs: seq<Event>, g: GroupKey, c: Counter): nat {
    Total(Run(cfg, evs), g).At(c)
  }

  /** What all successfully written batches reported for the group. */
  ghost function Shipped(cfg: Config, evs: seq<Event>, g: GroupKey, c: Counter): nat {
    if |evs| == 0 then 0
    else
      var ev := Last(evs);
      Shipped(cfg, Front(evs), g, c) +
      if ev.Scrape? && ev.written then Pending(cfg, Front(evs), g, c) else 0
  }

  /** What cleanups threw away with the group's metric. */
  ghost function Discarded(cfg: Config, evs: seq<Event>, g: GroupKey, c: Counter): nat {
    if |evs| == 0 then 0
    else
      Discarded(cfg, Front(evs), g, c) +
      if Last(evs).Cleanup? && g !in Run(cfg, evs).metrics then Pending(cfg, Front(evs), g, c) else 0
  }

  /** What a run has taken off the books as delivered: in cumulative mode a batch only
      repeats the running total and takes nothing off. */
  ghost function Delivered(cfg: Config, evs: seq<Event>, g: GroupKey, c: Counter): nat {
    if cfg.delta then Shipped(cfg, evs, g, c) else 0
  }

  /** One reading moves its credit, and nothing else, into its group's total. */
  lemma ObservePending(cfg: Config, pre: seq<Event>, r: Reading, g: GroupKey, c: Counter)
    ensures Total(Absorb(cfg, Run(cfg, pre), r), g).At(c)
         == Pending(cfg, pre, g, c) + GroupCredit(cfg, pre, Observe(r), g, c)
  {
    CacheIsMemory(cfg, pre, r.key);
  }

  /** Ledger: under every interleaving of collects, cleanups and scrapes, failed ones
      included, credited traffic is delivered, pending or discarded, group by group. */
  lemma {:induction false} LedgerBalances(cfg: Config, evs: seq<Event>, g: GroupKey, c: Counter)
    ensures GroupCredited(cfg, evs, g, c)
         == Delivered(cfg, evs, g, c) + Pending(cfg, evs, g, c) + Discarded(cfg, evs, g, c)
  {
    if |evs| > 0 {
      LedgerBalances(cfg, Front(evs), g, c);
      if Last(evs).Observe? {
        ObservePending(cfg, Front(evs), Last(evs).r, g, c);
      }
    }
  }

  /** Connections a history has observed. */
  ghost function Observed(evs: seq<Event>): set<ConnKey> {
    if |evs| == 0 then {}
    else Observed(Front(evs)) + if Last(evs).Observe? then {Last(evs).r.key} else {}
  }

  ghost function Members(cfg: Config, evs: seq<Event>, g: GroupKey): set<ConnKey> {
    set k | k in Observed(evs) && Group(cfg, k) == g
  }

  lemma {:induction false} UnobservedIsUncredited(cfg: Config, evs: seq<Event>, k: ConnKey, c: Counter)
    requires k !in Observed(evs)
    ensures Credited(cfg, evs, k, c) == 0
  {
    if |evs| > 0 {
      UnobservedIsUncredited(cfg, Front(evs), k, c);
    }
  }

  /** A group is credited exactly what its connections are. */
  lemma {:induction false} GroupIsSumOfConnections(cfg: Config, evs: seq<Event>, g: GroupKey, c: Counter)
    ensures GroupCredited(cfg, evs, g, c) == Sum(Members(cfg, evs, g), k => Credited(cfg, evs, k, c))
  {
    if |evs| > 0 {
      var pre, ev := Front(evs), Last(evs);
      var was, now := Members(cfg, pre, g), Members(cfg, evs, g);
      var f, h := k => Credited(cfg, pre, k, c), k => Credited(cfg, evs, k, c);
      GroupIsSumOfConnections(cfg, pre, g, c);
      if ev.Observe? && Group(cfg, ev.r.key) == g {
        assert now == was + {ev.r.key};
        if ev.r.key !in was {
          UnobservedIsUncredited(cfg, pre, ev.r.key, c);
        }
        SumBump(was, f, h, ev.r.key, Credit(cfg, pre, ev, ev.r.key, c));
      } else {
        assert now == was;
        SumSame(was, f, h);
      }
    }
  }

  /** End to end: what a group has delivered, still holds or lost is the sum over its
      connections of last reading minus baseline, plus drops and evictions. */
  lemma TrafficAccountedFor(cfg: Config, evs: seq<Event>, g: GroupKey, c: Counter)
    ensures var ks := Members(cfg, evs, g);
      Delivered(cfg, evs, g, c) + Pending(cfg, evs, g, c) + Discarded(cfg, evs, g, c)
        + Sum(ks, k => Baseline(cfg, evs, k, c))
      == Sum(ks, k => Held(evs, k, c)) + Sum(ks, k => Drops(cfg, evs, k, c)) + Sum(ks, k => Evicted(cfg, evs, k, c))
  {
    var ks := Members(cfg, evs, g);
    var credited, base := k => Credited(cfg, evs, k, c), k => Baseline(cfg, evs, k, c);
    var held, drops, evicted := k => Held(evs, k, c), k => Drops(cfg, evs, k, c), k => Evicted(cfg, evs, k, c);
    var both, left := k => credited(k) + base(k), k => held(k) + drops(k);
    LedgerBalances(cfg, evs, g, c);
    GroupIsSumOfConnections(cfg, evs, g, c);
    SumPlus(ks, credited, base, both);
    SumPlus(ks, held, drops, left);
    forall k | k in ks ensures both(k) == left(k) + evicted(k) {
      Telescoping(cfg, evs, k, c);
    }
    SumPlus(ks, left, evicted, both);
  }
}
