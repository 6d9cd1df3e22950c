/** What the batches a collector wrote add up to, group by group. */
module Deliveries {
  import opened Basics
  import opened Counters
  import opened Net
  import opened Ledger
  import opened LedgerConservation
  import opened Collecting

  /** The item is about group `g`. */
  predicate IsFor(it: Item, g: GroupKey) {
    it.srcIp == ToInt32(g.src) && it.dstIp == ToInt32(g.dst) && it.proto == g.proto
  }

  /** What a list of items reports for a group. */
  function ReportedFor(items: seq<Item>, g: GroupKey, c: Counter): int {
    if |items| == 0 then 0
    else ReportedFor(Front(items), g, c) + if IsFor(Last(items), g) then Last(items).words.At(c) else 0
  }

  function Reported(batches: seq<seq<Item>>, g: GroupKey, c: Counter): int {
    if |batches| == 0 then 0 else Reported(Front(batches), g, c) + ReportedFor(Last(batches), g, c)
  }

  // ---------- one batch ----------

  /** The items are a batch written in state `s`: one item per group. */
  ghost predicate Ships(s: State, items: seq<Item>) {
    exists keys :: ShipsAs(s, items, keys)
  }

  lemma ItemReports(it: Item, h: GroupKey, t: Traffic, g: GroupKey, c: Counter)
    requires Describes(it, h, t)
    ensures (if IsFor(it, g) then it.words.At(c) else 0) == if h == g then Wrap64(t.At(c)) else 0
  {
    SameWireForm(h.src, g.src);
    SameWireForm(h.dst, g.dst);
  }

  lemma ItemAtReports(s: State, items: seq<Item>, keys: seq<GroupKey>, i: nat, g: GroupKey, c: Counter)
    requires ShipsAs(s, items, keys) && i < |items|
    ensures (if IsFor(items[i], g) then items[i].words.At(c) else 0) ==
      if keys[i] == g then Wrap64(Total(s, g).At(c)) else 0
  {
    ItemReports(items[i], keys[i], Total(s, keys[i]), g, c);
  }

  lemma KeyOnce(keys: seq<GroupKey>, k: nat, g: GroupKey)
    requires k < |keys| && forall i, j :: 0 <= i < j < |keys| ==> keys[i] != keys[j]
    ensures g in keys[..k + 1] <==> g in keys[..k] || keys[k] == g
    ensures keys[k] == g ==> g !in keys[..k]
  {
    assert keys[..k + 1] == keys[..k] + [keys[k]];
  }

  lemma {:induction false} PrefixReports(
    s: State, items: seq<Item>, keys: seq<GroupKey>, k: nat, g: GroupKey, c: Counter)
    requires ShipsAs(s, items, keys) && k <= |items|
    ensures ReportedFor(items[..k], g, c) == if g in keys[..k] then Wrap64(Total(s, g).At(c)) else 0
  {
    if k > 0 {
      PrefixReports(s, items, keys, k - 1, g, c);
      assert Front(items[..k]) == items[..k - 1];
      KeyOnce(keys, k - 1, g);
      ItemAtReports(s, items, keys, k - 1, g, c);
    }
  }

  lemma AllReports(s: State, items: seq<Item>, keys: seq<GroupKey>, g: GroupKey, c: Counter)
    requires ShipsAs(s, items, keys)
    ensures ReportedFor(items, g, c) == Wrap64(Total(s, g).At(c))
  {
    assert items[..|items|] == items && keys[..|items|] == keys;
    PrefixReports(s, items, keys, |items|, g, c);
    if g !in keys {
      assert Total(s, g).At(c) == 0;
    }
  }

  /** A written batch reports, for every group, its pending total in one word. */
  lemma BatchReports(s: State, items: seq<Item>, g: GroupKey, c: Counter)
    requires Ships(s, items)
    ensures ReportedFor(items, g, c) == Wrap64(Total(s, g).At(c))
  {
    var keys :| ShipsAs(s, items, keys);
    AllReports(s, items, keys, g, c);
  }

  // ---------- all batches of a run ----------

  predicate WrittenScrape(ev: Event) {
    ev.Scrape? && ev.written
  }

  /** The batches are those a run wrote, in order. */
  ghost predicate Wrote(cfg: Config, evs: seq<Event>, batches: seq<seq<Item>>) {
    if |evs| == 0 then batches == []
    else if WrittenScrape(Last(evs)) then
      && |batches| > 0 && Ships(Run(cfg, Front(evs)), Last(batches))
      && Wrote(cfg, Front(evs), Front(batches))
    else Wrote(cfg, Front(evs), batches)
  }

  lemma WroteOne(cfg: Config, evs: seq<Event>, batches: seq<seq<Item>>, ev: Event, items: seq<Item>)
    requires Wrote(cfg, evs, batches) && WrittenScrape(ev) && Ships(Run(cfg, evs), items)
    ensures Wrote(cfg, evs + [ev], batches + [items])
  {
    assert Front(evs + [ev]) == evs && Front(batches + [items]) == batches;
  }

  lemma {:induction false} WroteNothing(cfg: Config, evs: seq<Event>, batches: seq<seq<Item>>, more: seq<Event>)
    requires Wrote(cfg, evs, batches) && forall i :: 0 <= i < |more| ==> !WrittenScrape(more[i])
    ensures Wrote(cfg, evs + more, batches)
    decreases |more|
  {
    if |more| == 0 {
      assert evs + more == evs;
    } else {
      assert Front(evs + more) == evs + Front(more) && Last(evs + more) == more[|more| - 1];
      WroteNothing(cfg, evs, batches, Front(more));
    }
  }

  lemma ReportedSnoc(s: State, batches: seq<seq<Item>>, g: GroupKey, c: Counter)
    requires |batches| > 0 && Ships(s, Last(batches))
    ensures Reported(batches, g, c) == Reported(Front(batches), g, c) + Wrap64(Total(s, g).At(c))
  {
    BatchReports(s, Last(batches), g, c);
  }

  /** The words reported for a group add up, modulo 2^64, to what was shipped. */
  lemma {:induction false} ReportedIsShipped(
    cfg: Config, evs: seq<Event>, batches: seq<seq<Item>>, g: GroupKey, c: Counter)
    returns (k: int)
    requires Wrote(cfg, evs, batches)
    ensures Shipped(cfg, evs, g, c) == Reported(batches, g, c) + TWO64 * k
  {
    if |evs| == 0 {
      k := 0;
    } else if WrittenScrape(Last(evs)) {
      var before := ReportedIsShipped(cfg, Front(evs), Front(batches), g, c);
      var more := WrapOffset(Pending(cfg, Front(evs), g, c));
      ReportedSnoc(Run(cfg, Front(evs)), batches, g, c);
      k := before + more;
    } else {
      k := ReportedIsShipped(cfg, Front(evs), batches, g, c);
    }
  }

  /** And exactly, while what the group was ever credited stays below 2^63. */
  lemma {:induction false} ReportedExactly(
    cfg: Config, evs: seq<Event>, batches: seq<seq<Item>>, g: GroupKey, c: Counter)
    requires Wrote(cfg, evs, batches) && GroupCredited(cfg, evs, g, c) < TWO63
    ensures Reported(batches, g, c) == Shipped(cfg, evs, g, c)
  {
    if |evs| > 0 {
      var pre := Front(evs);
      if WrittenScrape(Last(evs)) {
        ReportedExactly(cfg, pre, Front(batches), g, c);
        ReportedSnoc(Run(cfg, pre), batches, g, c);
        LedgerBalances(cfg, pre, g, c);
      } else {
        ReportedExactly(cfg, pre, batches, g, c);
      }
    }
  }

  /** In delta mode the written batches are the ledger's deliveries: with what is pending
      and what cleanups discarded they make up all that was ever credited. */
  lemma BatchesAccountForTraffic(cfg: Config, evs: seq<Event>, batches: seq<seq<Item>>, g: GroupKey, c: Counter)
    requires cfg.delta && Wrote(cfg, evs, batches) && GroupCredited(cfg, evs, g, c) < TWO63
    ensures GroupCredited(cfg, evs, g, c) ==
      Reported(batches, g, c) + Pending(cfg, evs, g, c) + Discarded(cfg, evs, g, c)
  {
    ReportedExactly(cfg, evs, batches, g, c);
    LedgerBalances(cfg, evs, g, c);
  }
}
