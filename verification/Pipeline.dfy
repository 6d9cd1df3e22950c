/** From collector pods to exported metrics: the fan-in of batches followed by their
    enrichment. */
module Pipeline {
  import opened Basics
  import opened Counters
  import opened Net
  import opened Collecting
  import opened Ledger
  import opened Deliveries
  import opened Dns
  import opened Export
  import FanIn

  /** The batches in the order the consumer received them, given what each pod's fetch brings. */
  function Drained(fetched: nat -> Batch, received: seq<nat>): seq<Batch>
  {
    seq(|received|, k requires 0 <= k < |received| => fetched(received[k]))
  }

  /** The pods whose fetch brings a non-empty batch, in listing order. */
  function Delivering(outcomes: seq<FanIn.Outcome>): seq<nat> {
    if |outcomes| == 0 then []
    else Delivering(Front(outcomes)) + if Last(outcomes) == FanIn.Batch then [|outcomes| - 1] else []
  }

  /** The items of some pods' batches, regardless of order. */
  function Gathered(fetched: nat -> Batch, pods: seq<nat>): multiset<Item>
  {
    if |pods| == 0 then multiset{}
    else Gathered(fetched, Front(pods)) + multiset(fetched(Last(pods)).items)
  }

  function Items(tried: seq<(Item, nat)>): (items: seq<Item>)
    ensures |items| == |tried|
  {
    seq(|tried|, i requires 0 <= i < |tried| => tried[i].0)
  }

  /** The items tried for one batch, in order. */
  function OfBatch(tried: seq<(Item, nat)>, b: nat): seq<Item> {
    if |tried| == 0 then []
    else OfBatch(Front(tried), b) + if Last(tried).1 == b then [Last(tried).0] else []
  }

  lemma {:induction false} DeliveringCounts(outcomes: seq<FanIn.Outcome>, i: nat)
    ensures multiset(Delivering(outcomes))[i] == if i < |outcomes| && outcomes[i] == FanIn.Batch then 1 else 0
  {
    if |outcomes| > 0 {
      DeliveringCounts(Front(outcomes), i);
    }
  }

  lemma {:induction false} GatheredWithout(fetched: nat -> Batch, pods: seq<nat>, k: nat)
    requires k < |pods|
    ensures Gathered(fetched, pods) ==
      Gathered(fetched, pods[..k] + pods[k + 1..]) + multiset(fetched(pods[k]).items)
    decreases |pods|
  {
    if k == |pods| - 1 {
      assert pods[..k] + pods[k + 1..] == Front(pods);
    } else {
      assert Front(pods[..k] + pods[k + 1..]) == Front(pods)[..k] + Front(pods)[k + 1..];
      GatheredWithout(fetched, Front(pods), k);
    }
  }

  lemma WithoutOne(qs: seq<nat>, k: nat)
    requires k < |qs|
    ensures multiset(qs) == multiset(qs[..k] + qs[k + 1..]) + multiset{qs[k]}
  {
    assert qs == qs[..k] + [qs[k]] + qs[k + 1..];
  }

  lemma MultisetCancels(a: multiset<nat>, b: multiset<nat>, x: nat)
    requires a + multiset{x} == b + multiset{x}
    ensures a == b
  {
    assert a == a + multiset{x} - multiset{x};
    assert b == b + multiset{x} - multiset{x};
  }

  lemma SameRest(ps: seq<nat>, qs: seq<nat>, k: nat)
    requires |ps| > 0 && k < |qs| && qs[k] == Last(ps) && multiset(ps) == multiset(qs)
    ensures multiset(Front(ps)) == multiset(qs[..k] + qs[k + 1..])
  {
    WithoutOne(ps, |ps| - 1);
    assert ps[..|ps| - 1] + ps[|ps|..] == Front(ps);
    WithoutOne(qs, k);
    MultisetCancels(multiset(Front(ps)), multiset(qs[..k] + qs[k + 1..]), qs[k]);
  }

  /** What is gathered does not depend on the order of the pods. */
  lemma {:induction false} GatheredPermutes(fetched: nat -> Batch, ps: seq<nat>, qs: seq<nat>)
    requires multiset(ps) == multiset(qs)
    ensures Gathered(fetched, ps) == Gathered(fetched, qs)
    decreases |ps|
  {
    if |ps| == 0 {
      assert |multiset(qs)| == 0;
    } else {
      assert Last(ps) in multiset(qs);
      var k :| 0 <= k < |qs| && qs[k] == Last(ps);
      SameRest(ps, qs, k);
      GatheredPermutes(fetched, Front(ps), qs[..k] + qs[k + 1..]);
      GatheredWithout(fetched, qs, k);
    }
  }

  lemma NumberedItems(items: seq<Item>, b: nat)
    ensures Items(Numbered(items, b)) == items
  {
  }

  lemma ItemsConcat(xs: seq<(Item, nat)>, ys: seq<(Item, nat)>)
    ensures Items(xs + ys) == Items(xs) + Items(ys)
  {
  }

  /** The arrivals are the gathered items. */
  lemma {:induction false} ArrivalsGather(fetched: nat -> Batch, received: seq<nat>)
    ensures multiset(Items(Arrivals(Drained(fetched, received)))) == Gathered(fetched, received)
  {
    if |received| > 0 {
      var bs, b := Drained(fetched, received), fetched(Last(received));
      assert Front(bs) == Drained(fetched, Front(received));
      ArrivalsGather(fetched, Front(received));
      ItemsConcat(Arrivals(Front(bs)), Numbered(b.items, |bs| - 1));
      NumberedItems(b.items, |bs| - 1);
    }
  }

  lemma {:induction false} OfBatchConcat(xs: seq<(Item, nat)>, ys: seq<(Item, nat)>, b: nat)
    ensures OfBatch(xs + ys, b) == OfBatch(xs, b) + OfBatch(ys, b)
    decreases |ys|
  {
    if |ys| == 0 {
      assert xs + ys == xs;
    } else {
      assert Front(xs + ys) == xs + Front(ys);
      OfBatchConcat(xs, Front(ys), b);
    }
  }

  lemma {:induction false} OfNumbered(items: seq<Item>, n: nat, b: nat)
    ensures OfBatch(Numbered(items, n), b) == if n == b then items else []
  {
    if |items| > 0 {
      assert Front(Numbered(items, n)) == Numbered(Front(items), n);
      OfNumbered(Front(items), n, b);
    }
  }

  lemma OfBatchMore(tried: seq<(Item, nat)>, items: seq<Item>, n: nat, b: nat)
    ensures OfBatch(tried + Numbered(items, n), b) == OfBatch(tried, b) + if n == b then items else []
  {
    OfBatchConcat(tried, Numbered(items, n), b);
    OfNumbered(items, n, b);
  }

  lemma {:induction false} ArrivalsOfBatch(bs: seq<Batch>, b: nat)
    ensures b < |bs| ==> OfBatch(Arrivals(bs), b) == bs[b].items
    ensures b >= |bs| ==> OfBatch(Arrivals(bs), b) == []
  {
    if |bs| > 0 {
      ArrivalsOfBatch(Front(bs), b);
      OfBatchMore(Arrivals(Front(bs)), Last(bs).items, |bs| - 1, b);
    }
  }

  /** Batches are taken one after the other in the order received. */
  lemma {:induction false} ArrivalsInOrder(bs: seq<Batch>, i: nat, j: nat)
    requires i < j < |Arrivals(bs)|
    ensures Arrivals(bs)[i].1 <= Arrivals(bs)[j].1 < |bs|
  {
    var before := Arrivals(Front(bs));
    if j < |before| {
      ArrivalsInOrder(Front(bs), i, j);
    } else if i < |before| {
      ArrivalNumber(Front(bs), i);
    }
  }

  lemma {:induction false} ArrivalNumber(bs: seq<Batch>, i: nat)
    requires i < |Arrivals(bs)|
    ensures Arrivals(bs)[i].1 < |bs|
  {
    if i < |Arrivals(Front(bs))| {
      ArrivalNumber(Front(bs), i);
    }
  }

  lemma ReceivedIsDelivering(outcomes: seq<FanIn.Outcome>, n: FanIn.State)
    requires FanIn.DeliversAll(outcomes, n)
    ensures multiset(n.received) == multiset(Delivering(outcomes))
  {
    forall i: nat ensures multiset(n.received)[i] == multiset(Delivering(outcomes))[i] {
      DeliveringCounts(outcomes, i);
    }
  }

  /** The items tried once the consumer has received everything: exactly those of the
      delivering pods, however the fetches interleaved, and each pod's in its own order
      as one batch. */
  lemma EveryItemTriedOnce(outcomes: seq<FanIn.Outcome>, fetched: nat -> Batch, n: FanIn.State, tried: seq<(Item, nat)>)
    requires FanIn.DeliversAll(outcomes, n)
    requires tried == Arrivals(Drained(fetched, n.received))
    ensures multiset(Items(tried)) == Gathered(fetched, Delivering(outcomes))
    ensures forall k :: 0 <= k < |n.received| ==> OfBatch(tried, k) == fetched(n.received[k]).items
  {
    ReceivedIsDelivering(outcomes, n);
    ArrivalsGather(fetched, n.received);
    GatheredPermutes(fetched, n.received, Delivering(outcomes));
    forall k | 0 <= k < |n.received| ensures OfBatch(tried, k) == fetched(n.received[k]).items {
      ArrivalsOfBatch(Drained(fetched, n.received), k);
    }
  }

  /** End to end, for every interleaving of an export that has come to its end: the items
      tried are those of every fetched batch, each once, and the exported counters are
      those of the items among them whose enrichment succeeded. */
  lemma ExportIsComplete(
    outcomes: seq<FanIn.Outcome>, limit: nat, steps: seq<FanIn.Step>, trace: seq<FanIn.State>,
    fetched: nat -> Batch, bs: seq<Batch>, nodes: Nodes, m: map<Int32, Cached>, log: seq<Attempt>, c: Counter)
    requires FanIn.IsRun(outcomes, limit, steps, trace) && trace[|steps|].stopped
    requires bs == Drained(fetched, trace[|steps|].received)
    requires Tried(log) == Arrivals(bs) && AllHonest(nodes, m, bs, log)
    ensures multiset(Items(Tried(log))) == Gathered(fetched, Delivering(outcomes))
    ensures Exported(Successes(log), c) == Taken(log, c)
  {
    var n := trace[|steps|];
    FanIn.RunInv(outcomes, limit, steps, trace, |steps|);
    FanIn.StoppedHasAll(outcomes, limit, n);
    EveryItemTriedOnce(outcomes, fetched, n, Tried(log));
    ExportConserves(nodes, m, bs, log, c);
  }

  // ---------- back to the collectors ----------

  function PodSum(pods: seq<nat>, f: nat -> int): int {
    if |pods| == 0 then 0 else PodSum(Front(pods), f) + f(Last(pods))
  }

  lemma {:induction false} PodSumSame(pods: seq<nat>, f: nat -> int, h: nat -> int)
    requires forall i :: 0 <= i < |pods| ==> f(pods[i]) == h(pods[i])
    ensures PodSum(pods, f) == PodSum(pods, h)
  {
    if |pods| > 0 {
      PodSumSame(Front(pods), f, h);
    }
  }

  lemma {:induction false} PodSumWithout(pods: seq<nat>, f: nat -> int, k: nat)
    requires k < |pods|
    ensures PodSum(pods, f) == PodSum(pods[..k] + pods[k + 1..], f) + f(pods[k])
    decreases |pods|
  {
    if k == |pods| - 1 {
      assert pods[..k] + pods[k + 1..] == Front(pods);
    } else {
      assert Front(pods[..k] + pods[k + 1..]) == Front(pods)[..k] + Front(pods)[k + 1..];
      PodSumWithout(Front(pods), f, k);
    }
  }

  lemma {:induction false} PodSumPermutes(ps: seq<nat>, qs: seq<nat>, f: nat -> int)
    requires multiset(ps) == multiset(qs)
    ensures PodSum(ps, f) == PodSum(qs, f)
    decreases |ps|
  {
    if |ps| == 0 {
      assert |multiset(qs)| == 0;
    } else {
      assert Last(ps) in multiset(qs);
      var k :| 0 <= k < |qs| && qs[k] == Last(ps);
      SameRest(ps, qs, k);
      PodSumPermutes(Front(ps), qs[..k] + qs[k + 1..], f);
      PodSumWithout(qs, f, k);
    }
  }

  /** What each pod's batch reports for group `g`. */
  function ReportOf(fetched: nat -> Batch, g: GroupKey, c: Counter): nat -> int {
    (i: nat) => ReportedFor(fetched(i).items, g, c)
  }

  /** The pending totals of group `g` in the collectors' states, exactly and as words. */
  ghost function PendingOf(states: nat -> State, g: GroupKey, c: Counter): nat -> int {
    (i: nat) => Total(states(i), g).At(c)
  }

  ghost function PendingWordOf(states: nat -> State, g: GroupKey, c: Counter): nat -> int {
    (i: nat) => Wrap64(Total(states(i), g).At(c))
  }

  lemma {:induction false} ReportedForConcat(xs: seq<Item>, ys: seq<Item>, g: GroupKey, c: Counter)
    ensures ReportedFor(xs + ys, g, c) == ReportedFor(xs, g, c) + ReportedFor(ys, g, c)
    decreases |ys|
  {
    if |ys| == 0 {
      assert xs + ys == xs;
    } else {
      assert Front(xs + ys) == xs + Front(ys);
      ReportedForConcat(xs, Front(ys), g, c);
    }
  }

  lemma {:induction false} ArrivalsReport(fetched: nat -> Batch, received: seq<nat>, g: GroupKey, c: Counter)
    ensures ReportedFor(Items(Arrivals(Drained(fetched, received))), g, c) == PodSum(received, ReportOf(fetched, g, c))
  {
    if |received| > 0 {
      var bs, b := Drained(fetched, received), fetched(Last(received));
      assert Front(bs) == Drained(fetched, Front(received));
      ArrivalsReport(fetched, Front(received), g, c);
      ItemsConcat(Arrivals(Front(bs)), Numbered(b.items, |bs| - 1));
      NumberedItems(b.items, |bs| - 1);
      ReportedForConcat(Items(Arrivals(Front(bs))), b.items, g, c);
    }
  }

  predicate MetricIsFor(m: PodMetric, g: GroupKey) {
    m.srcIp == g.src && m.dstIp == g.dst && m.proto == g.proto
  }

  /** What the exported metrics say about the flow of group `g`. */
  function ExportedFor(out: seq<PodMetric>, g: GroupKey, c: Counter): int {
    if |out| == 0 then 0
    else ExportedFor(Front(out), g, c) + if MetricIsFor(Last(out), g) then Last(out).words.At(c) else 0
  }

  /** What was reported for group `g` by items whose enrichment failed. */
  function LostFor(log: seq<Attempt>, g: GroupKey, c: Counter): int {
    if |log| == 0 then 0
    else
      var a := Last(log);
      LostFor(Front(log), g, c) + if a.result.None? && IsFor(a.item, g) then a.item.words.At(c) else 0
  }

  lemma KeptIsFor(it: Item, m: PodMetric, g: GroupKey)
    requires Keeps(it, m)
    ensures IsFor(it, g) <==> MetricIsFor(m, g)
  {
    WireRoundTripBack(it.srcIp);
    WireRoundTripBack(it.dstIp);
    SameWireForm(m.srcIp, g.src);
    SameWireForm(m.dstIp, g.dst);
  }

  /** Group by group, what is reported is exported or lost. */
  lemma {:induction false} GroupConserved(
    nodes: Nodes, m: map<Int32, Cached>, bs: seq<Batch>, log: seq<Attempt>, g: GroupKey, c: Counter)
    requires AllHonest(nodes, m, bs, log)
    ensures ExportedFor(Successes(log), g, c) + LostFor(log, g, c) == ReportedFor(Items(Tried(log)), g, c)
  {
    if |log| > 0 {
      GroupConserved(nodes, m, bs, Front(log), g, c);
      var a, rest := log[|log| - 1], Successes(Front(log));
      assert Front(Items(Tried(log))) == Items(Tried(Front(log)));
      if a.result.Some? {
        HonestKeeps(nodes, m, bs, a);
        KeptIsFor(a.item, a.result.value, g);
        assert Front(rest + [a.result.value]) == rest;
      } else {
        assert rest + [] == rest;
      }
    }
  }

  /** Each delivering pod's batch was written by its collector in the given state. */
  ghost predicate FromCollectors(outcomes: seq<FanIn.Outcome>, fetched: nat -> Batch, states: nat -> State) {
    forall k :: 0 <= k < |Delivering(outcomes)| ==>
      Ships(states(Delivering(outcomes)[k]), fetched(Delivering(outcomes)[k]).items)
  }

  lemma ReportsArePending(
    outcomes: seq<FanIn.Outcome>, fetched: nat -> Batch, states: nat -> State, g: GroupKey, c: Counter)
    requires FromCollectors(outcomes, fetched, states)
    ensures PodSum(Delivering(outcomes), ReportOf(fetched, g, c)) ==
      PodSum(Delivering(outcomes), PendingWordOf(states, g, c))
  {
    var pods, f, h := Delivering(outcomes), ReportOf(fetched, g, c), PendingWordOf(states, g, c);
    forall k | 0 <= k < |pods| ensures f(pods[k]) == h(pods[k]) {
      BatchReports(states(pods[k]), fetched(pods[k]).items, g, c);
    }
    PodSumSame(pods, f, h);
  }

  lemma WordsAreExact(pods: seq<nat>, states: nat -> State, g: GroupKey, c: Counter)
    requires forall k :: 0 <= k < |pods| ==> PendingOf(states, g, c)(pods[k]) < TWO63
    ensures PodSum(pods, PendingWordOf(states, g, c)) == PodSum(pods, PendingOf(states, g, c))
  {
    PodSumSame(pods, PendingWordOf(states, g, c), PendingOf(states, g, c));
  }

  /** From collectors to sinks, for every interleaving of an export that has come to its
      end and every group: what is exported, together with what enrichment lost, is the
      sum of the words the delivering collectors held pending, and of the pending
      totals themselves while these are below 2^63. */
  lemma ExportedIsPending(
    outcomes: seq<FanIn.Outcome>, limit: nat, steps: seq<FanIn.Step>, trace: seq<FanIn.State>,
    fetched: nat -> Batch, states: nat -> State,
    bs: seq<Batch>, nodes: Nodes, m: map<Int32, Cached>, log: seq<Attempt>, g: GroupKey, c: Counter)
    requires FanIn.IsRun(outcomes, limit, steps, trace) && trace[|steps|].stopped
    requires FromCollectors(outcomes, fetched, states)
    requires bs == Drained(fetched, trace[|steps|].received)
    requires Tried(log) == Arrivals(bs) && AllHonest(nodes, m, bs, log)
    ensures ExportedFor(Successes(log), g, c) + LostFor(log, g, c) ==
      PodSum(Delivering(outcomes), PendingWordOf(states, g, c))
    ensures var pods := Delivering(outcomes);
      (forall k :: 0 <= k < |pods| ==> PendingOf(states, g, c)(pods[k]) < TWO63) ==>
        ExportedFor(Successes(log), g, c) + LostFor(log, g, c) == PodSum(pods, PendingOf(states, g, c))
  {
    var n, pods := trace[|steps|], Delivering(outcomes);
    FanIn.RunInv(outcomes, limit, steps, trace, |steps|);
    FanIn.StoppedHasAll(outcomes, limit, n);
    ReceivedIsDelivering(outcomes, n);
    GroupConserved(nodes, m, bs, log, g, c);
    ArrivalsReport(fetched, n.received, g, c);
    PodSumPermutes(n.received, pods, ReportOf(fetched, g, c));
    ReportsArePending(outcomes, fetched, states, g, c);
    if forall k :: 0 <= k < |pods| ==> PendingOf(states, g, c)(pods[k]) < TWO63 {
      WordsAreExact(pods, states, g, c);
    }
  }
}
