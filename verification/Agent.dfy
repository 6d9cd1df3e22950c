/** The whole collector process: pod events, collects, cleanups and scrapes in any order. */
module Agent {
  import opened Basics
  import opened Counters
  import opened Net
  import opened Ledger
  import opened LedgerConservation
  import opened Conntrack
  import opened NodePods
  import opened Collecting
  import opened Deliveries

  datatype Happening =
    | PodChanged(pod: Pod)
    | PodGone(pod: Pod)
    | Collected(dump: Option<seq<Session>>, now: int)
    | Cleaned(now: int)
    | Scraped(marshalled: bool, written: bool, clock: GroupKey -> int)

  function Noted(pods: map<string, Pod>, h: Happening): map<string, Pod> {
    match h
    case PodChanged(pod) => Upsert(pods, pod)
    case PodGone(pod) => pods - {pod.uid}
    case _ => pods
  }

  /** The running pods known after a history. */
  ghost function Known(hist: seq<Happening>): map<string, Pod> {
    if |hist| == 0 then map[] else Noted(Known(Front(hist)), Last(hist))
  }

  /** What one happening means for the ledger, given the pods known then. */
  ghost function Effect(known: map<string, Pod>, excluded: set<string>, h: Happening): seq<Event> {
    match h
    case Collected(dump, now) =>
      if dump.None? then [] else CollectEvents(Listing(dump.value, TrackedIPs(known, excluded), now))
    case Cleaned(now) => [Cleanup(now)]
    case Scraped(marshalled, written, clock) => [Scrape(marshalled && written, clock)]
    case _ => []
  }

  ghost function LedgerEvents(hist: seq<Happening>, excluded: set<string>): seq<Event> {
    if |hist| == 0 then []
    else LedgerEvents(Front(hist), excluded) + Effect(Known(Front(hist)), excluded, Last(hist))
  }

  /** A dump that brings the process down. */
  predicate Fatal(h: Happening) {
    h.Collected? && h.dump.Some? && exists i :: 0 <= i < |h.dump.value| && Crashes(h.dump.value[i])
  }

  /** No dump of the history is fatal. */
  ghost predicate Survives(hist: seq<Happening>) {
    |hist| == 0 || (Survives(Front(hist)) && !Fatal(Last(hist)))
  }

  /** A scrape that gets its batch out. */
  predicate Writes(h: Happening) {
    h.Scraped? && h.marshalled && h.written
  }

  function Logged(batches: seq<seq<Item>>, sent: Option<seq<Item>>): seq<seq<Item>> {
    if sent.Some? then batches + [sent.value] else batches
  }

  /** Only a scrape that gets its batch out is a written scrape of the ledger. */
  lemma EffectWrites(known: map<string, Pod>, excluded: set<string>, h: Happening)
    ensures Writes(h) ==> Effect(known, excluded, h) == [Scrape(true, h.clock)]
    ensures !Writes(h) ==>
      forall i :: 0 <= i < |Effect(known, excluded, h)| ==> !WrittenScrape(Effect(known, excluded, h)[i])
  {
  }

  /** Events that send at most what their state ships extend the batches of the run. */
  lemma LogOne(cfg: Config, evs: seq<Event>, batches: seq<seq<Item>>, more: seq<Event>, sent: Option<seq<Item>>)
    requires Wrote(cfg, evs, batches)
    requires sent.Some? ==> |more| == 1 && WrittenScrape(more[0]) && Ships(Run(cfg, evs), sent.value)
    requires sent.None? ==> forall i :: 0 <= i < |more| ==> !WrittenScrape(more[i])
    ensures Wrote(cfg, evs + more, Logged(batches, sent))
  {
    if sent.Some? {
      assert more == [more[0]];
      WroteOne(cfg, evs, batches, more[0], sent.value);
    } else {
      WroteNothing(cfg, evs, batches, more);
    }
  }

  // ---------- the objects follow the ledger ----------

  /** Collects once: pods, their addresses, the listing, and the accounting. An error
      on the way leaves the collector alone. */
  method CollectOnce(c: Collector, w: RunningPodsCache, excluded: set<string>,
                     dump: Option<seq<Session>>, now: int, ghost s: State) returns (crashed: bool)
    requires c.Shows(s)
    modifies c, c.Repr
    ensures crashed <==> Fatal(Collected(dump, now))
    ensures !crashed ==> c.Shows(From(c.cfg, s, Effect(w.pods, excluded, Collected(dump, now))))
    ensures fresh(c.Repr - old(c.Repr)) && w.pods == old(w.pods)
  {
    var ips := NodeIPs(w, excluded);
    var r := ListEntries(dump, ips, now);
    crashed := r.Crashed?;
    ghost var more := Effect(w.pods, excluded, Collected(dump, now));
    if r.Listed? {
      assert more == CollectEvents(Views(r.entries));
      c.Collect(r.entries, s);
    } else if r.DumpFailed? {
      assert more == [] && From(c.cfg, s, []) == s;
    }
  }

  method CleanOnce(c: Collector, now: int, ghost s: State)
    requires c.Shows(s)
    modifies c, c.Repr
    ensures c.Shows(From(c.cfg, s, [Event.Cleanup(now)])) && fresh(c.Repr - old(c.Repr))
  {
    OneEvent(c.cfg, s, Cleanup(now));
    c.Cleanup(now, s);
  }

  method ScrapeOnce(c: Collector, marshalled: bool, written: bool, clock: GroupKey -> int, ghost s: State)
    returns (sent: Option<seq<Item>>)
    requires c.Shows(s)
    modifies c, c.Repr
    ensures c.Shows(From(c.cfg, s, [Event.Scrape(marshalled && written, clock)])) && fresh(c.Repr - old(c.Repr))
    ensures sent.Some? <==> marshalled && written
    ensures sent.Some? ==> Ships(s, sent.value)
  {
    OneEvent(c.cfg, s, Scrape(marshalled && written, clock));
    ghost var keys;
    sent, keys := c.Scrape(marshalled, written, clock, s);
  }

  /** Passes a pod event to the watcher. */
  method NoteOnce(w: RunningPodsCache, h: Happening)
    requires h.PodChanged? || h.PodGone?
    modifies w
    ensures w.pods == Noted(old(w.pods), h)
  {
    if h.PodChanged? {
      w.OnAddOrUpdate(h.pod);
    } else {
      w.OnDelete(h.pod);
    }
  }

  /** Lets the objects live through one happening. */
  method Handle(c: Collector, w: RunningPodsCache, excluded: set<string>, h: Happening, ghost s: State)
    returns (crashed: bool, sent: Option<seq<Item>>)
    requires c.Shows(s)
    modifies c, c.Repr, w
    ensures crashed <==> Fatal(h)
    ensures sent.Some? <==> Writes(h)
    ensures sent.Some? ==> Ships(s, sent.value)
    ensures !crashed ==> c.Shows(From(c.cfg, s, Effect(old(w.pods), excluded, h)))
    ensures w.pods == Noted(old(w.pods), h)
    ensures fresh(c.Repr - old(c.Repr))
  {
    crashed, sent := false, None;
    match h {
      case PodChanged(_) => NoteOnce(w, h);
      case PodGone(_) => NoteOnce(w, h);
      case Collected(dump, now) => crashed := CollectOnce(c, w, excluded, dump, now, s);
      case Cleaned(now) => CleanOnce(c, now, s);
      case Scraped(marshalled, written, clock) => sent := ScrapeOnce(c, marshalled, written, clock, s);
    }
  }

  /** The objects stand for what a history leads to. */
  ghost predicate Follows(c: Collector, w: RunningPodsCache, hist: seq<Happening>, excluded: set<string>)
    reads c, c.Repr, w
  {
    c.Shows(Run(c.cfg, LedgerEvents(hist, excluded))) && w.pods == Known(hist)
  }

  /** Lets the objects live through the last happening of a history. */
  method Advance(c: Collector, w: RunningPodsCache, excluded: set<string>, hist: seq<Happening>, log: seq<seq<Item>>)
    returns (crashed: bool, batches: seq<seq<Item>>)
    requires |hist| > 0 && Follows(c, w, Front(hist), excluded)
    requires Wrote(c.cfg, LedgerEvents(Front(hist), excluded), log)
    modifies c, c.Repr, w
    ensures crashed <==> Fatal(Last(hist))
    ensures !crashed ==> Follows(c, w, hist, excluded) && Wrote(c.cfg, LedgerEvents(hist, excluded), batches)
    ensures fresh(c.Repr - old(c.Repr))
  {
    ghost var before := LedgerEvents(Front(hist), excluded);
    ghost var more := Effect(w.pods, excluded, Last(hist));
    FromConcat(c.cfg, INIT, before, more);
    EffectWrites(w.pods, excluded, Last(hist));
    var sent;
    crashed, sent := Handle(c, w, excluded, Last(hist), Run(c.cfg, before));
    LogOne(c.cfg, before, log, more, sent);
    batches := Logged(log, sent);
  }

  /** Plays any history on a fresh collector and watcher: unless a dump brings the
      process down, the heap ends up standing for the run of the ledger events, and the
      batches written are those of the run. */
  method Play(cfg: Config, excluded: set<string>, hist: seq<Happening>)
    returns (c: Collector, w: RunningPodsCache, crashed: bool, batches: seq<seq<Item>>)
    ensures fresh(c) && fresh(w) && fresh(c.Repr) && c.cfg == cfg
    ensures !crashed <==> Survives(hist)
    ensures !crashed ==> Follows(c, w, hist, excluded) && Wrote(cfg, LedgerEvents(hist, excluded), batches)
    decreases |hist|
  {
    if |hist| == 0 {
      c := new Collector(cfg);
      w := new RunningPodsCache();
      crashed, batches := false, [];
    } else {
      c, w, crashed, batches := Play(cfg, excluded, Front(hist));
      if !crashed {
        crashed, batches := Advance(c, w, excluded, hist, batches);
      }
    }
  }

  lemma OneEvent(cfg: Config, s: State, ev: Event)
    ensures From(cfg, s, [ev]) == Apply(cfg, s, ev)
  {
    assert [] + [ev] == [ev];
    FromOne(cfg, s, [], ev);
  }

  /** While what a group was ever credited stays below 2^63, the words the collector holds
      for it have not wrapped, whatever history it lived through. */
  lemma NoWrap(c: Collector, w: RunningPodsCache, hist: seq<Happening>, excluded: set<string>, g: GroupKey, ctr: Counter)
    requires Follows(c, w, hist, excluded) && g in c.podMetrics
    requires GroupCredited(c.cfg, LedgerEvents(hist, excluded), g, ctr) < TWO63
    ensures c.podMetrics[g].words.At(ctr) == LedgerConservation.Pending(c.cfg, LedgerEvents(hist, excluded), g, ctr)
  {
    var evs := LedgerEvents(hist, excluded);
    LedgerBalances(c.cfg, evs, g, ctr);
    assert Total(Run(c.cfg, evs), g) == c.podMetrics[g].exact;
    ReportsExactly(c.podMetrics[g].words, c.podMetrics[g].exact, ctr);
  }

  // ---------- only tracked sources ----------

  lemma {:induction false} ListingSources(ss: seq<Session>, tracked: set<IPv4>, now: int, r: Reading)
    requires r in Listing(ss, tracked, now)
    ensures r.key.src.ip in tracked
  {
    if r in Listing(Front(ss), tracked, now) {
      ListingSources(Front(ss), tracked, now, r);
    }
  }

  /** Every group's source was the source of some observed reading. */
  lemma {:induction false} GroupSourceObserved(cfg: Config, evs: seq<Event>, g: GroupKey)
    requires g in Run(cfg, evs).metrics
    ensures exists i :: 0 <= i < |evs| && evs[i].Observe? && evs[i].r.key.src.ip == g.src
  {
    if g in Run(cfg, Front(evs)).metrics {
      GroupSourceObserved(cfg, Front(evs), g);
      var i :| 0 <= i < |Front(evs)| && Front(evs)[i].Observe? && Front(evs)[i].r.key.src.ip == g.src;
      assert evs[i].Observe?;
    } else {
      assert evs[|evs| - 1].Observe?;
    }
  }

  /** At some collect `j` the pod reported at `i` is current: it was Running at address
      `ip`, not on the host network and not in an excluded namespace. */
  ghost predicate Vouched(hist: seq<Happening>, excluded: set<string>, ip: IPv4) {
    exists i, j :: 0 <= i < j < |hist| && hist[i].PodChanged? && hist[j].Collected? &&
      hist[i].pod.phase == Running && hist[i].pod.ip == Some(ip) &&
      !hist[i].pod.hostNetwork && hist[i].pod.namespace !in excluded && Current(hist, hist[i].pod.uid, i, j)
  }

  /** The happening says the pod is gone, or reports it Running with an address. */
  predicate Supersedes(h: Happening, uid: string) {
    || (h.PodGone? && h.pod.uid == uid)
    || (h.PodChanged? && h.pod.uid == uid && h.pod.phase == Running && h.pod.ip.Some?)
  }

  /** Nothing supersedes the report at `i` before `j`. */
  ghost predicate Current(hist: seq<Happening>, uid: string, i: int, j: int)
    requires 0 <= i <= j <= |hist|
  {
    forall m :: i < m < j ==> !Supersedes(hist[m], uid)
  }

  lemma {:induction false} KnownWasReported(hist: seq<Happening>, u: string) returns (i: nat)
    requires u in Known(hist)
    ensures i < |hist| && hist[i] == PodChanged(Known(hist)[u]) && Known(hist)[u].uid == u
    ensures Known(hist)[u].phase == Running && Known(hist)[u].ip.Some?
    ensures Current(hist, u, i, |hist|)
  {
    var pre, h := Front(hist), Last(hist);
    if Supersedes(h, u) {
      i := |hist| - 1;
    } else {
      i := KnownWasReported(pre, u);
    }
  }

  /** Conversely the latest report of a pod Running with an address is held until the pod is
      deleted. */
  lemma {:induction false} ReportedIsKnown(hist: seq<Happening>, i: nat)
    requires i < |hist| && hist[i].PodChanged? && hist[i].pod.phase == Running && hist[i].pod.ip.Some?
    requires Current(hist, hist[i].pod.uid, i, |hist|)
    ensures hist[i].pod.uid in Known(hist) && Known(hist)[hist[i].pod.uid] == hist[i].pod
  {
    if i < |hist| - 1 {
      ReportedIsKnown(Front(hist), i);
      assert !Supersedes(hist[|hist| - 1], hist[i].pod.uid);
    }
  }

  lemma VouchedLonger(hist: seq<Happening>, excluded: set<string>, ip: IPv4)
    requires |hist| > 0 && Vouched(Front(hist), excluded, ip)
    ensures Vouched(hist, excluded, ip)
  {
    var pre := Front(hist);
    var i, j :| 0 <= i < j < |pre| && pre[i].PodChanged? && pre[j].Collected? &&
      pre[i].pod.phase == Running && pre[i].pod.ip == Some(ip) &&
      !pre[i].pod.hostNetwork && pre[i].pod.namespace !in excluded && Current(pre, pre[i].pod.uid, i, j);
    assert hist[i] == pre[i] && hist[j] == pre[j] && Current(hist, hist[i].pod.uid, i, j);
  }

  lemma ListedSourceVouched(hist: seq<Happening>, excluded: set<string>, ip: IPv4)
    requires |hist| > 0 && Last(hist).Collected? && ip in TrackedIPs(Known(Front(hist)), excluded)
    ensures Vouched(hist, excluded, ip)
  {
    var pre := Front(hist);
    var u :| u in Known(pre) && Tracked(Known(pre)[u], excluded) && Known(pre)[u].ip.value == ip;
    var i := KnownWasReported(pre, u);
    assert hist[i] == pre[i] && hist[|hist| - 1].Collected? && Current(hist, u, i, |hist| - 1);
  }

  lemma EffectSources(known: map<string, Pod>, excluded: set<string>, h: Happening, k: nat)
    requires k < |Effect(known, excluded, h)| && Effect(known, excluded, h)[k].Observe?
    ensures h.Collected? && Effect(known, excluded, h)[k].r.key.src.ip in TrackedIPs(known, excluded)
  {
    var rs := Listing(h.dump.value, TrackedIPs(known, excluded), h.now);
    assert Observes(rs)[k] == Observe(rs[k]);
    ListingSources(h.dump.value, TrackedIPs(known, excluded), h.now, rs[k]);
  }

  /** Every reading a history feeds to the ledger comes from a vouched-for source. */
  lemma {:induction false} ObservedSourcesVouched(hist: seq<Happening>, excluded: set<string>, k: nat)
    requires k < |LedgerEvents(hist, excluded)| && LedgerEvents(hist, excluded)[k].Observe?
    ensures Vouched(hist, excluded, LedgerEvents(hist, excluded)[k].r.key.src.ip)
  {
    var pre, before := Front(hist), LedgerEvents(Front(hist), excluded);
    if k < |before| {
      ObservedSourcesVouched(pre, excluded, k);
      VouchedLonger(hist, excluded, before[k].r.key.src.ip);
    } else {
      EffectSources(Known(pre), excluded, Last(hist), k - |before|);
      ListedSourceVouched(hist, excluded, LedgerEvents(hist, excluded)[k].r.key.src.ip);
    }
  }

  /** In every reachable state, each group's source belonged, at some collect, to a pod
      whose current report had it Running with that address, not on the host network
      and not in an excluded namespace. */
  lemma TrackedSourcesOnly(cfg: Config, hist: seq<Happening>, excluded: set<string>, g: GroupKey)
    requires g in Run(cfg, LedgerEvents(hist, excluded)).metrics
    ensures Vouched(hist, excluded, g.src)
  {
    var evs := LedgerEvents(hist, excluded);
    GroupSourceObserved(cfg, evs, g);
    var k :| 0 <= k < |evs| && evs[k].Observe? && evs[k].r.key.src.ip == g.src;
    ObservedSourcesVouched(hist, excluded, k);
  }

  // ---------- what each happening does ----------

  lemma LastEffect(cfg: Config, hist: seq<Happening>, excluded: set<string>, more: seq<Event>)
    requires |hist| > 0 && more == Effect(Known(Front(hist)), excluded, Last(hist))
    ensures Run(cfg, LedgerEvents(hist, excluded)) == From(cfg, Run(cfg, LedgerEvents(Front(hist), excluded)), more)
  {
    FromConcat(cfg, INIT, LedgerEvents(Front(hist), excluded), more);
  }

  /** A cleanup keeps exactly the connections and groups that have not expired. */
  lemma CleanedKeeps(cfg: Config, hist: seq<Happening>, excluded: set<string>, s: State, t: State)
    requires |hist| > 0 && Last(hist).Cleaned?
    requires s == Run(cfg, LedgerEvents(Front(hist), excluded)) && t == Run(cfg, LedgerEvents(hist, excluded))
    ensures forall k :: k in t.cache <==> k in s.cache && Last(hist).now <= s.cache[k].lifetime
    ensures forall k :: k in t.cache ==> t.cache[k] == s.cache[k]
    ensures forall g :: g in t.metrics <==> g in s.metrics && Last(hist).now <= s.metrics[g].lifetime
    ensures forall g :: g in t.metrics ==> t.metrics[g] == s.metrics[g]
  {
    LastEffect(cfg, hist, excluded, [Cleanup(Last(hist).now)]);
    OneEvent(cfg, s, Cleanup(Last(hist).now));
  }

  /** A scrape that gets its batch out in delta mode empties every group and caps its
      lifetime at two minutes from its reset; any other scrape changes nothing. */
  lemma ScrapedResets(cfg: Config, hist: seq<Happening>, excluded: set<string>, s: State, t: State)
    requires |hist| > 0 && Last(hist).Scraped?
    requires s == Run(cfg, LedgerEvents(Front(hist), excluded)) && t == Run(cfg, LedgerEvents(hist, excluded))
    ensures !(cfg.delta && Last(hist).marshalled && Last(hist).written) ==> t == s
    ensures t.cache == s.cache && t.metrics.Keys == s.metrics.Keys
    ensures cfg.delta && Last(hist).marshalled && Last(hist).written ==> forall g :: g in t.metrics ==>
      t.metrics[g] == Metric(ZERO, Min(s.metrics[g].lifetime, Last(hist).clock(g) + 120_000_000_000))
  {
    var ev := Scrape(Last(hist).marshalled && Last(hist).written, Last(hist).clock);
    LastEffect(cfg, hist, excluded, [ev]);
    OneEvent(cfg, s, ev);
  }

  /** Pod events and failed collects change nothing. */
  lemma OthersChangeNothing(cfg: Config, hist: seq<Happening>, excluded: set<string>)
    requires |hist| > 0
    requires Last(hist).PodChanged? || Last(hist).PodGone? || (Last(hist).Collected? && Last(hist).dump.None?)
    ensures Run(cfg, LedgerEvents(hist, excluded)) == Run(cfg, LedgerEvents(Front(hist), excluded))
  {
    LastEffect(cfg, hist, excluded, []);
  }

  // ---------- every tracked session ----------

  lemma {:induction false} LedgerEventsGrow(hist: seq<Happening>, excluded: set<string>, j: nat, ev: Event)
    requires j <= |hist| && ev in LedgerEvents(hist[..j], excluded)
    ensures ev in LedgerEvents(hist, excluded)
  {
    if j == |hist| {
      assert hist[..j] == hist;
    } else {
      assert Front(hist)[..j] == hist[..j];
      LedgerEventsGrow(Front(hist), excluded, j, ev);
    }
  }

  lemma CurrentIsTracked(hist: seq<Happening>, excluded: set<string>, i: nat, ip: IPv4)
    requires i < |hist| && hist[i].PodChanged? && hist[i].pod.phase == Running
    requires TrackedAt(hist[i].pod, excluded, ip) && Current(hist, hist[i].pod.uid, i, |hist|)
    ensures ip in TrackedIPs(Known(hist), excluded)
  {
    ReportedIsKnown(hist, i);
    assert Tracked(Known(hist)[hist[i].pod.uid], excluded);
  }

  /** The collect at `j` finds the pod reported at `i` current at address `ip`. */
  ghost predicate PodPresent(hist: seq<Happening>, excluded: set<string>, i: nat, j: nat, ip: IPv4) {
    && i < j < |hist| && hist[i].PodChanged? && hist[i].pod.phase == Running
    && TrackedAt(hist[i].pod, excluded, ip) && Current(hist, hist[i].pod.uid, i, j)
  }

  lemma PresentIsTracked(hist: seq<Happening>, excluded: set<string>, i: nat, j: nat, ip: IPv4)
    requires PodPresent(hist, excluded, i, j, ip)
    ensures ip in TrackedIPs(Known(hist[..j]), excluded)
  {
    var pre := hist[..j];
    assert Current(pre, pre[i].pod.uid, i, |pre|);
    CurrentIsTracked(pre, excluded, i, ip);
  }

  lemma ListedIsObserved(hist: seq<Happening>, excluded: set<string>, j: nat, k: nat, r: Reading)
    requires j < |hist| && hist[j].Collected? && hist[j].dump.Some? && k < |hist[j].dump.value|
    requires r in SessionEntries(hist[j].dump.value[k], TrackedIPs(Known(hist[..j]), excluded), hist[j].now)
    ensures Observe(r) in LedgerEvents(hist, excluded)
  {
    var pre, upTo := hist[..j], hist[..j + 1];
    assert Front(upTo) == pre && Last(upTo) == hist[j];
    var rs := Listing(hist[j].dump.value, TrackedIPs(Known(pre), excluded), hist[j].now);
    ListingHas(hist[j].dump.value, k, TrackedIPs(Known(pre), excluded), hist[j].now, r);
    var x :| 0 <= x < |rs| && rs[x] == r;
    assert Observes(rs)[x] == Observe(r);
    LedgerEventsGrow(hist, excluded, j + 1, Observe(r));
  }

  /** The dump of the collect at `j` has the session at `k`. */
  ghost predicate Dumped(hist: seq<Happening>, j: nat, k: nat, s: Session) {
    j < |hist| && hist[j].Collected? && hist[j].dump.Some? && k < |hist[j].dump.value| && hist[j].dump.value[k] == s
  }

  /** Nothing tracked is missed: in every history, a whole session in a successful dump is
      fed to the ledger, from its source to the endpoint that answered, if a current pod
      has the source's address. */
  lemma SourceSessionsObserved(
    hist: seq<Happening>, excluded: set<string>, i: nat, j: nat, k: nat,
    src: Endpoint, dst: Endpoint, proto: Byte, answered: Endpoint, back: Endpoint, backProto: Option<Byte>,
    counts: Counts, timeout: Option<UInt32>, lifetime: int)
    requires PodPresent(hist, excluded, i, j, src.ip)
    requires Dumped(hist, j, k, Whole(src, dst, proto, answered, back, backProto, counts, timeout))
    requires lifetime == if timeout.Some? then hist[j].now + 1_000_000_000 * timeout.value else 0
    ensures Observe(Reading(ConnKey(src, answered, proto), counts, lifetime)) in LedgerEvents(hist, excluded)
  {
    var tracked := TrackedIPs(Known(hist[..j]), excluded);
    PresentIsTracked(hist, excluded, i, j, src.ip);
    WholeSessionHas(src, dst, proto, answered, back, backProto, counts, timeout, tracked, hist[j].now, lifetime);
    ListedIsObserved(hist, excluded, j, k, Reading(ConnKey(src, answered, proto), counts, lifetime));
  }

  /** And the other way, with sent and received exchanged, if a current pod has the address
      that answered. */
  lemma AnsweredSessionsObserved(
    hist: seq<Happening>, excluded: set<string>, i: nat, j: nat, k: nat,
    src: Endpoint, dst: Endpoint, proto: Byte, answered: Endpoint, back: Endpoint, backProto: Option<Byte>,
    counts: Counts, timeout: Option<UInt32>, lifetime: int)
    requires PodPresent(hist, excluded, i, j, answered.ip)
    requires Dumped(hist, j, k, Whole(src, dst, proto, answered, back, backProto, counts, timeout))
    requires lifetime == if timeout.Some? then hist[j].now + 1_000_000_000 * timeout.value else 0
    ensures var mirrored := Traffic(counts.rxBytes, counts.rxPackets, counts.txBytes, counts.txPackets);
      Observe(Reading(ConnKey(answered, src, proto), mirrored, lifetime)) in LedgerEvents(hist, excluded)
  {
    var tracked := TrackedIPs(Known(hist[..j]), excluded);
    var mirrored := Traffic(counts.rxBytes, counts.rxPackets, counts.txBytes, counts.txPackets);
    PresentIsTracked(hist, excluded, i, j, answered.ip);
    WholeSessionHas(src, dst, proto, answered, back, backProto, counts, timeout, tracked, hist[j].now, lifetime);
    ListedIsObserved(hist, excluded, j, k, Reading(ConnKey(answered, src, proto), mirrored, lifetime));
  }
}
