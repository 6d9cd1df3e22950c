/** The exporter's aggregation: raw items enriched with pods, nodes, zones and names. */
module Export {
  import opened Basics
  import opened Counters
  import opened Net
  import opened Collecting
  import opened NodePods
  import opened PodByIP
  import opened Dns

  datatype Node = Node(name: string, zone: string)

  /** The node indexes; several nodes under one key make a lookup fail. */
  datatype Nodes = Nodes(byName: map<string, seq<Node>>, byIP: map<IPv4, seq<Node>>)

  datatype NodeLookup = Hit(node: Node) | Missing | Ambiguous

  function Single(ns: seq<Node>): NodeLookup {
    if |ns| == 0 then Missing else if |ns| == 1 then Hit(ns[0]) else Ambiguous
  }

  function NodeByName(nodes: Nodes, name: string): NodeLookup {
    if name in nodes.byName then Single(nodes.byName[name]) else Missing
  }

  function NodeByIP(nodes: Nodes, ip: IPv4): NodeLookup {
    if ip in nodes.byIP then Single(nodes.byIP[ip]) else Missing
  }

  datatype PodMetric = PodMetric(
    srcIp: IPv4, srcPod: string, srcNamespace: string, srcNode: string, srcZone: string,
    dstIp: IPv4, dstPod: string, dstNamespace: string, dstNode: string, dstZone: string, dstDnsName: string,
    words: Words, proto: Byte)

  /** What enrichment makes of an item, given the pods its lookups answered. */
  function Enriched(nodes: Nodes, conn: Item, srcPod: Option<Pod>, dstPod: Option<Pod>, dnsName: string): Option<PodMetric> {
    if srcPod.None? then None else
      var p, dstIP := srcPod.value, FromInt32(conn.dstIp);
      var srcNode := NodeByName(nodes, p.node);
      var zone := if srcNode.Hit? then srcNode.node.zone else "";
      var m := PodMetric(FromInt32(conn.srcIp), p.name, p.namespace, p.node, zone,
                         dstIP, "", "", "", "", "", conn.words, conn.proto);
      if srcNode.Ambiguous? then None
      else if !dstIP.IsPrivate() then Some(m.(dstDnsName := dnsName))
      else
        var dstNode := if dstPod.Some? then NodeByName(nodes, dstPod.value.node) else NodeByIP(nodes, dstIP);
        var q := if dstPod.Some? then m.(dstPod := dstPod.value.name, dstNamespace := dstPod.value.namespace) else m;
        match dstNode
        case Ambiguous => None
        case Missing => Some(q)
        case Hit(n) => Some(q.(dstNode := n.name, dstZone := n.zone))
  }

  /** Enrichment never touches counters, protocol or addresses. */
  lemma EnrichedKeeps(nodes: Nodes, conn: Item, srcPod: Option<Pod>, dstPod: Option<Pod>, dnsName: string)
    ensures var r := Enriched(nodes, conn, srcPod, dstPod, dnsName);
      r.Some? ==> Keeps(conn, r.value)
  {
  }

  /** Enrichment fails only for an unknown source pod or when several nodes share the name
      or address asked for. */
  lemma EnrichedFails(nodes: Nodes, conn: Item, srcPod: Option<Pod>, dstPod: Option<Pod>, dnsName: string)
    ensures Enriched(nodes, conn, srcPod, dstPod, dnsName).None? <==>
      srcPod.None? || Several(nodes.byName, srcPod.value.node) || BadDestination(nodes, conn, dstPod)
  {
  }

  /** A private destination whose node lookup is ambiguous. */
  predicate BadDestination(nodes: Nodes, conn: Item, dstPod: Option<Pod>) {
    FromInt32(conn.dstIp).IsPrivate() &&
    if dstPod.Some? then Several(nodes.byName, dstPod.value.node)
    else Several(nodes.byIP, FromInt32(conn.dstIp))
  }

  /** Name and zone are those of the one node under a key, or empty if there is none. */
  predicate Locates<K>(nodes: map<K, seq<Node>>, key: K, name: string, zone: string) {
    if key in nodes && nodes[key] != [] then |nodes[key]| == 1 && nodes[key][0] == Node(name, zone)
    else name == "" && zone == ""
  }

  /** The source attributes are those of the pod and of the one node it runs on. */
  ghost predicate SourceOf(nodes: Nodes, p: Pod, m: PodMetric) {
    && m.srcPod == p.name && m.srcNamespace == p.namespace && m.srcNode == p.node
    && exists name :: Locates(nodes.byName, p.node, name, m.srcZone)
  }

  /** The destination attributes of a private address: those of the pod found there and of
      the one node it runs on, or of the one node with that address; no DNS name. */
  predicate PrivateDestinationOf(nodes: Nodes, found: Option<Pod>, m: PodMetric) {
    && m.dstDnsName == ""
    && match found
       case Some(q) =>
         m.dstPod == q.name && m.dstNamespace == q.namespace && Locates(nodes.byName, q.node, m.dstNode, m.dstZone)
       case None =>
         m.dstPod == "" && m.dstNamespace == "" && Locates(nodes.byIP, m.dstIp, m.dstNode, m.dstZone)
  }

  /** Any other address has a DNS name at most. */
  predicate PublicDestinationOf(name: string, m: PodMetric) {
    m.dstPod == "" && m.dstNamespace == "" && m.dstNode == "" && m.dstZone == "" && m.dstDnsName == name
  }

  /** Every successful enrichment attaches the attributes of the pods and nodes concerned. */
  lemma EnrichedAttributes(nodes: Nodes, conn: Item, srcPod: Option<Pod>, dstPod: Option<Pod>, dnsName: string)
    ensures var r := Enriched(nodes, conn, srcPod, dstPod, dnsName);
      r.Some? ==>
        && srcPod.Some? && SourceOf(nodes, srcPod.value, r.value)
        && if r.value.dstIp.IsPrivate() then PrivateDestinationOf(nodes, dstPod, r.value)
           else PublicDestinationOf(dnsName, r.value)
  {
    var r := Enriched(nodes, conn, srcPod, dstPod, dnsName);
    if r.Some? {
      var key := srcPod.value.node;
      var name := if key in nodes.byName && nodes.byName[key] != [] then nodes.byName[key][0].name else "";
      assert Locates(nodes.byName, key, name, r.value.srcZone);
    }
  }

  predicate Several<K>(nodes: map<K, seq<Node>>, key: K) {
    key in nodes && |nodes[key]| > 1
  }

  /** The metric is about the same flow as the item and reports the same counters. */
  predicate Keeps(conn: Item, m: PodMetric) {
    && m.srcIp == FromInt32(conn.srcIp) && m.dstIp == FromInt32(conn.dstIp)
    && m.words == conn.words && m.proto == conn.proto
  }

  /** The lookups behind one enrichment: the pods answered, and the table between them. */
  datatype Lookups = Lookups(srcPod: Option<Pod>, dstPod: Option<Pod>, between: Table)

  predicate AsksDestination(nodes: Nodes, conn: Item, srcPod: Option<Pod>) {
    srcPod.Some? && !NodeByName(nodes, srcPod.value.node).Ambiguous? && FromInt32(conn.dstIp).IsPrivate()
  }

  /** The lookups are possible ones from table `t`, in this order, leading to `t'`. */
  ghost predicate Possible(nodes: Nodes, conn: Item, l: Lookups, t: Table, t': Table) {
    && GetStep(t, FromInt32(conn.srcIp), l.srcPod, l.between)
    && if AsksDestination(nodes, conn, l.srcPod) then GetStep(l.between, FromInt32(conn.dstIp), l.dstPod, t')
       else l.dstPod == None && t' == l.between
  }

  datatype Batch = Batch(items: seq<Item>, domains: seq<Mapping>, at: int)

  /** The items of a sequence of batches in arrival order, each with its batch number. */
  function Arrivals(bs: seq<Batch>): seq<(Item, nat)> {
    if |bs| == 0 then []
    else Arrivals(Front(bs)) + Numbered(Last(bs).items, |bs| - 1)
  }

  function Numbered(items: seq<Item>, b: nat): seq<(Item, nat)> {
    seq(|items|, i requires 0 <= i < |items| => (items[i], b))
  }

  lemma NumberedSnoc(items: seq<Item>, i: nat, b: nat)
    requires i < |items|
    ensures Numbered(items[..i + 1], b) == Numbered(items[..i], b) + [(items[i], b)]
  {
  }

  /** The exporter's names once the mappings of some batches are filled in. */
  function Mappings(m: map<Int32, Cached>, bs: seq<Batch>): map<Int32, Cached> {
    if |bs| == 0 then m else Filled(Mappings(m, Front(bs)), Last(bs).domains, Last(bs).at)
  }

  /** One enrichment: the item and its batch, the lookups with the pod tables around
      them, and the result. */
  datatype Attempt = Attempt(item: Item, batch: nat, lookups: Lookups, before: Table, after: Table,
                             result: Option<PodMetric>)

  function Tried(log: seq<Attempt>): (items: seq<(Item, nat)>)
    ensures |items| == |log| && forall i :: 0 <= i < |log| ==> items[i] == (log[i].item, log[i].batch)
  {
    seq(|log|, i requires 0 <= i < |log| => (log[i].item, log[i].batch))
  }

  /** The pod table passes from each attempt to the next. */
  ghost predicate Chained(log: seq<Attempt>, t: Table, t': Table) {
    if |log| == 0 then t == t' else Chained(Front(log), t, Last(log).before) && Last(log).after == t'
  }

  /** The attempt's lookups were possible, and its result is their enrichment with the
      name known once its own batch was filled in. */
  ghost predicate Honest(nodes: Nodes, m: map<Int32, Cached>, bs: seq<Batch>, a: Attempt) {
    && a.batch < |bs| && Possible(nodes, a.item, a.lookups, a.before, a.after)
    && a.result == Enriched(nodes, a.item, a.lookups.srcPod, a.lookups.dstPod,
                            NameFor(Mappings(m, bs[..a.batch + 1]), a.item.dstIp, bs[a.batch].at))
  }

  ghost predicate AllHonest(nodes: Nodes, m: map<Int32, Cached>, bs: seq<Batch>, log: seq<Attempt>) {
    forall i :: 0 <= i < |log| ==> Honest(nodes, m, bs, log[i])
  }

  lemma LogOne(nodes: Nodes, m: map<Int32, Cached>, bs: seq<Batch>, log: seq<Attempt>, a: Attempt, t: Table)
    requires AllHonest(nodes, m, bs, log) && Honest(nodes, m, bs, a) && Chained(log, t, a.before)
    ensures AllHonest(nodes, m, bs, log + [a]) && Chained(log + [a], t, a.after)
    ensures Tried(log + [a]) == Tried(log) + [(a.item, a.batch)]
    ensures Successes(log + [a]) == Successes(log) + if a.result.Some? then [a.result.value] else []
  {
    assert Front(log + [a]) == log;
    HonestConcat(nodes, m, bs, log, [a]);
  }

  function Successes(log: seq<Attempt>): seq<PodMetric> {
    if |log| == 0 then []
    else Successes(Front(log)) + if Last(log).result.Some? then [Last(log).result.value] else []
  }

  /** In whatever order batches arrive, an exported item with a public destination listed
      in its own batch carries that batch's last name for it. */
  lemma OwnBatchNames(nodes: Nodes, m: map<Int32, Cached>, bs: seq<Batch>, a: Attempt)
    requires Honest(nodes, m, bs, a) && a.result.Some?
    requires a.item.dstIp != 0 && !FromInt32(a.item.dstIp).IsPrivate()
    requires LastMapping(bs[a.batch].domains, a.item.dstIp).Some?
    ensures a.result.value.dstDnsName == LastMapping(bs[a.batch].domains, a.item.dstIp).value
  {
    var upTo := bs[..a.batch + 1];
    assert Last(upTo) == bs[a.batch];
    FilledGivesLast(Mappings(m, Front(upTo)), bs[a.batch].domains, bs[a.batch].at, a.item.dstIp, bs[a.batch].at);
  }

  // ---------- what exported metrics say ----------

  /** The latest of some batches that lists an address. */
  ghost function LatestListing(bs: seq<Batch>, ip: Int32): (i: Option<nat>)
    ensures i.Some? ==> i.value < |bs| && LastMapping(bs[i.value].domains, ip).Some?
    ensures i.Some? ==> forall j :: i.value < j < |bs| ==> LastMapping(bs[j].domains, ip).None?
    ensures i.None? ==> forall j :: 0 <= j < |bs| ==> LastMapping(bs[j].domains, ip).None?
  {
    if |bs| == 0 then None
    else if LastMapping(Last(bs).domains, ip).Some? then Some(|bs| - 1)
    else LatestListing(Front(bs), ip)
  }

  /** The name batches give an address: the last mapping of the latest batch that lists it,
      for an hour; without such a batch, the name held before. */
  ghost function Named(m: map<Int32, Cached>, bs: seq<Batch>, ip: Int32, now: int): Option<string> {
    var i := LatestListing(bs, ip);
    if i.None? then Find(m, ip, now)
    else if now <= bs[i.value].at + 3_600_000_000_000 then LastMapping(bs[i.value].domains, ip)
    else None
  }

  lemma {:induction false} MappingsAreHistory(m: map<Int32, Cached>, bs: seq<Batch>, ip: Int32, now: int)
    ensures Find(Mappings(m, bs), ip, now) == Named(m, bs, ip, now)
  {
    if |bs| > 0 {
      MappingsAreHistory(m, Front(bs), ip, now);
      FilledGivesLast(Mappings(m, Front(bs)), Last(bs).domains, Last(bs).at, ip, now);
    }
  }

  /** The name a public destination of batch `b` is exported with: what the batches up to
      its own give it, empty if nothing, and empty for 0.0.0.0. */
  ghost predicate NamedBy(m: map<Int32, Cached>, bs: seq<Batch>, b: nat, ip: Int32, name: string)
    requires b < |bs|
  {
    var known := Named(m, bs[..b + 1], ip, bs[b].at);
    if ip == 0 || known.None? then name == "" else name == known.value
  }

  /** The lookups behind a successful enrichment found what the index held: the source pod
      before, and at a private destination a pod of the table between, if any. */
  lemma LookupsResolve(nodes: Nodes, conn: Item, l: Lookups, t: Table, t': Table, dnsName: string)
    requires Possible(nodes, conn, l, t, t')
    ensures Resolves(t, FromInt32(conn.srcIp), l.srcPod)
    ensures Enriched(nodes, conn, l.srcPod, l.dstPod, dnsName).Some? && FromInt32(conn.dstIp).IsPrivate() ==>
      Resolves(l.between, FromInt32(conn.dstIp), l.dstPod)
  {
    GetResolves(t, FromInt32(conn.srcIp), l.srcPod, l.between);
    if AsksDestination(nodes, conn, l.srcPod) {
      GetResolves(l.between, FromInt32(conn.dstIp), l.dstPod, t');
    }
  }

  /** End to end for one exported metric: its source attributes are those of a pod indexed
      at the source address and of that pod's one node; those of a private destination
      come from a pod indexed there and its one node, or from the one node there; a
      public destination has the name the batches give it. */
  lemma ExportedAttributes(nodes: Nodes, m: map<Int32, Cached>, bs: seq<Batch>, a: Attempt)
    requires Honest(nodes, m, bs, a) && a.result.Some?
    ensures var r := a.result.value;
      && Resolves(a.before, r.srcIp, a.lookups.srcPod)
      && a.lookups.srcPod.Some? && SourceOf(nodes, a.lookups.srcPod.value, r)
      && (r.dstIp.IsPrivate() ==>
            Resolves(a.lookups.between, r.dstIp, a.lookups.dstPod) && PrivateDestinationOf(nodes, a.lookups.dstPod, r))
      && (!r.dstIp.IsPrivate() ==>
            PublicDestinationOf(r.dstDnsName, r) && NamedBy(m, bs, a.batch, a.item.dstIp, r.dstDnsName))
  {
    var l, name := a.lookups, NameFor(Mappings(m, bs[..a.batch + 1]), a.item.dstIp, bs[a.batch].at);
    HonestKeeps(nodes, m, bs, a);
    LookupsResolve(nodes, a.item, l, a.before, a.after, name);
    EnrichedAttributes(nodes, a.item, l.srcPod, l.dstPod, name);
    MappingsAreHistory(m, bs[..a.batch + 1], a.item.dstIp, bs[a.batch].at);
  }

  class Exporter {
    const pods: PodByIPCache
    const dns: DnsStorage
    const nodes: Nodes

    constructor (pods: PodByIPCache, dns: DnsStorage, nodes: Nodes)
      ensures this.pods == pods && this.dns == dns && this.nodes == nodes
    {
      this.pods, this.dns, this.nodes := pods, dns, nodes;
    }

    method Build(conn: Item, now: int) returns (r: Option<PodMetric>, ghost l: Lookups)
      modifies pods
      ensures Possible(nodes, conn, l, old(pods.Now()), pods.Now())
      ensures r == Enriched(nodes, conn, l.srcPod, l.dstPod, NameFor(dns.ipToName, conn.dstIp, now))
      ensures r.Some? ==> l.srcPod.Some? && SourceOf(nodes, l.srcPod.value, r.value)
      ensures r.Some? && r.value.dstIp.IsPrivate() ==> PrivateDestinationOf(nodes, l.dstPod, r.value)
    {
      var srcIP, dstIP := FromInt32(conn.srcIp), FromInt32(conn.dstIp);
      WireRoundTripBack(conn.dstIp);
      var pod := pods.Get(srcIP);
      l := Lookups(pod, None, pods.Now());
      if pod.None? {
        return None, l;
      }
      var metric := PodMetric(srcIP, pod.value.name, pod.value.namespace, pod.value.node, "",
                              dstIP, "", "", "", "", "", conn.words, conn.proto);
      var srcNode := NodeByName(nodes, pod.value.node);
      if srcNode.Ambiguous? {
        return None, l;
      }
      if srcNode.Hit? {
        metric := metric.(srcZone := srcNode.node.zone);
      }
      if dstIP.IsPrivate() {
        var dstPod := pods.Get(dstIP);
        l := Lookups(pod, dstPod, l.between);
        var dstNode;
        if dstPod.Some? {
          metric := metric.(dstPod := dstPod.value.name, dstNamespace := dstPod.value.namespace);
          dstNode := NodeByName(nodes, dstPod.value.node);
        } else {
          dstNode := NodeByIP(nodes, dstIP);
        }
        if dstNode.Ambiguous? {
          return None, l;
        }
        if dstNode.Hit? {
          metric := metric.(dstNode := dstNode.node.name, dstZone := dstNode.node.zone);
        }
      } else {
        var name := dns.Lookup(ToInt32(dstIP), now);
        metric := metric.(dstDnsName := name);
      }
      r := Some(metric);
      EnrichedAttributes(nodes, conn, l.srcPod, l.dstPod, NameFor(dns.ipToName, conn.dstIp, now));
    }

    /** Enriches one item of batch `b`. */
    method Try(item: Item, bs: seq<Batch>, b: nat, ghost m: map<Int32, Cached>)
      returns (r: Option<PodMetric>, ghost a: Attempt)
      requires b < |bs| && dns.ipToName == Mappings(m, bs[..b + 1])
      modifies pods
      ensures a.item == item && a.batch == b && a.result == r && Honest(nodes, m, bs, a)
      ensures a.before == old(pods.Now()) && a.after == pods.Now()
    {
      ghost var before := pods.Now();
      ghost var l;
      r, l := Build(item, bs[b].at);
      a := Attempt(item, b, l, before, pods.Now(), r);
    }

    /** Enriches the items of batch `b`, whose mappings have been filled in. */
    method BuildBatch(bs: seq<Batch>, b: nat, ghost m: map<Int32, Cached>)
      returns (out: seq<PodMetric>, ghost log: seq<Attempt>)
      requires b < |bs| && dns.ipToName == Mappings(m, bs[..b + 1])
      modifies pods
      ensures Tried(log) == Numbered(bs[b].items, b) && out == Successes(log)
      ensures Chained(log, old(pods.Now()), pods.Now()) && AllHonest(nodes, m, bs, log)
    {
      out, log := [], [];
      var items := bs[b].items;
      for i := 0 to |items|
        invariant Tried(log) == Numbered(items[..i], b) && out == Successes(log)
        invariant Chained(log, old(pods.Now()), pods.Now()) && AllHonest(nodes, m, bs, log)
        invariant dns.ipToName == Mappings(m, bs[..b + 1])
      {
        var r, a := Try(items[i], bs, b, m);
        LogOne(nodes, m, bs, log, a, old(pods.Now()));
        NumberedSnoc(items, i, b);
        log := log + [a];
        if r.Some? {
          out := out + [r.value];
        }
      }
      assert items[..|items|] == items;
    }

    /** Fills in the mappings of batch `b`, then enriches its items. */
    method TakeBatch(bs: seq<Batch>, b: nat, ghost m: map<Int32, Cached>)
      returns (out: seq<PodMetric>, ghost log: seq<Attempt>)
      requires b < |bs| && dns.ipToName == Mappings(m, bs[..b])
      modifies pods, dns
      ensures dns.ipToName == Mappings(m, bs[..b + 1])
      ensures Tried(log) == Numbered(bs[b].items, b) && out == Successes(log)
      ensures Chained(log, old(pods.Now()), pods.Now()) && AllHonest(nodes, m, bs, log)
    {
      assert Front(bs[..b + 1]) == bs[..b];
      dns.Fill(bs[b].domains, bs[b].at);
      out, log := BuildBatch(bs, b, m);
    }

    /** Drains any sequence of batches: every item is tried once, in arrival order, and
        each success is one output in the same order. */
    method Aggregate(bs: seq<Batch>) returns (out: seq<PodMetric>, ghost log: seq<Attempt>)
      modifies pods, dns
      ensures Tried(log) == Arrivals(bs) && out == Successes(log)
      ensures Chained(log, old(pods.Now()), pods.Now()) && AllHonest(nodes, old(dns.ipToName), bs, log)
    {
      out, log := [], [];
      ghost var m := dns.ipToName;
      for b := 0 to |bs|
        invariant Tried(log) == Arrivals(bs[..b]) && out == Successes(log)
        invariant Chained(log, old(pods.Now()), pods.Now()) && dns.ipToName == Mappings(m, bs[..b])
        invariant AllHonest(nodes, m, bs, log)
      {
        ghost var middle := pods.Now();
        var more, moreLog := TakeBatch(bs, b, m);
        HonestConcat(nodes, m, bs, log, moreLog);
        TriedConcat(bs, b, log, moreLog);
        SuccessesConcat(log, moreLog);
        ChainedConcat(log, moreLog, old(pods.Now()), middle, pods.Now());
        out, log := out + more, log + moreLog;
      }
      assert bs[..|bs|] == bs;
    }
  }

  lemma HonestConcat(nodes: Nodes, m: map<Int32, Cached>, bs: seq<Batch>, xs: seq<Attempt>, ys: seq<Attempt>)
    requires AllHonest(nodes, m, bs, xs) && AllHonest(nodes, m, bs, ys)
    ensures AllHonest(nodes, m, bs, xs + ys)
  {
    forall i | 0 <= i < |xs + ys| ensures Honest(nodes, m, bs, (xs + ys)[i]) {
      if i < |xs| {
        assert (xs + ys)[i] == xs[i];
      } else {
        assert (xs + ys)[i] == ys[i - |xs|];
      }
    }
  }

  lemma TriedConcat(bs: seq<Batch>, b: nat, xs: seq<Attempt>, ys: seq<Attempt>)
    requires b < |bs| && Tried(xs) == Arrivals(bs[..b]) && Tried(ys) == Numbered(bs[b].items, b)
    ensures Tried(xs + ys) == Arrivals(bs[..b + 1])
  {
    assert Front(bs[..b + 1]) == bs[..b];
    assert Tried(xs + ys) == Tried(xs) + Tried(ys);
  }

  lemma {:induction false} ChainedConcat(xs: seq<Attempt>, ys: seq<Attempt>, t: Table, u: Table, v: Table)
    requires Chained(xs, t, u) && Chained(ys, u, v)
    ensures Chained(xs + ys, t, v)
    decreases |ys|
  {
    if |ys| == 0 {
      assert xs + ys == xs;
    } else {
      assert Front(xs + ys) == xs + Front(ys);
      ChainedConcat(xs, Front(ys), t, u, Last(ys).before);
    }
  }

  lemma {:induction false} SuccessesConcat(xs: seq<Attempt>, ys: seq<Attempt>)
    ensures Successes(xs + ys) == Successes(xs) + Successes(ys)
    decreases |ys|
  {
    if |ys| == 0 {
      assert xs + ys == xs;
    } else {
      assert Front(xs + ys) == xs + Front(ys);
      SuccessesConcat(xs, Front(ys));
    }
  }

  // ---------- conservation ----------

  function Exported(out: seq<PodMetric>, c: Counter): int {
    if |out| == 0 then 0 else Exported(Front(out), c) + Last(out).words.At(c)
  }

  /** The counters of the raw items whose enrichment succeeded. */
  function Taken(log: seq<Attempt>, c: Counter): int {
    if |log| == 0 then 0
    else Taken(Front(log), c) + if Last(log).result.Some? then Last(log).item.words.At(c) else 0
  }

  lemma HonestKeeps(nodes: Nodes, m: map<Int32, Cached>, bs: seq<Batch>, a: Attempt)
    requires Honest(nodes, m, bs, a) && a.result.Some?
    ensures Keeps(a.item, a.result.value)
  {
    EnrichedKeeps(nodes, a.item, a.lookups.srcPod, a.lookups.dstPod,
                  NameFor(Mappings(m, bs[..a.batch + 1]), a.item.dstIp, bs[a.batch].at));
  }

  /** Conservation: exported counters are exactly those of the raw items whose enrichment
      succeeded. */
  lemma {:induction false} ExportConserves(nodes: Nodes, m: map<Int32, Cached>, bs: seq<Batch>, log: seq<Attempt>, c: Counter)
    requires AllHonest(nodes, m, bs, log)
    ensures Exported(Successes(log), c) == Taken(log, c)
  {
    if |log| > 0 {
      ExportConserves(nodes, m, bs, Front(log), c);
      var a, rest := log[|log| - 1], Successes(Front(log));
      if a.result.Some? {
        HonestKeeps(nodes, m, bs, a);
        assert Front(rest + [a.result.value]) == rest;
      } else {
        assert rest + [] == rest;
      }
    }
  }
}
