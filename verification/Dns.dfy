/** Names for addresses: what the tracer's answers leave in the collector's cache, and
    what the exporter keeps of the mappings it is sent. */
module Dns {
  import opened Basics
  import opened Net

  /** A value in a cache with expiry; it is found until its expiry instant has passed. */
  datatype Cached = Cached(value: string, expires: int)

  function Find<K>(m: map<K, Cached>, k: K, now: int): Option<string> {
    if k in m && now <= m[k].expires then Some(m[k].value) else None
  }

  // ---------- collector ----------

  const ANSWER_TTL: int := 120_000_000_000

  /** A DNS answer: an address of a name, a canonical name of an alias (section 3.6.2 of
      RFC 1034), or a record type that is ignored. */
  datatype Answer = A(name: string, ip: IPv4) | CNAME(name: string, target: string) | Other

  datatype Timed = Timed(at: int, answer: Answer)

  datatype Names = Names(byIP: map<Int32, Cached>, byCname: map<string, Cached>)

  function Learn(n: Names, t: Timed): Names {
    match t.answer
    case A(name, ip) =>
      var alias := Find(n.byCname, name, t.at);
      n.(byIP := n.byIP[ToInt32(ip) := Cached(if alias.Some? then alias.value else name, t.at + ANSWER_TTL)])
    case CNAME(name, target) => n.(byCname := n.byCname[target := Cached(name, t.at + ANSWER_TTL)])
    case Other => n
  }

  function LearnAll(n: Names, ts: seq<Timed>): Names {
    if |ts| == 0 then n else Learn(LearnAll(n, Front(ts)), Last(ts))
  }

  class IP2DNS {
    var ipToName: map<Int32, Cached>
    var cnameToName: map<string, Cached>

    function Now(): Names
      reads this
    {
      Names(ipToName, cnameToName)
    }

    constructor ()
      ensures Now() == Names(map[], map[])
    {
      ipToName, cnameToName := map[], map[];
    }

    /** Processes the answers of one event, each at its own instant. */
    method Process(answers: seq<Timed>)
      modifies this
      ensures Now() == LearnAll(old(Now()), answers)
    {
      for i := 0 to |answers|
        invariant Now() == LearnAll(old(Now()), answers[..i])
      {
        assert Front(answers[..i + 1]) == answers[..i];
        match answers[i].answer {
          case A(n, ip) =>
            var name := n;
            var cname := Find(cnameToName, name, answers[i].at);
            if cname.Some? {
              name := cname.value;
            }
            ipToName := ipToName[ToInt32(ip) := Cached(name, answers[i].at + ANSWER_TTL)];
          case CNAME(name, cname) =>
            cnameToName := cnameToName[cname := Cached(name, answers[i].at + ANSWER_TTL)];
          case Other => continue;
        }
      }
      assert answers[..|answers|] == answers;
    }

    /** The batch mappings: one per stored address, in some order. An expired address
        that is still stored is reported with an empty name. */
    method Records(now: int) returns (items: seq<Mapping>)
      ensures IsReport(ipToName, now, items)
    {
      items := [];
      var todo := ipToName.Keys;
      while todo != {}
        invariant todo <= ipToName.Keys
        invariant IsReport(ipToName - todo, now, items)
      {
        var ip :| ip in todo;
        var domain := Find(ipToName, ip, now);
        ReportOneMore(ipToName, todo, now, items, ip);
        todo := todo - {ip};
        items := items + [Mapping(ip, if domain.Some? then domain.value else "")];
      }
      assert ipToName - {} == ipToName;
    }
  }

  /** The mappings report each stored address exactly once. */
  ghost predicate IsReport(m: map<Int32, Cached>, now: int, items: seq<Mapping>) {
    && |items| == |m|
    && forall ip: Int32 :: LastMapping(items, ip) ==
        if ip !in m then None else Some(if Find(m, ip, now).Some? then Find(m, ip, now).value else "")
  }

  lemma ReportOneMore(m: map<Int32, Cached>, todo: set<Int32>, now: int, items: seq<Mapping>, ip: Int32)
    requires todo <= m.Keys && ip in todo && IsReport(m - todo, now, items)
    ensures IsReport(m - (todo - {ip}), now,
      items + [Mapping(ip, if Find(m, ip, now).Some? then Find(m, ip, now).value else "")])
  {
    var it := Mapping(ip, if Find(m, ip, now).Some? then Find(m, ip, now).value else "");
    assert Front(items + [it]) == items;
    OneMoreKey(m, todo, ip);
    assert forall i :: i in m - (todo - {ip}) <==> i in m - todo || i == ip;
  }

  lemma OneMoreKey(m: map<Int32, Cached>, todo: set<Int32>, ip: Int32)
    requires todo <= m.Keys && ip in todo
    ensures |m - (todo - {ip})| == |m - todo| + 1
  {
    assert (m - (todo - {ip})).Keys == (m - todo).Keys + {ip};
    assert |(m - (todo - {ip})).Keys| == |(m - todo).Keys| + 1;
  }

  /** From answers to exported name: a batch reporting the collector's names at `now` makes
      the exporter resolve an address to the name the answers attribute to it, for as
      long as the exporter keeps it. */
  lemma NamesReachTheExporter(ts: seq<Timed>, items: seq<Mapping>, now: int, stored: map<Int32, Cached>,
                              filled: int, later: int, ip: IPv4)
    requires IsReport(LearnAll(Names(map[], map[]), ts).byIP, now, items)
    requires Attributed(ts, ip, now).Some? && later <= filled + STORAGE_TTL
    ensures Find(Filled(stored, items, filled), ToInt32(ip), later) == Attributed(ts, ip, now)
  {
    AttributionIsHistory(ts, ip, now);
    FilledGivesLast(stored, items, filled, ToInt32(ip), later);
  }

  /** Erasure: a report replaces a name the exporter still holds by the empty one exactly
      for an address that is stored with an expired or empty name. */
  lemma RecordsEraseIff(m: map<Int32, Cached>, items: seq<Mapping>, now: int, stored: map<Int32, Cached>,
                        filled: int, later: int, ip: Int32)
    requires IsReport(m, now, items) && later <= filled + STORAGE_TTL
    requires Find(stored, ip, later).Some? && Find(stored, ip, later).value != ""
    ensures Find(Filled(stored, items, filled), ip, later) == Some("") <==>
      ip in m && (now > m[ip].expires || m[ip].value == "")
  {
    FilledGivesLast(stored, items, filled, ip, later);
    assert LastMapping(items, ip) ==
      if ip !in m then None else Some(if Find(m, ip, now).Some? then Find(m, ip, now).value else "");
  }

  /** Position of the latest answer giving address `ip`. */
  ghost function LatestA(ts: seq<Timed>, ip: IPv4): Option<nat> {
    if |ts| == 0 then None
    else if Last(ts).answer.A? && Last(ts).answer.ip == ip then Some(|ts| - 1)
    else LatestA(Front(ts), ip)
  }

  /** Position of the latest answer naming `target` as canonical. */
  ghost function LatestCname(ts: seq<Timed>, target: string): Option<nat> {
    if |ts| == 0 then None
    else if Last(ts).answer.CNAME? && Last(ts).answer.target == target then Some(|ts| - 1)
    else LatestCname(Front(ts), target)
  }

  lemma {:induction false} LatestBounds(ts: seq<Timed>, ip: IPv4, target: string)
    ensures LatestA(ts, ip).Some? ==> var i := LatestA(ts, ip).value;
      i < |ts| && ts[i].answer.A? && ts[i].answer.ip == ip &&
      forall j :: i < j < |ts| ==> !(ts[j].answer.A? && ts[j].answer.ip == ip)
    ensures LatestCname(ts, target).Some? ==> var i := LatestCname(ts, target).value;
      i < |ts| && ts[i].answer.CNAME? && ts[i].answer.target == target &&
      forall j :: i < j < |ts| ==> !(ts[j].answer.CNAME? && ts[j].answer.target == target)
  {
    if |ts| > 0 {
      LatestBounds(Front(ts), ip, target);
    }
  }

  /** The alias under which `name` was last asked for, if no more than two minutes before `now`. */
  ghost function Alias(ts: seq<Timed>, name: string, now: int): Option<string> {
    LatestBounds(ts, ANY, name);
    var i := LatestCname(ts, name);
    if i.Some? && now <= ts[i.value].at + 120_000_000_000 then Some(ts[i.value].answer.name) else None
  }

  /** The name a stream of answers attributes to `ip` at `now`. */
  ghost function Attributed(ts: seq<Timed>, ip: IPv4, now: int): Option<string> {
    LatestBounds(ts, ip, "");
    var i := LatestA(ts, ip);
    if i.None? || now > ts[i.value].at + 120_000_000_000 then None else
      var a := ts[i.value];
      var alias := Alias(ts[..i.value], a.answer.name, a.at);
      Some(if alias.Some? then alias.value else a.answer.name)
  }

  lemma {:induction false} AliasIsHistory(ts: seq<Timed>, name: string, now: int)
    ensures Find(LearnAll(Names(map[], map[]), ts).byCname, name, now) == Alias(ts, name, now)
  {
    if |ts| > 0 {
      AliasIsHistory(Front(ts), name, now);
      LatestBounds(Front(ts), ANY, name);
    }
  }

  lemma AttributedStep(ts: seq<Timed>, ip: IPv4, now: int)
    requires |ts| > 0
    ensures var pre, t := Front(ts), Last(ts);
      Attributed(ts, ip, now) ==
        if !t.answer.A? || t.answer.ip != ip then Attributed(pre, ip, now)
        else if now > t.at + 120_000_000_000 then None
        else if Alias(pre, t.answer.name, t.at).Some? then Alias(pre, t.answer.name, t.at)
        else Some(t.answer.name)
  {
    var pre := Front(ts);
    LatestBounds(pre, ip, "");
    assert ts[..|ts| - 1] == pre;
    if LatestA(pre, ip).Some? {
      assert pre[..LatestA(pre, ip).value] == ts[..LatestA(pre, ip).value];
    }
  }

  /** Attribution is a function of history: the name held for an address is that of its
      latest A answer of the last two minutes, renamed once through the latest CNAME that targeted it
      before and was fresh then. */
  lemma {:induction false} AttributionIsHistory(ts: seq<Timed>, ip: IPv4, now: int)
    ensures Find(LearnAll(Names(map[], map[]), ts).byIP, ToInt32(ip), now) == Attributed(ts, ip, now)
  {
    if |ts| > 0 {
      var t := Last(ts);
      AttributionIsHistory(Front(ts), ip, now);
      AttributedStep(ts, ip, now);
      if t.answer.A? {
        SameWireForm(t.answer.ip, ip);
        AliasIsHistory(Front(ts), t.answer.name, t.at);
      }
    }
  }

  // ---------- exporter ----------

  const STORAGE_TTL: int := 3_600_000_000_000

  /** One `IP2Domain` mapping of a batch. */
  datatype Mapping = Mapping(ip: Int32, domain: string)

  function Filled(m: map<Int32, Cached>, items: seq<Mapping>, now: int): map<Int32, Cached> {
    if |items| == 0 then m
    else Filled(m, Front(items), now)[Last(items).ip := Cached(Last(items).domain, now + STORAGE_TTL)]
  }

  /** The last mapping a list gives for an address. */
  function LastMapping(items: seq<Mapping>, ip: Int32): Option<string> {
    if |items| == 0 then None
    else if Last(items).ip == ip then Some(Last(items).domain)
    else LastMapping(Front(items), ip)
  }

  class DnsStorage {
    var ipToName: map<Int32, Cached>

    constructor ()
      ensures ipToName == map[]
    {
      ipToName := map[];
    }

    method Fill(items: seq<Mapping>, now: int)
      modifies this
      ensures ipToName == Filled(old(ipToName), items, now)
    {
      for i := 0 to |items|
        invariant ipToName == Filled(old(ipToName), items[..i], now)
      {
        assert Front(items[..i + 1]) == items[..i];
        ipToName := ipToName[items[i].ip := Cached(items[i].domain, now + STORAGE_TTL)];
      }
      assert items[..|items|] == items;
    }

    /** The stored name, empty when there is none or the address is 0.0.0.0. */
    method Lookup(ip: Int32, now: int) returns (name: string)
      ensures name == NameFor(ipToName, ip, now)
    {
      if ip == 0 {
        return "";
      }
      var value := Find(ipToName, ip, now);
      name := if value.Some? then value.value else "";
    }
  }

  function NameFor(m: map<Int32, Cached>, ip: Int32, now: int): string {
    if ip == 0 || Find(m, ip, now).None? then "" else Find(m, ip, now).value
  }

  /** After a fill, a listed address resolves to its last mapping for the hour and to
      nothing from then on, and an unlisted one as before. */
  lemma {:induction false} FilledGivesLast(m: map<Int32, Cached>, items: seq<Mapping>, now: int, ip: Int32, later: int)
    ensures LastMapping(items, ip).Some? && later <= now + 3_600_000_000_000 ==>
      Find(Filled(m, items, now), ip, later) == LastMapping(items, ip)
    ensures LastMapping(items, ip).Some? && later > now + 3_600_000_000_000 ==>
      Find(Filled(m, items, now), ip, later) == None
    ensures LastMapping(items, ip).None? ==> Find(Filled(m, items, now), ip, later) == Find(m, ip, later)
  {
    if |items| > 0 {
      FilledGivesLast(m, Front(items), now, ip, later);
    }
  }
}
