/** Conntrack entries and the netfilter client that lists them. */
module Conntrack {
  import opened Basics
  import opened Counters
  import opened Net
  import opened Ledger

  /** Counters as conntrack stores them, each a `uint64`. */
  type Counts = t: Traffic |
    t.txBytes < TWO64 && t.txPackets < TWO64 && t.rxBytes < TWO64 && t.rxPackets < TWO64
    witness ZERO

  /** A listed entry. Only its destination is ever reassigned: by the service remap
      below, and by the collector when it groups public destinations. */
  class Entry {
    const src: Endpoint
    var dst: Endpoint
    const counters: Counts
    const lifetime: int
    const proto: Byte

    constructor (src: Endpoint, dst: Endpoint, counters: Counts, lifetime: int, proto: Byte)
      ensures this.src == src && this.dst == dst && this.counters == counters
      ensures this.lifetime == lifetime && this.proto == proto
    {
      this.src, this.dst, this.counters, this.lifetime, this.proto := src, dst, counters, lifetime, proto;
    }

    function Key(): ConnKey
      reads this
    {
      ConnKey(src, dst, proto)
    }

    function View(): Reading
      reads this
    {
      Reading(Key(), counters, lifetime)
    }
  }

  function Views(es: seq<Entry>): (rs: seq<Reading>)
    reads es
    ensures |rs| == |es| && forall i :: 0 <= i < |es| ==> rs[i] == es[i].View()
  {
    seq(|es|, i requires 0 <= i < |es| reads es => es[i].View())
  }

  ghost predicate Distinct(es: seq<Entry>) {
    forall i, j :: 0 <= i < j < |es| ==> es[i] != es[j]
  }

  // ---------- netfilter sessions ----------

  type UInt32 = x: int | 0 <= x < 0x1_0000_0000

  datatype Ports = Ports(number: Option<Byte>, src: Option<UInt16>, dst: Option<UInt16>)
  datatype Flow = Flow(src: Option<IPv4>, dst: Option<IPv4>, proto: Option<Ports>)
  datatype Volume = Volume(bytes: Option<UInt64>, packets: Option<UInt64>)

  /** A dumped session; every pointer of the original may be nil. */
  datatype Session = Session(origin: Option<Flow>, reply: Option<Flow>,
                             sent: Option<Volume>, received: Option<Volume>, timeout: Option<UInt32>)

  const SECOND: int := 1_000_000_000

  /** The nil checks that decide whether a session is skipped. They test the origin's
      source and the reply's destination. */
  predicate Accepted(s: Session) {
    && s.origin.Some? && s.origin.value.src.Some? && s.origin.value.proto.Some?
    && s.origin.value.proto.value.src.Some? && s.origin.value.proto.value.dst.Some?
    && s.reply.Some? && s.reply.value.dst.Some? && s.reply.value.proto.Some?
    && s.reply.value.proto.value.src.Some? && s.reply.value.proto.value.dst.Some?
    && s.sent.Some? && s.received.Some?
  }

  /** The pointers followed without a check: the origin's destination, the reply's
      source, the protocol number and the four counters. */
  predicate Readable(s: Session)
    requires Accepted(s)
  {
    && s.origin.value.dst.Some? && s.reply.value.src.Some? && s.origin.value.proto.value.number.Some?
    && s.sent.value.bytes.Some? && s.sent.value.packets.Some?
    && s.received.value.bytes.Some? && s.received.value.packets.Some?
  }

  predicate Crashes(s: Session) {
    Accepted(s) && !Readable(s)
  }

  /** The forward entry of a session. Its destination is where replies come from, so a
      connection to a service address is listed under the pod that answered. */
  function Forward(s: Session, now: int): Reading
    requires Accepted(s) && Readable(s)
  {
    var o, r := s.origin.value, s.reply.value;
    Reading(
      ConnKey(Endpoint(o.src.value, o.proto.value.src.value),
              Endpoint(r.src.value, r.proto.value.src.value),
              o.proto.value.number.value),
      Traffic(s.sent.value.bytes.value, s.sent.value.packets.value,
              s.received.value.bytes.value, s.received.value.packets.value),
      if s.timeout.Some? then now + SECOND * s.timeout.value else 0)
  }

  function Mirror(r: Reading): Reading {
    Reading(r.key.Mirrored(), r.counters.Mirrored(), r.lifetime)
  }

  /** A reading and its mirror image, each kept when its source is tracked. */
  function Pair(r: Reading, tracked: set<IPv4>): seq<Reading> {
    (if r.key.src.ip in tracked then [r] else []) +
    (if r.key.dst.ip in tracked then [Mirror(r)] else [])
  }

  function SessionEntries(s: Session, tracked: set<IPv4>, now: int): seq<Reading> {
    if Accepted(s) && Readable(s) then Pair(Forward(s, now), tracked) else []
  }

  /** Everything listed for a dump, in dump order. */
  function Listing(ss: seq<Session>, tracked: set<IPv4>, now: int): seq<Reading> {
    if |ss| == 0 then []
    else Listing(Front(ss), tracked, now) + SessionEntries(Last(ss), tracked, now)
  }

  /** A session with every field that is read: the origin goes from `src` to `dst`, replies
      come from `answered`, and `counts` are the origin's and the reply's counters. */
  function Whole(src: Endpoint, dst: Endpoint, proto: Byte, answered: Endpoint, back: Endpoint, backProto: Option<Byte>,
                 counts: Counts, timeout: Option<UInt32>): Session
  {
    Session(Some(Flow(Some(src.ip), Some(dst.ip), Some(Ports(Some(proto), Some(src.port), Some(dst.port))))),
            Some(Flow(Some(answered.ip), Some(back.ip), Some(Ports(backProto, Some(answered.port), Some(back.port))))),
            Some(Volume(Some(counts.txBytes), Some(counts.txPackets))),
            Some(Volume(Some(counts.rxBytes), Some(counts.rxPackets))), timeout)
  }

  /** A whole session is listed from its source to the endpoint that answered, whatever
      address it was sent to, and back with sent and received exchanged. Each entry is
      there exactly when its source is tracked, and expires `timeout` seconds from now. */
  lemma WholeSessionListed(src: Endpoint, dst: Endpoint, proto: Byte, answered: Endpoint, back: Endpoint,
                           backProto: Option<Byte>, counts: Counts, timeout: Option<UInt32>,
                           tracked: set<IPv4>, now: int)
    ensures var s := Whole(src, dst, proto, answered, back, backProto, counts, timeout);
      var (tx, txp, rx, rxp) := (counts.txBytes, counts.txPackets, counts.rxBytes, counts.rxPackets);
      var lifetime := if timeout.Some? then now + 1_000_000_000 * timeout.value else 0;
      var there := Reading(ConnKey(src, answered, proto), Traffic(tx, txp, rx, rxp), lifetime);
      var andBack := Reading(ConnKey(answered, src, proto), Traffic(rx, rxp, tx, txp), lifetime);
      && (src.ip in tracked && answered.ip in tracked ==> SessionEntries(s, tracked, now) == [there, andBack])
      && (src.ip in tracked && answered.ip !in tracked ==> SessionEntries(s, tracked, now) == [there])
      && (src.ip !in tracked && answered.ip in tracked ==> SessionEntries(s, tracked, now) == [andBack])
      && (src.ip !in tracked && answered.ip !in tracked ==> SessionEntries(s, tracked, now) == [])
  {
  }

  lemma WholeSessionHas(src: Endpoint, dst: Endpoint, proto: Byte, answered: Endpoint, back: Endpoint,
                        backProto: Option<Byte>, counts: Counts, timeout: Option<UInt32>, tracked: set<IPv4>, now: int,
                        lifetime: int)
    requires lifetime == if timeout.Some? then now + 1_000_000_000 * timeout.value else 0
    ensures var s := Whole(src, dst, proto, answered, back, backProto, counts, timeout);
      var entries := SessionEntries(s, tracked, now);
      var mirrored := Traffic(counts.rxBytes, counts.rxPackets, counts.txBytes, counts.txPackets);
      && (src.ip in tracked ==> Reading(ConnKey(src, answered, proto), counts, lifetime) in entries)
      && (answered.ip in tracked ==> Reading(ConnKey(answered, src, proto), mirrored, lifetime) in entries)
  {
    WholeSessionListed(src, dst, proto, answered, back, backProto, counts, timeout, tracked, now);
  }

  ghost predicate IsWhole(s: Session) {
    exists src, dst, proto, answered, back, backProto, counts, timeout ::
      s == Whole(src, dst, proto, answered, back, backProto, counts, timeout)
  }

  /** A session with the fields that are checked; the others may be missing. */
  function Partial(src: Endpoint, dst: Option<IPv4>, dstPort: UInt16, proto: Option<Byte>,
                   answered: Option<IPv4>, answeredPort: UInt16, back: Endpoint, backProto: Option<Byte>,
                   sent: Volume, received: Volume, timeout: Option<UInt32>): Session
  {
    Session(Some(Flow(Some(src.ip), dst, Some(Ports(proto, Some(src.port), Some(dstPort))))),
            Some(Flow(answered, Some(back.ip), Some(Ports(backProto, Some(answeredPort), Some(back.port))))),
            Some(sent), Some(received), timeout)
  }

  ghost predicate IsPartial(s: Session) {
    exists src, dst, dstPort, proto, answered, answeredPort, back, backProto, sent, received, timeout ::
      s == Partial(src, dst, dstPort, proto, answered, answeredPort, back, backProto, sent, received, timeout)
  }

  lemma AcceptedIffPartial(s: Session)
    ensures Accepted(s) <==> IsPartial(s)
  {
    if Accepted(s) {
      var o, r := s.origin.value, s.reply.value;
      var p, q := o.proto.value, r.proto.value;
      assert s == Partial(Endpoint(o.src.value, p.src.value), o.dst, p.dst.value, p.number, r.src, q.src.value,
                          Endpoint(r.dst.value, q.dst.value), q.number, s.sent.value, s.received.value, s.timeout);
    }
  }

  lemma ReadableIffWhole(s: Session)
    ensures Accepted(s) && Readable(s) <==> IsWhole(s)
  {
    if Accepted(s) && Readable(s) {
      var o, r, v, w := s.origin.value, s.reply.value, s.sent.value, s.received.value;
      var p, q := o.proto.value, r.proto.value;
      var counts: Counts := Traffic(v.bytes.value, v.packets.value, w.bytes.value, w.packets.value);
      assert s == Whole(Endpoint(o.src.value, p.src.value), Endpoint(o.dst.value, p.dst.value), p.number.value,
                        Endpoint(r.src.value, q.src.value), Endpoint(r.dst.value, q.dst.value), q.number,
                        counts, s.timeout);
    }
  }

  /** Only whole sessions are listed; what brings the process down is a session with all
      the checked fields that is not whole. */
  lemma WhatIsListed(s: Session, tracked: set<IPv4>, now: int)
    ensures SessionEntries(s, tracked, now) != [] ==> IsWhole(s)
    ensures Crashes(s) <==> IsPartial(s) && !IsWhole(s)
  {
    AcceptedIffPartial(s);
    ReadableIffWhole(s);
  }

  lemma {:induction false} ListingHas(ss: seq<Session>, k: nat, tracked: set<IPv4>, now: int, r: Reading)
    requires k < |ss| && r in SessionEntries(ss[k], tracked, now)
    ensures r in Listing(ss, tracked, now)
  {
    if k < |ss| - 1 {
      ListingHas(Front(ss), k, tracked, now, r);
    }
  }

  datatype ListResult = Listed(entries: seq<Entry>) | DumpFailed | Crashed

  lemma ListingSnoc(ss: seq<Session>, i: nat, tracked: set<IPv4>, now: int)
    requires i < |ss|
    ensures Listing(ss[..i + 1], tracked, now) == Listing(ss[..i], tracked, now) + SessionEntries(ss[i], tracked, now)
  {
    assert Front(ss[..i + 1]) == ss[..i];
  }

  lemma ViewsConcat(es: seq<Entry>, fs: seq<Entry>)
    ensures Views(es + fs) == Views(es) + Views(fs)
  {
  }

  lemma DistinctConcat(es: seq<Entry>, fs: seq<Entry>)
    requires Distinct(es) && Distinct(fs) && forall e :: e in es ==> e !in fs
    ensures Distinct(es + fs)
  {
    forall i, j | 0 <= i < j < |es + fs| ensures (es + fs)[i] != (es + fs)[j] {
      if i < |es| && j >= |es| {
        assert es[i] in es && fs[j - |es|] in fs;
      }
    }
  }

  /** The entries are distinct objects showing what is listed for the sessions. */
  ghost predicate Lists(es: seq<Entry>, ss: seq<Session>, tracked: set<IPv4>, now: int)
    reads es
  {
    Distinct(es) && Views(es) == Listing(ss, tracked, now)
  }

  lemma ListsMore(es: seq<Entry>, more: seq<Entry>, ss: seq<Session>, i: nat, tracked: set<IPv4>, now: int)
    requires i < |ss| && Lists(es, ss[..i], tracked, now) && Distinct(more) && (forall e :: e in es ==> e !in more)
    requires Views(more) == SessionEntries(ss[i], tracked, now)
    ensures Lists(es + more, ss[..i + 1], tracked, now)
  {
    DistinctConcat(es, more);
    ViewsConcat(es, more);
    ListingSnoc(ss, i, tracked, now);
  }

  /** Translates one session into at most two fresh entries. */
  method Translate(sess: Session, tracked: set<IPv4>, now: int) returns (res: seq<Entry>)
    requires Accepted(sess) && Readable(sess)
    ensures fresh(res) && Distinct(res)
    ensures Views(res) == SessionEntries(sess, tracked, now)
  {
    var origin, reply := sess.origin.value, sess.reply.value;
    var lifetime := 0;
    if sess.timeout.Some? {
      lifetime := now + SECOND * sess.timeout.value;
    }
    var entry := new Entry(
      Endpoint(origin.src.value, origin.proto.value.src.value),
      Endpoint(origin.dst.value, origin.proto.value.dst.value),
      Traffic(sess.sent.value.bytes.value, sess.sent.value.packets.value,
              sess.received.value.bytes.value, sess.received.value.packets.value),
      lifetime, origin.proto.value.number.value);
    var replySrc := Endpoint(reply.src.value, reply.proto.value.src.value);
    if entry.dst != replySrc {
      entry.dst := replySrc;
    }
    res := [];
    if entry.src.ip in tracked {
      res := res + [entry];
    }
    var entry2 := new Entry(entry.dst, entry.src, entry.counters.Mirrored(), entry.lifetime, entry.proto);
    if entry2.src.ip in tracked {
      res := res + [entry2];
    }
  }

  lemma ListsSkip(es: seq<Entry>, ss: seq<Session>, i: nat, tracked: set<IPv4>, now: int)
    requires i < |ss| && !Accepted(ss[i]) && Lists(es, ss[..i], tracked, now)
    ensures Lists(es, ss[..i + 1], tracked, now)
  {
    ListingSnoc(ss, i, tracked, now);
  }

  /** Adds the fresh entries of session `i` to those of the sessions before it, unless the
      session is skipped or brings the process down. */
  method Append(res: seq<Entry>, ss: seq<Session>, i: nat, tracked: set<IPv4>, now: int)
    returns (crashed: bool, more: seq<Entry>)
    requires i < |ss| && Lists(res, ss[..i], tracked, now)
    ensures crashed <==> Crashes(ss[i])
    ensures fresh(more)
    ensures !crashed ==> Lists(res + more, ss[..i + 1], tracked, now)
  {
    crashed, more := false, [];
    if !Accepted(ss[i]) {
      assert res + [] == res;
      ListsSkip(res, ss, i, tracked, now);
    } else if !Readable(ss[i]) {
      crashed := true;
    } else {
      more := Translate(ss[i], tracked, now);
      ListsMore(res, more, ss, i, tracked, now);
    }
  }

  predicate AnyCrashes(ss: seq<Session>) {
    |ss| > 0 && (AnyCrashes(Front(ss)) || Crashes(Last(ss)))
  }

  lemma {:induction false} AnyCrashesIff(ss: seq<Session>)
    ensures AnyCrashes(ss) <==> exists i :: 0 <= i < |ss| && Crashes(ss[i])
  {
    if |ss| > 0 {
      AnyCrashesIff(Front(ss));
      assert Crashes(Last(ss)) <==> Crashes(ss[|ss| - 1]);
      assert forall i :: 0 <= i < |ss| - 1 ==> Front(ss)[i] == ss[i];
    }
  }

  lemma AnyCrashesAt(ss: seq<Session>, i: nat)
    requires i < |ss|
    ensures AnyCrashes(ss[..i + 1]) <==> AnyCrashes(ss[..i]) || Crashes(ss[i])
  {
    assert Front(ss[..i + 1]) == ss[..i];
  }

  lemma CrashIsSome(ss: seq<Session>, i: nat)
    requires i < |ss| && Crashes(ss[i])
    ensures AnyCrashes(ss)
  {
    AnyCrashesIff(ss);
  }

  /** Lists sessions until one of them brings the process down. */
  method ListSessions(ss: seq<Session>, tracked: set<IPv4>, now: int) returns (crashed: bool, res: seq<Entry>)
    ensures crashed <==> AnyCrashes(ss)
    ensures fresh(res)
    ensures !crashed ==> Lists(res, ss, tracked, now)
  {
    crashed, res := false, [];
    for i := 0 to |ss|
      invariant fresh(res) && !crashed && Lists(res, ss[..i], tracked, now)
      invariant !AnyCrashes(ss[..i])
    {
      var more;
      crashed, more := Append(res, ss, i, tracked, now);
      if crashed {
        CrashIsSome(ss, i);
        return;
      }
      AnyCrashesAt(ss, i);
      res := res + more;
    }
    assert ss[..|ss|] == ss;
  }

  /** Lists a dump. The call fails with the dump, and brings the process down when an
      accepted session lacks a pointer that is followed unchecked; otherwise it
      returns fresh entries for exactly the accepted sessions. */
  method ListEntries(dump: Option<seq<Session>>, tracked: set<IPv4>, now: int) returns (r: ListResult)
    ensures r.DumpFailed? <==> dump.None?
    ensures r.Crashed? <==> dump.Some? && exists i :: 0 <= i < |dump.value| && Crashes(dump.value[i])
    ensures r.Listed? ==> fresh(r.entries) && Distinct(r.entries)
    ensures r.Listed? ==> Views(r.entries) == Listing(dump.value, tracked, now)
  {
    if dump.None? {
      return DumpFailed;
    }
    var crashed, res := ListSessions(dump.value, tracked, now);
    AnyCrashesIff(dump.value);
    r := if crashed then Crashed else Listed(res);
  }
}
