/** IPv4 addresses as conntrack, the collector and the wire format see them. */
module Net {

  type Byte = x: int | 0 <= x < 256
  type UInt16 = x: int | 0 <= x < 0x1_0000
  type Int32 = x: int | -0x8000_0000 <= x < 0x8000_0000

  datatype IPv4 = IPv4(a: Byte, b: Byte, c: Byte, d: Byte) {

    /** The private-use blocks of section 3 of RFC 1918. */
    predicate IsPrivate() {
      a == 10 || (a == 172 && 16 <= b < 32) || (a == 192 && b == 168)
    }

    predicate IsLoopback() { a == 127 }

    predicate IsMulticast() { 224 <= a < 240 }

    predicate IsLinkLocalUnicast() { a == 169 && b == 254 }

    predicate IsLinkLocalMulticast() { a == 224 && b == 0 && c == 0 }
  }

  const ANY := IPv4(0, 0, 0, 0)

  datatype Endpoint = Endpoint(ip: IPv4, port: UInt16)

  /** Destinations that grouping of public addresses leaves alone. The sixth test of
      the original, interface-local multicast, holds of no IPv4 address. */
  predicate IsPrivateNetwork(ip: IPv4) {
    ip.IsPrivate() || ip.IsLoopback() || ip.IsMulticast() || ip.IsLinkLocalUnicast() || ip.IsLinkLocalMulticast()
  }

  /** The address as a 32-bit number. */
  function Number(ip: IPv4): (u: nat)
    ensures u < 0x1_0000_0000
  {
    ((ip.a * 256 + ip.b) * 256 + ip.c) * 256 + ip.d
  }

  predicate InBlock(ip: IPv4, first: IPv4, size: nat) {
    Number(first) <= Number(ip) < Number(first) + size
  }

  /** Section 3 of RFC 1918: 10/8, 172.16/12 and 192.168/16 are the private blocks.
      Grouping also leaves alone 127/8, 224/4 and 169.254/16; the link-local multicast
      block 224.0.0/24 adds nothing to these. */
  lemma PrivateBlocks(ip: IPv4)
    ensures ip.IsPrivate() <==>
      || InBlock(ip, IPv4(10, 0, 0, 0), 0x100_0000)
      || InBlock(ip, IPv4(172, 16, 0, 0), 0x10_0000)
      || InBlock(ip, IPv4(192, 168, 0, 0), 0x1_0000)
    ensures IsPrivateNetwork(ip) <==>
      || ip.IsPrivate()
      || InBlock(ip, IPv4(127, 0, 0, 0), 0x100_0000)
      || InBlock(ip, IPv4(224, 0, 0, 0), 0x1000_0000)
      || InBlock(ip, IPv4(169, 254, 0, 0), 0x1_0000)
  {
  }

  // ---------- the signed 32-bit wire form ----------

  /** Reinterprets a `uint32` as `int32`. */
  function Signed(u: nat): Int32
    requires u < 0x1_0000_0000
  {
    if u < 0x8000_0000 then u else u - 0x1_0000_0000
  }

  /** Reads the four octets big-endian as `uint32` and reinterprets them as `int32`. */
  function ToInt32(ip: IPv4): Int32 {
    Signed(Number(ip))
  }

  function FromInt32(v: Int32): IPv4 {
    var u: int := v % 0x1_0000_0000;
    IPv4(u / 0x100_0000, u / 0x1_0000 % 256, u / 256 % 256, u % 256)
  }

  lemma LowOctet(q: nat, r: Byte)
    ensures (q * 256 + r) / 256 == q && (q * 256 + r) % 256 == r
  {
  }

  lemma ShiftTwice(u: nat)
    ensures u / 0x1_0000 == u / 256 / 256 && u / 0x100_0000 == u / 256 / 256 / 256
  {
  }

  lemma Octets(ip: IPv4, u: nat)
    requires u == Number(ip)
    ensures u / 0x100_0000 == ip.a && u / 0x1_0000 % 256 == ip.b && u / 256 % 256 == ip.c && u % 256 == ip.d
  {
    ShiftTwice(u);
    LowOctet((ip.a * 256 + ip.b) * 256 + ip.c, ip.d);
    LowOctet(ip.a * 256 + ip.b, ip.c);
    LowOctet(ip.a, ip.b);
  }

  lemma SignedBack(u: nat)
    requires u < 0x1_0000_0000
    ensures Signed(u) % 0x1_0000_0000 == u
  {
  }

  lemma WireSign(ip: IPv4)
    ensures ToInt32(ip) < 0 <==> ip.a >= 128
    ensures ToInt32(ip) == 0 <==> ip == ANY
  {
  }

  /** Every address survives the wire form, those with the top bit set as negative numbers. */
  lemma WireRoundTrip(ip: IPv4)
    ensures FromInt32(ToInt32(ip)) == ip
    ensures ToInt32(ip) < 0 <==> ip.a >= 128
    ensures ToInt32(ip) == 0 <==> ip == ANY
  {
    SignedBack(Number(ip));
    Octets(ip, Number(ip));
    WireSign(ip);
  }

  /** And every wire value is the form of the address it decodes to. */
  lemma WireRoundTripBack(v: Int32)
    ensures ToInt32(FromInt32(v)) == v
  {
    var u: int := v % 0x1_0000_0000;
    ShiftTwice(u);
  }

  lemma SameWireForm(a: IPv4, b: IPv4)
    ensures ToInt32(a) == ToInt32(b) <==> a == b
  {
    WireRoundTrip(a);
    WireRoundTrip(b);
  }

  // ---------- map keys ----------

  /** Identity of a connection: what the 13 hashed bytes of a conntrack entry hold. */
  datatype ConnKey = ConnKey(src: Endpoint, dst: Endpoint, proto: Byte) {
    function Mirrored(): ConnKey {
      ConnKey(dst, src, proto)
    }
  }

  /** Identity of a pod metric: what the 9 hashed bytes of a group hold. */
  datatype GroupKey = GroupKey(src: IPv4, dst: IPv4, proto: Byte) {
    function Mirrored(): GroupKey {
      GroupKey(dst, src, proto)
    }
  }

  function IPBytes(ip: IPv4): seq<Byte> {
    [ip.a, ip.b, ip.c, ip.d]
  }

  function PortBytes(p: UInt16): seq<Byte> {
    [p % 256, p / 256]
  }

  function ConnKeyBytes(k: ConnKey): seq<Byte> {
    IPBytes(k.src.ip) + PortBytes(k.src.port) + IPBytes(k.dst.ip) + PortBytes(k.dst.port) + [k.proto]
  }

  function GroupKeyBytes(g: GroupKey): seq<Byte> {
    IPBytes(g.src) + IPBytes(g.dst) + [g.proto]
  }

  /** The bytes fed to the hash determine the connection and the group, so an
      injective hash may be replaced by the keys themselves. */
  lemma KeyBytesInjective(j: ConnKey, k: ConnKey, g: GroupKey, h: GroupKey)
    ensures |ConnKeyBytes(k)| == 13 && |GroupKeyBytes(g)| == 9
    ensures ConnKeyBytes(j) == ConnKeyBytes(k) ==> j == k
    ensures GroupKeyBytes(g) == GroupKeyBytes(h) ==> g == h
  {
    if ConnKeyBytes(j) == ConnKeyBytes(k) {
      var x, y := ConnKeyBytes(j), ConnKeyBytes(k);
      assert forall i :: 0 <= i < 13 ==> x[i] == y[i];
      assert x[0] == j.src.ip.a && x[1] == j.src.ip.b && x[2] == j.src.ip.c && x[3] == j.src.ip.d;
      assert x[4] == j.src.port % 256 && x[5] == j.src.port / 256;
      assert x[6] == j.dst.ip.a && x[7] == j.dst.ip.b && x[8] == j.dst.ip.c && x[9] == j.dst.ip.d;
      assert x[10] == j.dst.port % 256 && x[11] == j.dst.port / 256 && x[12] == j.proto;
      assert y[4] == k.src.port % 256 && y[5] == k.src.port / 256;
      assert y[10] == k.dst.port % 256 && y[11] == k.dst.port / 256;
    }
    if GroupKeyBytes(g) == GroupKeyBytes(h) {
      var x, y := GroupKeyBytes(g), GroupKeyBytes(h);
      assert forall i :: 0 <= i < 9 ==> x[i] == y[i];
      assert x[0] == g.src.a && x[1] == g.src.b && x[2] == g.src.c && x[3] == g.src.d;
      assert x[4] == g.dst.a && x[5] == g.dst.b && x[6] == g.dst.c && x[7] == g.dst.d && x[8] == g.proto;
    }
  }
}
