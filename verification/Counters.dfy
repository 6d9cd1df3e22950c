/** Traffic counters, sums of them over finite sets, and the two machine widths
    they are stored in: conntrack reports `uint64`, pod metrics hold `int64`. */
module Counters {

  /** The four counters of a flow record. Statements about traffic are made for every counter. */
  datatype Counter = TxBytes | TxPackets | RxBytes | RxPackets {

    /** The counter at the other end of the flow that counts the same traffic. */
    function Mirrored(): Counter {
      match this
      case TxBytes => RxBytes
      case TxPackets => RxPackets
      case RxBytes => TxBytes
      case RxPackets => TxPackets
    }
  }

  datatype Traffic = Traffic(txBytes: nat, txPackets: nat, rxBytes: nat, rxPackets: nat) {

    function At(c: Counter): nat {
      match c
      case TxBytes => txBytes
      case TxPackets => txPackets
      case RxBytes => rxBytes
      case RxPackets => rxPackets
    }

    function Plus(t: Traffic): Traffic
    {
      Traffic(txBytes + t.txBytes, txPackets + t.txPackets, rxBytes + t.rxBytes, rxPackets + t.rxPackets)
    }

    /** Growth since an earlier reading; a counter that went down counts as no growth. */
    function Since(past: Traffic): Traffic
    {
      Traffic(Monus(txBytes, past.txBytes), Monus(txPackets, past.txPackets),
              Monus(rxBytes, past.rxBytes), Monus(rxPackets, past.rxPackets))
    }

    /** The same traffic as the other end of the flow counts it. */
    function Mirrored(): Traffic
    {
      Traffic(rxBytes, rxPackets, txBytes, txPackets)
    }
  }

  const ZERO := Traffic(0, 0, 0, 0)

  function Monus(a: nat, b: nat): nat {
    if a < b then 0 else a - b
  }

  // ---------- machine words ----------

  const TWO63: int := 0x8000_0000_0000_0000
  const TWO64: int := 0x1_0000_0000_0000_0000

  type UInt64 = x: int | 0 <= x < 0x1_0000_0000_0000_0000
  type Int64 = x: int | -0x8000_0000_0000_0000 <= x < 0x8000_0000_0000_0000

  /** Subtraction of `uint64` values, which wraps below zero. */
  function SubU64(a: UInt64, b: UInt64): UInt64 {
    (a - b) % 0x1_0000_0000_0000_0000
  }

  /** The `int64` with the same low 64 bits: both the `uint64` conversion and the
      result of an overflowing addition. */
  function Wrap64(n: int): (w: Int64)
    ensures w == n <==> -TWO63 <= n < TWO63
    decreases if n < 0 then -n else n + 1
  {
    if n >= TWO63 then Wrap64(n - TWO64)
    else if n < -TWO63 then Wrap64(n + TWO64)
    else n
  }

  /** Wrapping takes off a multiple of 2^64. */
  lemma {:induction false} WrapOffset(n: int) returns (k: int)
    ensures n == Wrap64(n) + TWO64 * k
    decreases if n < 0 then -n else n + 1
  {
    if n >= TWO63 {
      k := WrapOffset(n - TWO64);
      k := k + 1;
    } else if n < -TWO63 {
      k := WrapOffset(n + TWO64);
      k := k - 1;
    } else {
      k := 0;
    }
  }

  lemma WrapKeepsLowBits(n: int)
    ensures Wrap64(n) % TWO64 == n % TWO64
  {
    var k := WrapOffset(n);
    ModOffset(Wrap64(n), k);
  }

  lemma ModOffset(w: int, k: int)
    ensures (w + TWO64 * k) % TWO64 == w % TWO64
  {
  }

  lemma WrapPeriod(n: int)
    ensures Wrap64(n + TWO64) == Wrap64(n)
  {
  }

  /** Accumulating wrapped increments is the wrap of accumulating exact ones. */
  lemma {:induction false} WrapAdd(a: int, b: nat)
    requires -TWO63 <= a < TWO63
    ensures Wrap64(a + Wrap64(b)) == Wrap64(a + b)
    decreases b
  {
    if b >= TWO63 {
      WrapPeriod(a + b - TWO64);
      if b >= TWO64 {
        WrapAdd(a, b - TWO64);
      }
    }
  }

  lemma {:induction false} WrapAddWrapped(n: nat, b: nat)
    ensures Wrap64(Wrap64(n) + Wrap64(b)) == Wrap64(n + b)
    decreases n
  {
    if n >= TWO64 {
      WrapAddWrapped(n - TWO64, b);
      WrapPeriod(n - TWO64);
      WrapPeriod(n - TWO64 + b);
    } else if n >= TWO63 {
      WrapAdd(n - TWO64, b);
      WrapPeriod(n - TWO64 + b);
    } else {
      WrapAdd(n, b);
    }
  }

  // ---------- sums over finite sets ----------

  ghost function Sum<K(!new)>(ks: set<K>, f: K -> nat): nat {
    if ks == {} then 0 else
      var k :| k in ks;
      f(k) + Sum(ks - {k}, f)
  }

  /** The sum does not depend on the element taken out first. */
  lemma {:induction false} SumPick<K(!new)>(ks: set<K>, f: K -> nat, k: K)
    requires k in ks
    ensures Sum(ks, f) == f(k) + Sum(ks - {k}, f)
    decreases ks
  {
    var c :| c in ks && Sum(ks, f) == f(c) + Sum(ks - {c}, f);
    if c != k {
      SumPick(ks - {c}, f, k);
      SumPick(ks - {k}, f, c);
      assert ks - {c} - {k} == ks - {k} - {c};
    }
  }

  lemma {:induction false} SumSame<K(!new)>(ks: set<K>, f: K -> nat, h: K -> nat)
    requires forall k :: k in ks ==> f(k) == h(k)
    ensures Sum(ks, f) == Sum(ks, h)
    decreases ks
  {
    if ks != {} {
      var k :| k in ks;
      SumPick(ks, f, k);
      SumPick(ks, h, k);
      SumSame(ks - {k}, f, h);
    }
  }

  lemma {:induction false} SumZero<K(!new)>(ks: set<K>, f: K -> nat)
    requires forall k :: k in ks ==> f(k) == 0
    ensures Sum(ks, f) == 0
    decreases ks
  {
    if ks != {} {
      var k :| k in ks;
      SumPick(ks, f, k);
      SumZero(ks - {k}, f);
    }
  }

  lemma {:induction false} SumSubset<K(!new)>(part: set<K>, whole: set<K>, f: K -> nat)
    requires part <= whole
    ensures Sum(part, f) <= Sum(whole, f)
    decreases part
  {
    if part != {} {
      var k :| k in part;
      SumPick(part, f, k);
      SumPick(whole, f, k);
      SumSubset(part - {k}, whole - {k}, f);
    }
  }

  lemma {:induction false} SumPlus<K(!new)>(ks: set<K>, f: K -> nat, g: K -> nat, h: K -> nat)
    requires forall k :: k in ks ==> h(k) == f(k) + g(k)
    ensures Sum(ks, h) == Sum(ks, f) + Sum(ks, g)
    decreases ks
  {
    if ks != {} {
      var k :| k in ks;
      SumPick(ks, f, k);
      SumPick(ks, g, k);
      SumPick(ks, h, k);
      SumPlus(ks - {k}, f, g, h);
    }
  }

  /** Adding `extra` at one key, which may be new, adds `extra` to the sum. */
  lemma SumBump<K(!new)>(ks: set<K>, f: K -> nat, h: K -> nat, k: K, extra: nat)
    requires forall j :: j in ks && j != k ==> h(j) == f(j)
    requires h(k) == (if k in ks then f(k) else 0) + extra
    ensures Sum(ks + {k}, h) == Sum(ks, f) + extra
  {
    SumPick(ks + {k}, h, k);
    assert ks + {k} - {k} == ks - {k};
    SumSame(ks - {k}, f, h);
    if k in ks {
      SumPick(ks, f, k);
    } else {
      assert ks - {k} == ks;
    }
  }
}
