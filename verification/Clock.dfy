/** Kernel clock conversion: estimating the tick rate and turning jiffies into seconds. */
module Clock {
  import opened Basics
  import opened Counters
  import opened Net

  // ---------- nearest ----------

  function Distance(a: int, b: int): nat {
    if a < b then b - a else a - b
  }

  /** `values[i]` is closest to `input`, and the first that is. */
  ghost predicate EarliestNearest(input: UInt16, values: seq<UInt16>, i: nat) {
    && i < |values|
    && (forall j :: 0 <= j < |values| ==> Distance(input, values[i]) <= Distance(input, values[j]))
    && (forall j :: 0 <= j < i ==> Distance(input, values[i]) < Distance(input, values[j]))
  }

  ghost predicate FindsNearest(input: UInt16, values: seq<UInt16>, out: UInt16) {
    exists i: nat :: EarliestNearest(input, values, i) && out == values[i]
  }

  /** Returns the value closest to `input`, the earliest on a tie. The one family it gets
      wrong is 0 against a list of nothing but 65535, where no distance is below the
      initial minimum and the answer is 0. */
  method Nearest(input: UInt16, values: seq<UInt16>) returns (r: Option<UInt16>)
    ensures r.None? <==> |values| == 0
    ensures r.Some? ==>
      (FindsNearest(input, values, r.value) <==> !(input == 0 && forall j :: 0 <= j < |values| ==> values[j] == 65535))
  {
    if |values| == 0 {
      return None;
    }
    var out: UInt16, min := 0, 65535;
    ghost var at := 0;
    for k := 0 to |values|
      invariant 0 <= min <= 65535
      invariant forall j :: 0 <= j < k ==> min <= Distance(input, values[j])
      invariant min == 65535 ==> out == 0
      invariant min < 65535 ==> 0 <= at < k && out == values[at] && min == Distance(input, out)
      invariant min < 65535 ==> forall j :: 0 <= j < at ==> min < Distance(input, values[j])
    {
      var v := values[k];
      var d := (input - v) % 0x1_0000;
      if input < v {
        d := v - input;
      }
      if d < min {
        min, out, at := d, v, k;
      }
    }
    r := Some(out);
    if min < 65535 {
      assert EarliestNearest(input, values, at);
    } else if input == 65535 {
      assert EarliestNearest(input, values, 0);
    } else {
      assert input == 0 && forall j :: 0 <= j < |values| ==> values[j] == 65535;
    }
  }

  const HZ_VALUES: seq<UInt16> := [1000, 300, 250, 100]

  /** The divisor used for jiffies: the nearest known rate, or 1 without an estimate. */
  method Hertz(estimate: Option<UInt16>) returns (hz: UInt16)
    ensures estimate.None? ==> hz == 1
    ensures estimate.Some? ==> hz == 1000 || hz == 300 || hz == 250 || hz == 100
    ensures estimate.Some? ==> forall v :: v == 1000 || v == 300 || v == 250 || v == 100 ==>
      Distance(estimate.value, hz) <= Distance(estimate.value, v)
  {
    if estimate.None? {
      return 1;
    }
    var r := Nearest(estimate.value, HZ_VALUES);
    assert HZ_VALUES[0] == 1000 && HZ_VALUES[1] == 300 && HZ_VALUES[2] == 250 && HZ_VALUES[3] == 100;
    ghost var i: nat :| EarliestNearest(estimate.value, HZ_VALUES, i) && r.value == HZ_VALUES[i];
    hz := r.value;
  }

  // ---------- time differences ----------

  /** Go's integer division, which truncates toward zero. */
  function TruncDiv(a: int, b: int): int
    requires b > 0
  {
    if a < 0 then -(-a / b) else a / b
  }

  /** Seconds from `now` to `t`, both in units of 256 jiffies, in `int64` arithmetic. */
  function JiffiesDiff(t: Int64, now: UInt64, hz: UInt16): int
    requires hz > 0
  {
    var diff := Wrap64(t - Wrap64(now));
    TruncDiv(Wrap64(diff * 256), hz)
  }

  const TWO55: int := 0x80_0000_0000_0000

  lemma QuotientBounds(a: nat, h: int)
    requires h > 0
    ensures h * (a / h) <= a < h * (a / h) + h
  {
  }

  lemma MultipleStep(h: int, p: int, q: int)
    requires h > 0
    ensures p > q ==> h * p >= h * q + h
  {
    if p > q {
      NonNegativeProduct(h, p - q - 1);
      Distribute(h, q, p - q - 1);
    }
  }

  lemma NonNegativeProduct(x: nat, y: nat)
    ensures x * y >= 0
  {
  }

  lemma Distribute(h: int, q: int, k: int)
    ensures h * (q + 1 + k) == h * q + h + h * k
  {
  }

  lemma QuotientMonotone(a: nat, b: nat, h: int)
    requires h > 0 && a <= b
    ensures a / h <= b / h
  {
    QuotientBounds(a, h);
    QuotientBounds(b, h);
    MultipleStep(h, a / h, b / h);
  }

  /** The shift is exact precisely for differences below 2^55 in magnitude. */
  lemma ShiftExact(d: int)
    ensures Wrap64(d * 256) == d * 256 <==> -TWO55 <= d < TWO55
  {
  }

  lemma NegatedProduct(h: int, q: int)
    ensures h * -q == -(h * q)
  {
  }

  lemma NonNegativeQuotient(a: nat, h: int)
    requires h > 0
    ensures a / h >= 0 && h * (a / h) >= 0
  {
  }

  lemma TruncDivClose(a: int, h: int)
    requires h > 0
    ensures var r := TruncDiv(a, h);
      && (a >= 0 ==> 0 <= h * r <= a < h * r + h)
      && (a <= 0 ==> h * r - h < a <= h * r <= 0)
  {
    if a < 0 {
      QuotientBounds(-a, h);
      NegatedProduct(h, -a / h);
      NonNegativeQuotient(-a, h);
    } else {
      QuotientBounds(a, h);
      NonNegativeQuotient(a, h);
    }
  }

  lemma TruncDivMonotone(a: int, b: int, h: int)
    requires h > 0 && a <= b
    ensures TruncDiv(a, h) <= TruncDiv(b, h)
  {
    if b < 0 {
      QuotientMonotone(-b, -a, h);
    } else if a >= 0 {
      QuotientMonotone(a, b, h);
    } else {
      NonNegativeQuotient(-a, h);
      NonNegativeQuotient(b, h);
    }
  }

  lemma JiffiesInRange(t: Int64, now: UInt64, hz: UInt16, d: int)
    requires hz > 0 && d == t - Wrap64(now) && -TWO55 <= d < TWO55
    ensures JiffiesDiff(t, now, hz) == TruncDiv(d * 256, hz)
  {
    ShiftExact(d);
  }

  /** While differences stay below 2^55 the conversion is monotone in time, keeps the sign
      and is within one second of the exact quotient. */
  lemma JiffiesConversion(t: Int64, u: Int64, now: UInt64, hz: UInt16)
    requires hz > 0 && t <= u
    requires -TWO55 <= t - Wrap64(now) && u - Wrap64(now) < TWO55
    ensures JiffiesDiff(t, now, hz) <= JiffiesDiff(u, now, hz)
    ensures var exact, r := (t - Wrap64(now)) * 256, JiffiesDiff(t, now, hz);
      && (exact >= 0 ==> 0 <= hz * r <= exact < hz * r + hz)
      && (exact <= 0 ==> hz * r - hz < exact <= hz * r <= 0)
  {
    var d, e := t - Wrap64(now), u - Wrap64(now);
    JiffiesInRange(t, now, hz, d);
    JiffiesInRange(u, now, hz, e);
    TruncDivMonotone(d * 256, e * 256, hz);
    TruncDivClose(d * 256, hz);
  }

  lemma CongruentApart(x: int, y: int)
    requires x % TWO64 == y % TWO64
    ensures x == y || Distance(x, y) >= TWO64
  {
  }

  /** The shifted wrapped difference has the low bits of the shifted exact one. */
  lemma ShiftCongruent(d: int)
    requires -TWO64 < d < TWO64
    ensures Wrap64(Wrap64(d) * 256) % TWO64 == (d * 256) % TWO64
  {
    WrapKeepsLowBits(Wrap64(d) * 256);
    assert Wrap64(d) == d || Wrap64(d) == d - TWO64 || Wrap64(d) == d + TWO64;
  }

  /** The shift of a wrapped difference is exact below 2^55 and far off from there on. */
  lemma ShiftExactOrFar(d: int)
    requires -TWO64 < d < TWO64
    ensures var shifted := Wrap64(Wrap64(d) * 256);
      if -TWO55 <= d < TWO55 then shifted == d * 256 else Distance(shifted, d * 256) >= TWO64
  {
    ShiftCongruent(d);
    CongruentApart(Wrap64(Wrap64(d) * 256), d * 256);
  }

  lemma TruncDivWithin(a: int, h: int)
    requires h > 0
    ensures Distance(h * TruncDiv(a, h), a) < h
  {
    TruncDivClose(a, h);
  }

  lemma NearOrFar(p: int, shifted: int, exact: int, h: UInt16)
    requires Distance(p, shifted) < h
    requires shifted == exact || Distance(shifted, exact) >= TWO64
    ensures Distance(p, exact) < h <==> shifted == exact
  {
  }

  /** The conversion is within one second of the exact quotient if and only if the
      difference is below 2^55 in magnitude. */
  lemma JiffiesExactIff(t: Int64, now: UInt64, hz: UInt16, d: int)
    requires hz > 0 && d == t - Wrap64(now)
    ensures Distance(hz * JiffiesDiff(t, now, hz), d * 256) < hz <==> -TWO55 <= d < TWO55
  {
    var shifted := Wrap64(Wrap64(d) * 256);
    ShiftExactOrFar(d);
    TruncDivWithin(shifted, hz);
    NearOrFar(hz * TruncDiv(shifted, hz), shifted, d * 256, hz);
  }

  /** From 2^55 on the shift wraps: a time up to twice that far ahead never converts to
      one ahead. */
  lemma JiffiesWrap(t: Int64, now: UInt64, hz: UInt16, d: int)
    requires hz > 0 && d == t - Wrap64(now) && TWO55 <= d < 2 * TWO55
    ensures JiffiesDiff(t, now, hz) <= 0
  {
    assert Wrap64(d * 256) == d * 256 - TWO64;
    NonNegativeQuotient(TWO64 - d * 256, hz);
  }
}
