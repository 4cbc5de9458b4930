/**
 * The overlap arithmetic shared by every distributor of the providers
 * (src/health/providers/android/utils.ts:26-60, src/health/providers/ios/utils.ts:7-34,
 * src/health/providers/iosHealthKit.ts:155-181 and the total-energy loop of
 * applyFallbacks): bucket i of the day covers [dayStart + i·3600000,
 * dayStart + (i+1)·3600000) in milliseconds, and a sample over
 * [rStart, rEnd) adds value·overlap/max(rEnd − rStart, 1) to every bucket it
 * overlaps by a positive amount.
 *
 * The functions here are the specification the distributor loops are proved
 * against; the lemmas give what those loops promise: which buckets change,
 * by how much, in which order they are touched, and that a sample inside
 * the day is distributed exactly.
 */
module HourlySpread {
  import opened Models

  const HOUR_MS: int := 3600000
  const DAY_MS: int := 86400000
  const HOURS: nat := 24

  function Max(a: int, b: int): int {
    if a >= b then a else b
  }

  function Min(a: int, b: int): int {
    if a <= b then a else b
  }

  /** `Math.max(0, Math.min(rEnd, bEnd) - Math.max(rStart, bStart))`. */
  function Overlap(rStart: int, rEnd: int, bStart: int, bEnd: int): nat {
    Max(0, Min(rEnd, bEnd) - Max(rStart, bStart))
  }

  /** `dayStart.getTime() + i * 3600000`. */
  function BucketStart(dayStart: int, i: int): int {
    dayStart + i * HOUR_MS
  }

  /** The overlap of [rStart, rEnd) with bucket i. */
  function HourOverlap(rStart: int, rEnd: int, dayStart: int, i: int): nat {
    Overlap(rStart, rEnd, BucketStart(dayStart, i), BucketStart(dayStart, i) + HOUR_MS)
  }

  /** `Math.max(rEnd - rStart, 1)`: at least one millisecond. */
  function Duration(rStart: int, rEnd: int): (d: int)
    ensures d >= 1 && d >= rEnd - rStart
  {
    Max(rEnd - rStart, 1)
  }

  /** `totalValue * (overlap / duration)` for bucket i. */
  function Portion(value: real, rStart: int, rEnd: int, dayStart: int, i: int): real {
    value * ((HourOverlap(rStart, rEnd, dayStart, i) as real) / (Duration(rStart, rEnd) as real))
  }

  /** Bucket i after one step of the loop: changed only when the overlap is positive. */
  function SpreadAt(b: HourlyHealthPayload, f: BucketField, value: real,
                    rStart: int, rEnd: int, dayStart: int, i: int): HourlyHealthPayload
  {
    if HourOverlap(rStart, rEnd, dayStart, i) > 0 then AddToField(b, f, Portion(value, rStart, rEnd, dayStart, i))
    else b
  }

  /** The buckets after the whole loop. */
  function Spread(bs: seq<HourlyHealthPayload>, f: BucketField, value: real,
                  rStart: int, rEnd: int, dayStart: int): (r: seq<HourlyHealthPayload>)
    ensures |r| == |bs|
  {
    seq(|bs|, i requires 0 <= i < |bs| => SpreadAt(bs[i], f, value, rStart, rEnd, dayStart, i))
  }

  /** The hours below k with a positive overlap, in ascending order: the `onBucketTouch` calls. */
  function TouchedBelow(rStart: int, rEnd: int, dayStart: int, k: nat): seq<nat> {
    if k == 0 then []
    else TouchedBelow(rStart, rEnd, dayStart, k - 1)
         + (if HourOverlap(rStart, rEnd, dayStart, k - 1) > 0 then [k - 1] else [])
  }

  function TouchedHours(rStart: int, rEnd: int, dayStart: int): seq<nat> {
    TouchedBelow(rStart, rEnd, dayStart, HOURS)
  }

  // ---------------------------------------------------------------------
  // Which buckets are touched

  lemma {:induction false} TouchedBelowMembers(rStart: int, rEnd: int, dayStart: int, k: nat)
    ensures forall h: nat :: h in TouchedBelow(rStart, rEnd, dayStart, k) <==> h < k && HourOverlap(rStart, rEnd, dayStart, h) > 0
  {
    if k > 0 {
      TouchedBelowMembers(rStart, rEnd, dayStart, k - 1);
      var prev := TouchedBelow(rStart, rEnd, dayStart, k - 1);
      var extra: seq<nat> := if HourOverlap(rStart, rEnd, dayStart, k - 1) > 0 then [k - 1] else [];
      assert TouchedBelow(rStart, rEnd, dayStart, k) == prev + extra;
      assert forall h: nat :: h in prev + extra <==> h in prev || h in extra;
    }
  }

  predicate Ascending(t: seq<nat>) {
    forall a, b | 0 <= a < b < |t| :: t[a] < t[b]
  }

  predicate AllBelow(t: seq<nat>, k: nat) {
    forall a | 0 <= a < |t| :: t[a] < k
  }

  /** Every hour touched below k is below k. */
  lemma {:induction false} TouchedBelowBound(rStart: int, rEnd: int, dayStart: int, k: nat)
    ensures AllBelow(TouchedBelow(rStart, rEnd, dayStart, k), k)
  {
    if k > 0 {
      TouchedBelowBound(rStart, rEnd, dayStart, k - 1);
      var prev := TouchedBelow(rStart, rEnd, dayStart, k - 1);
      var t := TouchedBelow(rStart, rEnd, dayStart, k);
      assert forall a | 0 <= a < |prev| :: t[a] == prev[a];
    }
  }

  /** Appending a value above every element keeps a sequence ascending. */
  lemma AppendAscending(t: seq<nat>, x: nat)
    requires Ascending(t) && AllBelow(t, x)
    ensures Ascending(t + [x])
  {
    var u := t + [x];
    assert forall a | 0 <= a < |t| :: u[a] == t[a];
  }

  lemma {:induction false} TouchedBelowSorted(rStart: int, rEnd: int, dayStart: int, k: nat)
    ensures Ascending(TouchedBelow(rStart, rEnd, dayStart, k))
  {
    if k > 0 {
      TouchedBelowSorted(rStart, rEnd, dayStart, k - 1);
      TouchedBelowBound(rStart, rEnd, dayStart, k - 1);
      var prev := TouchedBelow(rStart, rEnd, dayStart, k - 1);
      if HourOverlap(rStart, rEnd, dayStart, k - 1) > 0 {
        AppendAscending(prev, k - 1);
      } else {
        assert TouchedBelow(rStart, rEnd, dayStart, k) == prev;
      }
    }
  }

  lemma TouchedBelowExact(rStart: int, rEnd: int, dayStart: int, k: nat)
    ensures var t := TouchedBelow(rStart, rEnd, dayStart, k);
      && (forall h: nat :: h in t <==> h < k && HourOverlap(rStart, rEnd, dayStart, h) > 0)
      && (forall a, b | 0 <= a < b < |t| :: t[a] < t[b])
  {
    TouchedBelowMembers(rStart, rEnd, dayStart, k);
    TouchedBelowSorted(rStart, rEnd, dayStart, k);
  }

  /**
   * `onBucketTouch` is called once for every hour with a positive overlap and
   * for no other, in strictly ascending order of the hour.
   */
  lemma TouchedHoursExact(rStart: int, rEnd: int, dayStart: int)
    ensures var t := TouchedHours(rStart, rEnd, dayStart);
      && (forall h: nat :: h in t <==> h < HOURS && HourOverlap(rStart, rEnd, dayStart, h) > 0)
      && (forall a, b | 0 <= a < b < |t| :: t[a] < t[b])
  {
    TouchedBelowExact(rStart, rEnd, dayStart, HOURS);
  }

  /** Only the named field of overlapped buckets changes, each by its proportional share. */
  lemma SpreadFrame(bs: seq<HourlyHealthPayload>, f: BucketField, value: real, rStart: int, rEnd: int, dayStart: int)
    ensures var r := Spread(bs, f, value, rStart, rEnd, dayStart);
      forall i | 0 <= i < |bs| ::
        && (HourOverlap(rStart, rEnd, dayStart, i) == 0 ==> r[i] == bs[i])
        && FieldOf(r[i], f) == FieldOf(bs[i], f) + Portion(value, rStart, rEnd, dayStart, i)
        && (forall g :: g != f ==> FieldOf(r[i], g) == FieldOf(bs[i], g))
        && r[i].startDate == bs[i].startDate && r[i].endDate == bs[i].endDate
  {
  }

  /** A sample whose end is not after its start overlaps nothing, so nothing changes and nothing is touched. */
  lemma {:induction false} EmptyIntervalTouchesNothing(bs: seq<HourlyHealthPayload>, f: BucketField, value: real,
                                                       rStart: int, rEnd: int, dayStart: int)
    requires rEnd <= rStart
    ensures Spread(bs, f, value, rStart, rEnd, dayStart) == bs
    ensures TouchedHours(rStart, rEnd, dayStart) == []
  {
    NothingTouchedBelow(rStart, rEnd, dayStart, HOURS);
  }

  lemma {:induction false} NothingTouchedBelow(rStart: int, rEnd: int, dayStart: int, k: nat)
    requires rEnd <= rStart
    ensures TouchedBelow(rStart, rEnd, dayStart, k) == []
  {
    if k > 0 {
      NothingTouchedBelow(rStart, rEnd, dayStart, k - 1);
    }
  }

  // ---------------------------------------------------------------------
  // Conservation

  /** Σ of the overlaps of hours 0..k-1. */
  function SumOverlapBelow(rStart: int, rEnd: int, dayStart: int, k: nat): int {
    if k == 0 then 0 else SumOverlapBelow(rStart, rEnd, dayStart, k - 1) + HourOverlap(rStart, rEnd, dayStart, k - 1)
  }

  /** Σ of the portions added to hours 0..k-1. */
  function AddedBelow(value: real, rStart: int, rEnd: int, dayStart: int, k: nat): real {
    if k == 0 then 0.0 else AddedBelow(value, rStart, rEnd, dayStart, k - 1) + Portion(value, rStart, rEnd, dayStart, k - 1)
  }

  /** Adjacent windows: the overlap with [a, c) is the overlaps with [a, b) and [b, c) together. */
  lemma OverlapSplit(s: int, e: int, a: int, b: int, c: int)
    requires a <= b <= c
    ensures Overlap(s, e, a, c) == Overlap(s, e, a, b) + Overlap(s, e, b, c)
  {
  }

  lemma {:induction false} SumOverlapIsWindow(rStart: int, rEnd: int, dayStart: int, k: nat)
    ensures SumOverlapBelow(rStart, rEnd, dayStart, k) == Overlap(rStart, rEnd, dayStart, dayStart + k * HOUR_MS)
  {
    if k > 0 {
      SumOverlapIsWindow(rStart, rEnd, dayStart, k - 1);
      OverlapSplit(rStart, rEnd, dayStart, BucketStart(dayStart, k - 1), dayStart + k * HOUR_MS);
    }
  }

  lemma ScaleAdd(v: real, a: real, b: real, d: real)
    requires d > 0.0
    ensures v * (a / d) + v * (b / d) == v * ((a + b) / d)
  {
    assert a / d + b / d == (a + b) / d;
  }

  /** The step of AddedIsScaledOverlap on plain numbers. */
  lemma ScaleAddInt(v: real, added: real, next: real, a: int, b: int, total: int, d: int)
    requires d > 0 && added == v * ((a as real) / (d as real))
    requires next == added + v * ((b as real) / (d as real)) && total == a + b
    ensures next == v * ((total as real) / (d as real))
  {
    ScaleAdd(v, a as real, b as real, d as real);
  }

  /** The overlaps of hours 0..k-1, in order. */
  function OverlapsBelow(rStart: int, rEnd: int, dayStart: int, k: nat): (os: seq<nat>)
    ensures |os| == k
  {
    if k == 0 then [] else OverlapsBelow(rStart, rEnd, dayStart, k - 1) + [HourOverlap(rStart, rEnd, dayStart, k - 1)]
  }

  function SumOf(os: seq<nat>): int {
    if |os| == 0 then 0 else SumOf(os[..|os| - 1]) + os[|os| - 1]
  }

  /** Σ v·(o/d) over the overlaps o of os. */
  function SharesOf(v: real, os: seq<nat>, d: int): real
    requires d > 0
  {
    if |os| == 0 then 0.0 else SharesOf(v, os[..|os| - 1], d) + v * ((os[|os| - 1] as real) / (d as real))
  }

  /** v·(n/d). */
  function Scaled(v: real, n: int, d: int): real
    requires d > 0
  {
    v * ((n as real) / (d as real))
  }

  /** Scaling every overlap by v/d scales their sum by v/d. */
  lemma {:induction false} SharesScaled(v: real, os: seq<nat>, d: int)
    requires d > 0
    ensures SharesOf(v, os, d) == Scaled(v, SumOf(os), d)
  {
    if |os| > 0 {
      var prefix := os[..|os| - 1];
      SharesScaled(v, prefix, d);
      ScaleAddInt(v, SharesOf(v, prefix, d), SharesOf(v, os, d), SumOf(prefix), os[|os| - 1], SumOf(os), d);
    }
  }

  /** SumOverlapBelow and AddedBelow are SumOf and SharesOf the overlaps below k. */
  lemma {:induction false} BelowAsShares(value: real, rStart: int, rEnd: int, dayStart: int, k: nat)
    ensures SumOverlapBelow(rStart, rEnd, dayStart, k) == SumOf(OverlapsBelow(rStart, rEnd, dayStart, k))
    ensures AddedBelow(value, rStart, rEnd, dayStart, k)
         == SharesOf(value, OverlapsBelow(rStart, rEnd, dayStart, k), Duration(rStart, rEnd))
  {
    if k > 0 {
      BelowAsShares(value, rStart, rEnd, dayStart, k - 1);
      var os := OverlapsBelow(rStart, rEnd, dayStart, k);
      assert os[..k - 1] == OverlapsBelow(rStart, rEnd, dayStart, k - 1);
    }
  }

  /** AddedIsScaledOverlap with the duration named, so that its definition need not be unfolded. */
  lemma AddedIsScaledOverlapD(value: real, rStart: int, rEnd: int, dayStart: int, k: nat, d: int)
    requires d == Duration(rStart, rEnd)
    ensures AddedBelow(value, rStart, rEnd, dayStart, k) == Scaled(value, SumOverlapBelow(rStart, rEnd, dayStart, k), d)
  {
    BelowAsShares(value, rStart, rEnd, dayStart, k);
    SharesScaled(value, OverlapsBelow(rStart, rEnd, dayStart, k), d);
  }

  lemma AddedIsScaledOverlap(value: real, rStart: int, rEnd: int, dayStart: int, k: nat)
    ensures AddedBelow(value, rStart, rEnd, dayStart, k)
         == value * ((SumOverlapBelow(rStart, rEnd, dayStart, k) as real) / (Duration(rStart, rEnd) as real))
  {
    AddedIsScaledOverlapD(value, rStart, rEnd, dayStart, k, Duration(rStart, rEnd));
  }

  /** The bucket sums after the loop: field f grows by Σ portions, the other fields stay. */
  lemma {:induction false} SumAfterSpread(bs: seq<HourlyHealthPayload>, f: BucketField, value: real,
                                          rStart: int, rEnd: int, dayStart: int)
    ensures SumField(Spread(bs, f, value, rStart, rEnd, dayStart), f)
         == SumField(bs, f) + AddedBelow(value, rStart, rEnd, dayStart, |bs|)
    ensures forall g :: g != f ==> SumField(Spread(bs, f, value, rStart, rEnd, dayStart), g) == SumField(bs, g)
  {
    var r := Spread(bs, f, value, rStart, rEnd, dayStart);
    if |bs| > 0 {
      var n := |bs| - 1;
      assert r[..n] == Spread(bs[..n], f, value, rStart, rEnd, dayStart);
      SumAfterSpread(bs[..n], f, value, rStart, rEnd, dayStart);
      SpreadFrame(bs, f, value, rStart, rEnd, dayStart);
    }
  }

  /**
   * Conservation: a sample lying inside the day adds exactly its value to
   * the field's total over the 24 buckets, and leaves the other fields' totals alone.
   */
  lemma SpreadConservation(bs: seq<HourlyHealthPayload>, f: BucketField, value: real,
                           rStart: int, rEnd: int, dayStart: int)
    requires |bs| == HOURS
    requires dayStart <= rStart < rEnd <= dayStart + DAY_MS
    ensures SumField(Spread(bs, f, value, rStart, rEnd, dayStart), f) == SumField(bs, f) + value
    ensures forall g :: g != f ==> SumField(Spread(bs, f, value, rStart, rEnd, dayStart), g) == SumField(bs, g)
  {
    SumAfterSpread(bs, f, value, rStart, rEnd, dayStart);
    AddedIsScaledOverlap(value, rStart, rEnd, dayStart, HOURS);
    SumOverlapIsWindow(rStart, rEnd, dayStart, HOURS);
    var d := Duration(rStart, rEnd) as real;
    assert d >= 1.0;
    assert SumOverlapBelow(rStart, rEnd, dayStart, HOURS) as real == d;
    SelfRatio(value, d);
  }

  /** A share of at most the whole is a ratio in [0, 1]. */
  lemma RatioBounds(o: real, d: real)
    requires 0.0 <= o <= d && d > 0.0
    ensures 0.0 <= o / d <= 1.0
  {
  }

  lemma ScaleBounds(v: real, q: real)
    requires v >= 0.0 && 0.0 <= q <= 1.0
    ensures 0.0 <= v * q <= v
  {
    assert v * (1.0 - q) >= 0.0;
  }

  lemma SelfRatio(v: real, d: real)
    requires d > 0.0
    ensures v * (d / d) == v
  {
  }

  lemma PortionBounds(value: real, rStart: int, rEnd: int, dayStart: int, i: int)
    requires value >= 0.0
    ensures 0.0 <= Portion(value, rStart, rEnd, dayStart, i) <= value
  {
    var o := HourOverlap(rStart, rEnd, dayStart, i) as real;
    var d := Duration(rStart, rEnd) as real;
    assert o <= d && d >= 1.0;
    RatioBounds(o, d);
    ScaleBounds(value, o / d);
  }

  /** The total added over the day lies between 0 and the value, for a non-negative value. */
  lemma AddedBounds(value: real, rStart: int, rEnd: int, dayStart: int)
    requires value >= 0.0
    ensures 0.0 <= AddedBelow(value, rStart, rEnd, dayStart, HOURS) <= value
  {
    AddedIsScaledOverlap(value, rStart, rEnd, dayStart, HOURS);
    SumOverlapIsWindow(rStart, rEnd, dayStart, HOURS);
    var o := SumOverlapBelow(rStart, rEnd, dayStart, HOURS) as real;
    var d := Duration(rStart, rEnd) as real;
    assert 0.0 <= o <= d && d >= 1.0;
    RatioBounds(o, d);
    ScaleBounds(value, o / d);
    var q := o / d;
    assert value * q <= value;
    assert AddedBelow(value, rStart, rEnd, dayStart, HOURS) == value * q;
  }

  /**
   * For a non-negative value the field's total over the day grows by at
   * least 0 and at most the value (part of the sample may fall outside the day).
   */
  lemma SpreadBounded(bs: seq<HourlyHealthPayload>, f: BucketField, value: real,
                      rStart: int, rEnd: int, dayStart: int)
    requires |bs| == HOURS
    requires value >= 0.0
    ensures SumField(bs, f) <= SumField(Spread(bs, f, value, rStart, rEnd, dayStart), f) <= SumField(bs, f) + value
  {
    SumAfterSpread(bs, f, value, rStart, rEnd, dayStart);
    AddedBounds(value, rStart, rEnd, dayStart);
  }
}
