/**
 * The Health Connect record helpers (src/health/providers/android/utils.ts):
 * reading a record's numeric payload, averaging basal metabolic rate, and
 * spreading a record over the 24 hourly buckets in proportion to overlap.
 */
module AndroidUtils {
  import opened Wrappers
  import opened Models
  import opened TrustedSourcePolicy
  import opened HourlySpread

  /**
   * A non-empty timestamp string as `new Date(text).getTime()` sees it: a
   * parsed instant in milliseconds, or text it cannot parse (NaN), kept
   * for the audit label.
   */
  datatype Stamp = Parsed(ms: int) | Unparseable(text: string)

  /**
   * A raw Health Connect record. Every field is optional, as the source reads
   * them through `any`: `None` stands for an absent (or, for a time, empty)
   * field. `energyKcal` is `energy.inKilocalories`, `distanceMeters` is
   * `distance.inMeters`, `bmrKcalPerDay` is
   * `basalMetabolicRate.inKilocaloriesPerDay`.
   */
  datatype HealthRecord = HealthRecord(
    startTime: Option<Stamp>,
    endTime: Option<Stamp>,
    time: Option<Stamp>,
    count: Option<real>,
    energyKcal: Option<real>,
    distanceMeters: Option<real>,
    bmrKcalPerDay: Option<real>,
    metadata: Option<Metadata>)

  /** A number in a JavaScript condition: present and non-zero. */
  predicate Truthy(x: Option<real>) {
    x.Some? && x.value != 0.0
  }

  /** The payload fields in the order extractValue tries them. */
  function PayloadFields(r: HealthRecord): seq<Option<real>> {
    [r.count, r.energyKcal, r.distanceMeters, r.bmrKcalPerDay]
  }

  /**
   * extractValue: the first payload field that is present and non-zero, in
   * the order count, energy, distance, basal metabolic rate; 0 when none is.
   */
  function ExtractValue(r: HealthRecord): (v: real)
    ensures v != 0.0 <==> exists k | 0 <= k < 4 :: Truthy(PayloadFields(r)[k])
    ensures v != 0.0 ==> exists k | 0 <= k < 4 ::
      PayloadFields(r)[k] == Some(v) && forall j | 0 <= j < k :: !Truthy(PayloadFields(r)[j])
  {
    var fs := PayloadFields(r);
    if Truthy(r.count) then
      assert fs[0] == Some(r.count.value);
      r.count.value
    else if Truthy(r.energyKcal) then
      assert fs[1] == Some(r.energyKcal.value);
      r.energyKcal.value
    else if Truthy(r.distanceMeters) then
      assert fs[2] == Some(r.distanceMeters.value);
      r.distanceMeters.value
    else if Truthy(r.bmrKcalPerDay) then
      assert fs[3] == Some(r.bmrKcalPerDay.value);
      r.bmrKcalPerDay.value
    else
      0.0
  }

  /** Every record carries `basalMetabolicRate.inKilocaloriesPerDay`. */
  predicate AllHaveBmr(rs: seq<HealthRecord>) {
    forall i | 0 <= i < |rs| :: rs[i].bmrKcalPerDay.Some?
  }

  function BmrSum(rs: seq<HealthRecord>): real
    requires AllHaveBmr(rs)
  {
    if |rs| == 0 then 0.0 else BmrSum(rs[..|rs| - 1]) + rs[|rs| - 1].bmrKcalPerDay.value
  }

  function MinBmr(rs: seq<HealthRecord>): real
    requires |rs| > 0 && AllHaveBmr(rs)
  {
    if |rs| == 1 then rs[0].bmrKcalPerDay.value
    else
      var m := MinBmr(rs[..|rs| - 1]);
      var x := rs[|rs| - 1].bmrKcalPerDay.value;
      if x < m then x else m
  }

  function MaxBmr(rs: seq<HealthRecord>): real
    requires |rs| > 0 && AllHaveBmr(rs)
  {
    if |rs| == 1 then rs[0].bmrKcalPerDay.value
    else
      var m := MaxBmr(rs[..|rs| - 1]);
      var x := rs[|rs| - 1].bmrKcalPerDay.value;
      if x > m then x else m
  }

  /**
   * calculateAverageBmr: 0 for no records, otherwise the arithmetic mean of
   * the records' kcal/day values. Every record must carry the field (the
   * source reads it unguarded).
   */
  function CalculateAverageBmr(trustedBmr: seq<HealthRecord>): (avg: real)
    requires AllHaveBmr(trustedBmr)
    ensures |trustedBmr| == 0 ==> avg == 0.0
    ensures |trustedBmr| > 0 ==> avg * (|trustedBmr| as real) == BmrSum(trustedBmr)
  {
    if |trustedBmr| == 0 then 0.0 else BmrSum(trustedBmr) / (|trustedBmr| as real)
  }

  /** The sum of n values is at least n times their minimum. */
  lemma {:induction false} SumAboveMin(rs: seq<HealthRecord>)
    requires |rs| > 0 && AllHaveBmr(rs)
    ensures (|rs| as real) * MinBmr(rs) <= BmrSum(rs)
  {
    if |rs| > 1 {
      var init := rs[..|rs| - 1];
      SumAboveMin(init);
      var n := |init| as real;
      var x := rs[|rs| - 1].bmrKcalPerDay.value;
      var m := MinBmr(rs);
      var mi := MinBmr(init);
      assert m <= mi && m <= x;
      ScaleLe(n, m, mi);
      assert (|rs| as real) * m == n * m + m by { assert |rs| as real == n + 1.0; }
      assert BmrSum(rs) == BmrSum(init) + x;
    }
  }

  /** Multiplying by a non-negative factor keeps an inequality. */
  lemma ScaleLe(n: real, a: real, b: real)
    requires n >= 0.0 && a <= b
    ensures n * a <= n * b
  {
    assert n * b - n * a == n * (b - a);
  }

  /** The sum of n values is at most n times their maximum. */
  lemma {:induction false} SumBelowMax(rs: seq<HealthRecord>)
    requires |rs| > 0 && AllHaveBmr(rs)
    ensures BmrSum(rs) <= (|rs| as real) * MaxBmr(rs)
  {
    if |rs| > 1 {
      var init := rs[..|rs| - 1];
      SumBelowMax(init);
      var n := |init| as real;
      var x := rs[|rs| - 1].bmrKcalPerDay.value;
      var m := MaxBmr(rs);
      var mi := MaxBmr(init);
      assert m >= mi && m >= x;
      ScaleLe(n, mi, m);
      assert (|rs| as real) * m == n * m + m by { assert |rs| as real == n + 1.0; }
      assert BmrSum(rs) == BmrSum(init) + x;
    }
  }

  /** Dividing both sides of n·a ≤ s ≤ n·b by a positive n. */
  lemma DivideBounds(a: real, b: real, s: real, n: real)
    requires n > 0.0 && n * a <= s <= n * b
    ensures a <= s / n <= b
  {
    var q := s / n;
    assert q * n == s;
    assert (a - q) * n <= 0.0;
    assert (q - b) * n <= 0.0;
  }

  /** The average of a non-empty list lies between its smallest and its largest value. */
  lemma AverageBmrBounds(trustedBmr: seq<HealthRecord>)
    requires |trustedBmr| > 0 && AllHaveBmr(trustedBmr)
    ensures MinBmr(trustedBmr) <= CalculateAverageBmr(trustedBmr) <= MaxBmr(trustedBmr)
  {
    SumAboveMin(trustedBmr);
    SumBelowMax(trustedBmr);
    DivideBounds(MinBmr(trustedBmr), MaxBmr(trustedBmr), BmrSum(trustedBmr), |trustedBmr| as real);
  }

  /** `record.startTime || record.time`. */
  function StartText(r: HealthRecord): Option<Stamp> {
    if r.startTime.Some? then r.startTime else r.time
  }

  /** `record.endTime || record.startTime || record.time`. */
  function EndText(r: HealthRecord): Option<Stamp> {
    if r.endTime.Some? then r.endTime else StartText(r)
  }

  /** `new Date(text).getTime()`, with NaN as None (absent text parses to NaN too). */
  function GetTime(t: Option<Stamp>): Option<int> {
    if t.Some? && t.value.Parsed? then Some(t.value.ms) else None
  }

  /** The record's [start, end) in milliseconds, or None when either end is NaN. */
  function RecordInterval(r: HealthRecord): (iv: Option<(int, int)>)
    ensures iv.Some? <==> GetTime(StartText(r)).Some? && GetTime(EndText(r)).Some?
  {
    var s := GetTime(StartText(r));
    var e := GetTime(EndText(r));
    if s.Some? && e.Some? then Some((s.value, e.value)) else None
  }

  /** Without an end time the end falls back to the start, so the interval is empty. */
  lemma NoEndTimeIsEmpty(r: HealthRecord)
    requires r.endTime.None? && RecordInterval(r).Some?
    ensures RecordInterval(r).value.0 == RecordInterval(r).value.1
  {
  }

  /** The buckets after distributing one record: unchanged when either time is NaN. */
  function SpreadRecord(bs: seq<HourlyHealthPayload>, r: HealthRecord, f: BucketField,
                        valueExtractor: HealthRecord -> real, dayStart: int): (out: seq<HourlyHealthPayload>)
    ensures |out| == |bs|
  {
    match RecordInterval(r)
    case None => bs
    case Some((rStart, rEnd)) => Spread(bs, f, valueExtractor(r), rStart, rEnd, dayStart)
  }

  /** The hours `onBucketTouch` is called with while distributing one record. */
  function RecordTouched(r: HealthRecord, dayStart: int): seq<nat> {
    match RecordInterval(r)
    case None => []
    case Some((rStart, rEnd)) => TouchedHours(rStart, rEnd, dayStart)
  }

  /** Record r overlaps hour i of the day by a positive amount (and has parseable times). */
  predicate Overlaps(r: HealthRecord, i: nat, dayStart: int) {
    RecordInterval(r).Some? && i < HOURS
    && HourOverlap(RecordInterval(r).value.0, RecordInterval(r).value.1, dayStart, i) > 0
  }

  /** The touched hours are exactly the overlapped ones, each once, in ascending order. */
  lemma RecordTouchedExact(r: HealthRecord, dayStart: int)
    ensures forall h: nat :: h in RecordTouched(r, dayStart) <==> Overlaps(r, h, dayStart)
    ensures var t := RecordTouched(r, dayStart); forall a, b | 0 <= a < b < |t| :: t[a] < t[b]
  {
    if RecordInterval(r).Some? {
      TouchedHoursExact(RecordInterval(r).value.0, RecordInterval(r).value.1, dayStart);
    }
  }

  /**
   * distributeRecordAcrossBuckets. The `onBucketTouch` calls are returned as
   * `touched`, the hour indices in call order. When either timestamp is NaN
   * nothing changes and nothing is touched; otherwise the buckets become
   * `Spread` of the old ones and `touched` is `TouchedHours`, whose
   * properties are proved in HourlySpread.
   */
  method DistributeRecordAcrossBuckets(record: HealthRecord, buckets: array<HourlyHealthPayload>, dayStart: int,
                                       valueExtractor: HealthRecord -> real, bucketKey: BucketField)
    returns (touched: seq<nat>)
    requires buckets.Length == HOURS
    modifies buckets
    ensures buckets[..] == SpreadRecord(old(buckets[..]), record, bucketKey, valueExtractor, dayStart)
    ensures touched == RecordTouched(record, dayStart)
  {
    touched := [];
    var start := GetTime(StartText(record));
    var end := GetTime(EndText(record));
    var totalValue := valueExtractor(record);
    if start.None? || end.None? {
      return;
    }
    var rStart, rEnd := start.value, end.value;
    var duration := Max(rEnd - rStart, 1);
    assert duration == Duration(rStart, rEnd);
    ghost var before := buckets[..];
    for i := 0 to HOURS
      invariant forall j | 0 <= j < i :: buckets[j] == SpreadAt(before[j], bucketKey, totalValue, rStart, rEnd, dayStart, j)
      invariant forall j | i <= j < HOURS :: buckets[j] == before[j]
      invariant touched == TouchedBelow(rStart, rEnd, dayStart, i)
    {
      var bStart := dayStart + i * 3600000;
      var bEnd := bStart + 3600000;
      var overlapStart := Max(rStart, bStart);
      var overlapEnd := Min(rEnd, bEnd);
      var overlapDuration := Max(0, overlapEnd - overlapStart);
      assert overlapDuration == HourOverlap(rStart, rEnd, dayStart, i);
      if overlapDuration > 0 {
        var ratio := (overlapDuration as real) / (duration as real);
        var portion := totalValue * ratio;
        assert portion == Portion(totalValue, rStart, rEnd, dayStart, i);
        buckets[i] := AddToField(buckets[i], bucketKey, portion);
        touched := touched + [i];
      }
    }
    assert buckets[..] == Spread(before, bucketKey, totalValue, rStart, rEnd, dayStart);
  }
}
