/**
 * The HealthKit sample distributor (src/health/providers/ios/utils.ts): a
 * sample's quantity is spread over the 24 hourly buckets in proportion to
 * overlap, exactly as the Health Connect distributor does, but a sample's
 * dates are always valid instants, so there is no NaN guard.
 */
module IosUtils {
  import opened Wrappers
  import opened Models
  import opened HourlySpread

  /**
   * A HealthKit quantity sample: its dates in milliseconds, its quantity,
   * whether `metadata.HKWasUserEntered` is truthy and
   * `sourceRevision.source.bundleIdentifier` (None when absent or empty).
   */
  datatype QuantitySample = QuantitySample(
    startDate: int,
    endDate: int,
    quantity: real,
    wasUserEntered: bool,
    bundleIdentifier: Option<string>)

  /** The extra `activeCalories += 0` changes nothing. */
  lemma AddZeroUnchanged(b: HourlyHealthPayload)
    ensures AddToField(b, ActiveCalories, 0.0) == b
  {
  }

  /**
   * distributeSample. The `onBucketTouch` calls are returned as `touched`.
   * The buckets become `Spread` of the old ones and `touched` is
   * `TouchedHours`; both are specified and proved about in HourlySpread.
   */
  method DistributeSample(sample: QuantitySample, buckets: array<HourlyHealthPayload>, dayStart: int,
                          totalValue: real, bucketKey: BucketField)
    returns (touched: seq<nat>)
    requires buckets.Length == HOURS
    modifies buckets
    ensures buckets[..] == Spread(old(buckets[..]), bucketKey, totalValue, sample.startDate, sample.endDate, dayStart)
    ensures touched == TouchedHours(sample.startDate, sample.endDate, dayStart)
  {
    touched := [];
    var rStart := sample.startDate;
    var rEnd := sample.endDate;
    var duration := Max(rEnd - rStart, 1);
    assert duration == Duration(rStart, rEnd);
    ghost var before := buckets[..];
    for i := 0 to HOURS
      invariant forall j | 0 <= j < i :: buckets[j] == SpreadAt(before[j], bucketKey, totalValue, rStart, rEnd, dayStart, j)
      invariant forall j | i <= j < HOURS :: buckets[j] == before[j]
      invariant touched == TouchedBelow(rStart, rEnd, dayStart, i)
    {
      var bStart := dayStart + i * 3600000;
      var bEnd := bStart + 3600000;
      var overlap := Max(0, Min(rEnd, bEnd) - Max(rStart, bStart));
      assert overlap == HourOverlap(rStart, rEnd, dayStart, i);
      if overlap > 0 {
        var portion := totalValue * ((overlap as real) / (duration as real));
        assert portion == Portion(totalValue, rStart, rEnd, dayStart, i);
        var updated := AddToField(buckets[i], bucketKey, portion);
        touched := touched + [i];
        if bucketKey == ActiveCalories {
          AddZeroUnchanged(updated);
          updated := AddToField(updated, ActiveCalories, 0.0);
        }
        buckets[i] := updated;
      }
    }
    assert buckets[..] == Spread(before, bucketKey, totalValue, rStart, rEnd, dayStart);
  }

  /** A sample that ends no later than it starts changes no bucket and touches no hour. */
  lemma EmptySampleNoEffect(sample: QuantitySample, bs: seq<HourlyHealthPayload>, f: BucketField, dayStart: int)
    requires sample.endDate <= sample.startDate && |bs| == HOURS
    ensures Spread(bs, f, sample.quantity, sample.startDate, sample.endDate, dayStart) == bs
    ensures TouchedHours(sample.startDate, sample.endDate, dayStart) == []
  {
    EmptyIntervalTouchesNothing(bs, f, sample.quantity, sample.startDate, sample.endDate, dayStart);
  }
}
