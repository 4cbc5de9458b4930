/**
 * The Health Connect provider (src/health/providers/androidHealthConnect.ts):
 * the five record lists of today are filtered by the trust policy with an
 * audit entry and counters per record, the trusted records are spread over
 * the 24 hourly buckets, and hours without a direct active-energy record
 * are estimated from total energy minus the basal share of the average BMR.
 *
 * The reads from Health Connect are not modelled: the provider is given the
 * five `records` arrays (a failed read is an empty list), the start of the
 * day in milliseconds and the local date, and the time of generation.
 *
 * Each method is proved against the specification functions next to it;
 * the lemmas state what the pipeline promises about those functions.
 */
module AndroidHealthConnect {
  import opened Wrappers
  import opened Models
  import opened TimeBuckets
  import opened TrustedSourcePolicy
  import opened HourlySpread
  import opened AndroidUtils
  import opened AndroidTypes

  // =====================================================================
  // Filtering statistics

  /** The keys initStats puts into `rejectedByReason`. */
  const REASON_KEYS: set<RejectionReason> := {MissingOrigin, UntrustedPackage, UserInput, Other}

  /** The type names getTodayHourlyPayload passes to filterAndTrack. */
  const TYPE_NAMES: set<string> := {"Steps", "Distance", "ActiveCal", "TotalCal", "BMR"}

  /** `rejectedByReason[reason] || 0`. */
  function ReasonCount(m: map<RejectionReason, nat>, reason: RejectionReason): nat {
    if reason in m then m[reason] else 0
  }

  /** Σ rejectedByReason over the keys initStats creates. */
  function RejectedTotal(m: map<RejectionReason, nat>): nat {
    ReasonCount(m, MissingOrigin) + ReasonCount(m, UntrustedPackage) + ReasonCount(m, UserInput) + ReasonCount(m, Other)
  }

  /** `perType[typeName]`, with the `{ read: 0, accepted: 0 }` a missing entry is given. */
  function TypeCountsOf(perType: map<string, TypeCounts>, typeName: string): TypeCounts {
    if typeName in perType then perType[typeName] else TypeCounts(0, 0)
  }

  /** Σ perType[*].accepted over the five type names. */
  function AcceptedByType(perType: map<string, TypeCounts>): nat {
    TypeCountsOf(perType, "Steps").accepted + TypeCountsOf(perType, "Distance").accepted
    + TypeCountsOf(perType, "ActiveCal").accepted + TypeCountsOf(perType, "TotalCal").accepted
    + TypeCountsOf(perType, "BMR").accepted
  }

  /**
   * The bookkeeping invariant: the reason keys are those of initStats, every
   * record read has been accepted or rejected for exactly one reason, and no
   * type has accepted more records than it read.
   */
  predicate Balanced(s: FilteringStats) {
    && s.rejectedByReason.Keys == REASON_KEYS
    && s.recordsRead == s.recordsAccepted + RejectedTotal(s.rejectedByReason)
    && forall t | t in s.perType :: s.perType[t].accepted <= s.perType[t].read
  }

  /** initStats: zero counters, no types yet, and the four reasons at zero. */
  function InitStats(): FilteringStats {
    FilteringStats(0, 0, map[], map reason | reason in REASON_KEYS :: 0)
  }

  /** The initial counters are balanced and all zero. */
  lemma InitStatsBalanced()
    ensures Balanced(InitStats())
    ensures InitStats().recordsRead == 0 && InitStats().recordsAccepted == 0 && InitStats().perType == map[]
  {
  }

  /** No reason has a rejection before any record is read. */
  lemma InitStatsNoRejections()
    ensures forall reason :: ReasonCount(InitStats().rejectedByReason, reason) == 0
  {
  }

  // =====================================================================
  // filterAndTrack, as values

  /** `validateRecord(r, allowManual)`. */
  function Validation(r: HealthRecord, allowManual: bool): ValidationResult {
    ValidateRecord(r.metadata, allowManual)
  }

  /** The records the filter keeps, in input order. */
  function Kept(rs: seq<HealthRecord>, allowManual: bool): seq<HealthRecord> {
    if |rs| == 0 then []
    else Kept(rs[..|rs| - 1], allowManual)
         + (if Validation(rs[|rs| - 1], allowManual).trusted then [rs[|rs| - 1]] else [])
  }

  /** How many records of rs are rejected with the given reason. */
  function RejectedCount(rs: seq<HealthRecord>, allowManual: bool, reason: RejectionReason): nat {
    if |rs| == 0 then 0
    else
      var v := Validation(rs[|rs| - 1], allowManual);
      RejectedCount(rs[..|rs| - 1], allowManual, reason) + (if !v.trusted && v.reason == reason then 1 else 0)
  }

  /** `rejectedByReason` after the rejections of rs have been counted in. */
  function AddRejections(m: map<RejectionReason, nat>, rs: seq<HealthRecord>, allowManual: bool): map<RejectionReason, nat> {
    if |rs| == 0 then m
    else
      var prev := AddRejections(m, rs[..|rs| - 1], allowManual);
      var v := Validation(rs[|rs| - 1], allowManual);
      if v.trusted then prev else prev[v.reason := ReasonCount(prev, v.reason) + 1]
  }

  /** The counters after filterAndTrack(rs, typeName, s). */
  function TrackStats(s: FilteringStats, rs: seq<HealthRecord>, typeName: string, allowManual: bool): FilteringStats {
    var accepted := |Kept(rs, allowManual)|;
    var base := TypeCountsOf(s.perType, typeName);
    FilteringStats(
      s.recordsRead + |rs|,
      s.recordsAccepted + accepted,
      s.perType[typeName := TypeCounts(base.read + |rs|, base.accepted + accepted)],
      AddRejections(s.rejectedByReason, rs, allowManual))
  }

  /** The audit `time` label: "unknown" without a start, the local time, or "Err: " and the text. */
  function TimeLabelOf(r: HealthRecord): TimeLabel {
    match StartText(r)
    case None => UnknownTime
    case Some(Parsed(ms)) => LocalTime(ms)
    case Some(Unparseable(text)) => ErrLabel(text)
  }

  /** `metadata.device` as "manufacturer model". */
  function DeviceText(metadata: Option<Metadata>): Option<string> {
    if metadata.Some? && metadata.value.device.Some?
    then Some(metadata.value.device.value.manufacturer + " " + metadata.value.device.value.model)
    else None
  }

  /** `metadata.recordingMethod`. */
  function MethodOf(metadata: Option<Metadata>): Option<int> {
    if metadata.Some? then metadata.value.recordingMethod else None
  }

  /** The audit entry pushed for r. */
  function AuditEntry(r: HealthRecord, typeName: string, allowManual: bool): IngestionRecord {
    var v := Validation(r, allowManual);
    IngestionRecord(
      typeName, TimeLabelOf(r), ExtractValue(r), OriginOf(r.metadata).GetOr("unknown"), v.trusted,
      MethodOf(r.metadata), if v.trusted then None else Some(v.reason), r.metadata, DeviceText(r.metadata))
  }

  /** One audit entry per record, in order. */
  function AuditEntries(rs: seq<HealthRecord>, typeName: string, allowManual: bool): seq<IngestionRecord> {
    seq(|rs|, i requires 0 <= i < |rs| => AuditEntry(rs[i], typeName, allowManual))
  }

  // ---------------------------------------------------------------------
  // What filterAndTrack promises

  /** A record is kept exactly when the policy trusts it. */
  lemma {:induction false} KeptExact(rs: seq<HealthRecord>, allowManual: bool)
    ensures forall r :: r in Kept(rs, allowManual) <==> r in rs && Validation(r, allowManual).trusted
    ensures |Kept(rs, allowManual)| <= |rs|
  {
    if |rs| > 0 {
      var init := rs[..|rs| - 1];
      KeptExact(init, allowManual);
      assert rs == init + [rs[|rs| - 1]];
    }
  }

  /** Filtering commutes with concatenation, so the kept records keep their input order. */
  lemma {:induction false} KeptConcat(xs: seq<HealthRecord>, ys: seq<HealthRecord>, allowManual: bool)
    ensures Kept(xs + ys, allowManual) == Kept(xs, allowManual) + Kept(ys, allowManual)
  {
    if |ys| > 0 {
      var yinit := ys[..|ys| - 1];
      assert (xs + ys)[..|xs + ys| - 1] == xs + yinit;
      KeptConcat(xs, yinit, allowManual);
    } else {
      assert xs + ys == xs;
    }
  }

  /**
   * Every record is either kept or rejected with exactly one of the three
   * reasons validateRecord can give.
   */
  lemma {:induction false} KeptOrRejected(rs: seq<HealthRecord>, allowManual: bool)
    ensures |rs| == |Kept(rs, allowManual)| + RejectedCount(rs, allowManual, MissingOrigin)
                    + RejectedCount(rs, allowManual, UntrustedPackage) + RejectedCount(rs, allowManual, UserInput)
    ensures RejectedCount(rs, allowManual, Other) == 0 && RejectedCount(rs, allowManual, NotRejected) == 0
  {
    if |rs| > 0 {
      KeptOrRejected(rs[..|rs| - 1], allowManual);
    }
  }

  /** Counting the rejections in adds exactly RejectedCount per reason and no new key. */
  lemma {:induction false} AddRejectionsCounts(m: map<RejectionReason, nat>, rs: seq<HealthRecord>, allowManual: bool)
    requires REASON_KEYS <= m.Keys
    ensures AddRejections(m, rs, allowManual).Keys == m.Keys
    ensures forall reason :: ReasonCount(AddRejections(m, rs, allowManual), reason)
                            == ReasonCount(m, reason) + RejectedCount(rs, allowManual, reason)
  {
    if |rs| > 0 {
      AddRejectionsCounts(m, rs[..|rs| - 1], allowManual);
    }
  }

  /** filterAndTrack keeps the counters balanced, counting every record read and every record kept. */
  lemma TrackStatsBalanced(s: FilteringStats, rs: seq<HealthRecord>, typeName: string, allowManual: bool)
    requires Balanced(s)
    ensures Balanced(TrackStats(s, rs, typeName, allowManual))
    ensures TrackStats(s, rs, typeName, allowManual).recordsRead == s.recordsRead + |rs|
    ensures TrackStats(s, rs, typeName, allowManual).recordsAccepted == s.recordsAccepted + |Kept(rs, allowManual)|
  {
    AddRejectionsCounts(s.rejectedByReason, rs, allowManual);
    KeptOrRejected(rs, allowManual);
    KeptExact(rs, allowManual);
  }

  /** Counting one more accepted record of type k. */
  lemma AcceptOne(m: map<string, TypeCounts>, k: string, read: nat, accepted: nat)
    ensures var c := m[k := TypeCounts(read, accepted)][k];
      m[k := TypeCounts(read, accepted)][k := c.(accepted := c.accepted + 1)] == m[k := TypeCounts(read, accepted + 1)]
  {
  }

  /** One more record: Kept, AddRejections and AuditEntries each take one step. */
  lemma FilterStep(rs: seq<HealthRecord>, i: nat, typeName: string, m: map<RejectionReason, nat>, allowManual: bool)
    requires i < |rs|
    ensures var v := Validation(rs[i], allowManual);
      && Kept(rs[..i + 1], allowManual) == Kept(rs[..i], allowManual) + (if v.trusted then [rs[i]] else [])
      && AddRejections(m, rs[..i + 1], allowManual)
         == (var prev := AddRejections(m, rs[..i], allowManual);
             if v.trusted then prev else prev[v.reason := ReasonCount(prev, v.reason) + 1])
      && AuditEntries(rs[..i + 1], typeName, allowManual)
         == AuditEntries(rs[..i], typeName, allowManual) + [AuditEntry(rs[i], typeName, allowManual)]
  {
    assert rs[..i + 1][..i] == rs[..i];
  }

  /** The counters after the filter callback ran for one record r of type typeName. */
  function CallbackStats(s: FilteringStats, r: HealthRecord, typeName: string, allowManual: bool): FilteringStats
    requires typeName in s.perType
  {
    var v := Validation(r, allowManual);
    if v.trusted then
      s.(recordsAccepted := s.recordsAccepted + 1,
         perType := s.perType[typeName := s.perType[typeName].(accepted := s.perType[typeName].accepted + 1)])
    else s.(rejectedByReason := s.rejectedByReason[v.reason := ReasonCount(s.rejectedByReason, v.reason) + 1])
  }

  /** The counters filterAndTrack holds after the callback ran for the first n of rs. */
  function PrefixStats(s: FilteringStats, rs: seq<HealthRecord>, n: nat, typeName: string, allowManual: bool): FilteringStats
    requires n <= |rs|
  {
    var accepted := |Kept(rs[..n], allowManual)|;
    var base := TypeCountsOf(s.perType, typeName);
    FilteringStats(
      s.recordsRead + |rs|,
      s.recordsAccepted + accepted,
      s.perType[typeName := TypeCounts(base.read + |rs|, base.accepted + accepted)],
      AddRejections(s.rejectedByReason, rs[..n], allowManual))
  }

  /** One more callback moves PrefixStats one record on; after all of rs it is TrackStats. */
  lemma PrefixStep(s: FilteringStats, rs: seq<HealthRecord>, i: nat, typeName: string, allowManual: bool)
    requires i < |rs|
    ensures typeName in PrefixStats(s, rs, i, typeName, allowManual).perType
    ensures PrefixStats(s, rs, i + 1, typeName, allowManual)
         == CallbackStats(PrefixStats(s, rs, i, typeName, allowManual), rs[i], typeName, allowManual)
  {
    FilterStep(rs, i, typeName, s.rejectedByReason, allowManual);
    var base := TypeCountsOf(s.perType, typeName);
    AcceptOne(s.perType, typeName, base.read + |rs|, base.accepted + |Kept(rs[..i], allowManual)|);
  }

  lemma PrefixEnds(s: FilteringStats, rs: seq<HealthRecord>, typeName: string, allowManual: bool)
    ensures PrefixStats(s, rs, |rs|, typeName, allowManual) == TrackStats(s, rs, typeName, allowManual)
  {
    assert rs[..|rs|] == rs;
  }

  /**
   * The audit entry of a record: its trust flag is the policy's verdict, it
   * carries a rejection reason exactly when untrusted (never "none" or
   * "other"), its origin is the data origin or "unknown", its value the
   * extracted one.
   */
  lemma AuditEntryFacts(r: HealthRecord, typeName: string, allowManual: bool)
    ensures var e := AuditEntry(r, typeName, allowManual);
      && e.typeName == typeName
      && e.trusted == Validation(r, allowManual).trusted
      && (e.rejectionReason.None? <==> e.trusted)
      && (e.rejectionReason.Some? ==> e.rejectionReason.value in {MissingOrigin, UntrustedPackage, UserInput})
      && (e.rejectionReason == Some(MissingOrigin) <==> OriginOf(r.metadata).None?)
      && (OriginOf(r.metadata).Some? ==> e.origin == OriginOf(r.metadata).value)
      && (OriginOf(r.metadata).None? ==> e.origin == "unknown")
      && e.value == ExtractValue(r)
  {
  }

  // =====================================================================
  // populateMetricsIntoBuckets, as values

  /** The value extractors the provider passes: `rec.count`, `rec.distance.inMeters`, `rec.energy.inKilocalories`. */
  function CountOf(r: HealthRecord): real {
    r.count.GetOr(0.0)
  }

  function DistanceOf(r: HealthRecord): real {
    r.distanceMeters.GetOr(0.0)
  }

  function EnergyOf(r: HealthRecord): real {
    r.energyKcal.GetOr(0.0)
  }

  /**
   * The trusted lists carry the field their extractor reads (the source
   * would otherwise add NaN or throw), so the defaults above are never used.
   */
  predicate PayloadsPresent(t: RecordLists) {
    && (forall i | 0 <= i < |t.steps| :: t.steps[i].count.Some?)
    && (forall i | 0 <= i < |t.distance| :: t.distance[i].distanceMeters.Some?)
    && (forall i | 0 <= i < |t.active| :: t.active[i].energyKcal.Some?)
    && (forall i | 0 <= i < |t.total| :: t.total[i].energyKcal.Some?)
    && AllHaveBmr(t.bmr)
  }

  /** The buckets after distributing every record of rs into field f, in order. */
  function SpreadAll(bs: seq<HourlyHealthPayload>, rs: seq<HealthRecord>, f: BucketField,
                     valueExtractor: HealthRecord -> real, dayStart: int): (out: seq<HourlyHealthPayload>)
    ensures |out| == |bs|
  {
    if |rs| == 0 then bs
    else SpreadRecord(SpreadAll(bs, rs[..|rs| - 1], f, valueExtractor, dayStart), rs[|rs| - 1], f, valueExtractor, dayStart)
  }

  /** The buckets after populateMetricsIntoBuckets: steps, then distance, then active energy. */
  function PopulatedBuckets(bs: seq<HourlyHealthPayload>, t: RecordLists, dayStart: int): (out: seq<HourlyHealthPayload>)
    ensures |out| == |bs|
  {
    var afterSteps := SpreadAll(bs, t.steps, Steps, CountOf, dayStart);
    var afterDistance := SpreadAll(afterSteps, t.distance, Distance, DistanceOf, dayStart);
    SpreadAll(afterDistance, t.active, ActiveCalories, EnergyOf, dayStart)
  }

  /** What the `onBucketTouch` callback does to an hour's detail. */
  function MarkActive(d: HourlyDetail): HourlyDetail {
    d.(activeCaloriesSource := ActiveRecord, isEstimated := false, hasActiveRecord := true)
  }

  /** The details after the callback ran for each hour in hs. */
  function MarkTouched(ds: seq<HourlyDetail>, hs: seq<nat>): (out: seq<HourlyDetail>)
    ensures |out| == |ds|
  {
    seq(|ds|, i requires 0 <= i < |ds| => if i in hs then MarkActive(ds[i]) else ds[i])
  }

  /** The details after distributing every active-energy record of rs. */
  function MarkAll(ds: seq<HourlyDetail>, rs: seq<HealthRecord>, dayStart: int): (out: seq<HourlyDetail>)
    ensures |out| == |ds|
  {
    if |rs| == 0 then ds
    else MarkTouched(MarkAll(ds, rs[..|rs| - 1], dayStart), RecordTouched(rs[|rs| - 1], dayStart))
  }

  /** Some record of rs overlaps hour i. */
  predicate ActiveAt(rs: seq<HealthRecord>, i: nat, dayStart: int) {
    exists k | 0 <= k < |rs| :: Overlaps(rs[k], i, dayStart)
  }

  // ---------------------------------------------------------------------
  // What populateMetricsIntoBuckets promises

  /**
   * Hour i of the details is marked exactly when some active-energy record
   * overlaps it by a positive amount; an unmarked hour keeps its detail.
   */
  lemma {:induction false} MarkAllExact(ds: seq<HourlyDetail>, rs: seq<HealthRecord>, dayStart: int)
    requires |ds| == HOURS
    ensures forall i | 0 <= i < |ds| ::
      MarkAll(ds, rs, dayStart)[i] == if ActiveAt(rs, i, dayStart) then MarkActive(ds[i]) else ds[i]
  {
    if |rs| > 0 {
      var init := rs[..|rs| - 1];
      var last := rs[|rs| - 1];
      MarkAllExact(ds, init, dayStart);
      RecordTouchedExact(last, dayStart);
      forall i | 0 <= i < |ds|
        ensures ActiveAt(rs, i, dayStart) <==> ActiveAt(init, i, dayStart) || Overlaps(last, i, dayStart)
      {
        if ActiveAt(rs, i, dayStart) {
          var k :| 0 <= k < |rs| && Overlaps(rs[k], i, dayStart);
          if k < |init| {
            assert init[k] == rs[k];
          }
        }
        if ActiveAt(init, i, dayStart) {
          var k :| 0 <= k < |init| && Overlaps(init[k], i, dayStart);
          assert rs[k] == init[k];
        }
        if Overlaps(last, i, dayStart) {
          assert Overlaps(rs[|rs| - 1], i, dayStart);
        }
      }
    }
  }

  /** Distributing into field f changes no other field and no date of any bucket. */
  lemma {:induction false} SpreadAllFrame(bs: seq<HourlyHealthPayload>, rs: seq<HealthRecord>, f: BucketField,
                                          valueExtractor: HealthRecord -> real, dayStart: int)
    ensures var out := SpreadAll(bs, rs, f, valueExtractor, dayStart);
      forall i | 0 <= i < |bs| ::
        && (forall g :: g != f ==> FieldOf(out[i], g) == FieldOf(bs[i], g))
        && out[i].startDate == bs[i].startDate && out[i].endDate == bs[i].endDate
        && out[i].activeCaloriesUnit == bs[i].activeCaloriesUnit && out[i].distanceUnit == bs[i].distanceUnit
  {
    if |rs| > 0 {
      var init := rs[..|rs| - 1];
      var last := rs[|rs| - 1];
      SpreadAllFrame(bs, init, f, valueExtractor, dayStart);
      var mid := SpreadAll(bs, init, f, valueExtractor, dayStart);
      if RecordInterval(last).Some? {
        SpreadFrame(mid, f, valueExtractor(last), RecordInterval(last).value.0, RecordInterval(last).value.1, dayStart);
      }
    }
  }

  /** A bucket that no record overlaps is left as it was. */
  lemma {:induction false} SpreadAllUntouched(bs: seq<HourlyHealthPayload>, rs: seq<HealthRecord>, f: BucketField,
                                              valueExtractor: HealthRecord -> real, dayStart: int, i: nat)
    requires |bs| == HOURS && i < HOURS && !ActiveAt(rs, i, dayStart)
    ensures SpreadAll(bs, rs, f, valueExtractor, dayStart)[i] == bs[i]
  {
    if |rs| > 0 {
      var init := rs[..|rs| - 1];
      var last := rs[|rs| - 1];
      assert !ActiveAt(init, i, dayStart) by {
        forall k | 0 <= k < |init| ensures !Overlaps(init[k], i, dayStart) {
          assert init[k] == rs[k];
        }
      }
      SpreadAllUntouched(bs, init, f, valueExtractor, dayStart, i);
      assert !Overlaps(rs[|rs| - 1], i, dayStart);
      var mid := SpreadAll(bs, init, f, valueExtractor, dayStart);
      if RecordInterval(last).Some? {
        SpreadFrame(mid, f, valueExtractor(last), RecordInterval(last).value.0, RecordInterval(last).value.1, dayStart);
      }
    }
  }

  /** The details getTodayHourlyPayload starts from: hour i, nothing active, estimated, zero totals. */
  function InitialDetails(): (ds: seq<HourlyDetail>)
    ensures |ds| == HOURS
  {
    seq(HOURS, i requires 0 <= i < HOURS => HourlyDetail(i, 0.0, NoActiveSource, true, false, 0.0, 0.0))
  }

  /** The active flags agree: the source is "activeRecord" and not estimated exactly for a direct hour. */
  predicate Flagged(d: HourlyDetail) {
    && (d.activeCaloriesSource == ActiveRecord <==> d.hasActiveRecord)
    && (d.isEstimated <==> !d.hasActiveRecord)
  }

  /** An hour as populateMetricsIntoBuckets leaves it: flagged, no tier-2 trace, no active energy unless direct. */
  predicate PreFallback(b: HourlyHealthPayload, d: HourlyDetail) {
    && Flagged(d)
    && d.basalUsed == 0.0
    && d.activeCaloriesSource != TotalMinusBasal
    && (!d.hasActiveRecord ==> b.activeCalories == 0.0)
  }

  /**
   * Populating the empty buckets leaves every hour in the PreFallback shape;
   * an hour is direct exactly when a trusted active-energy record overlaps it.
   */
  lemma PopulateEstablishesPreFallback(bs: seq<HourlyHealthPayload>, t: RecordLists, dayStart: int)
    requires |bs| == HOURS && forall i | 0 <= i < HOURS :: bs[i].activeCalories == 0.0
    ensures var pb := PopulatedBuckets(bs, t, dayStart);
      var md := MarkAll(InitialDetails(), t.active, dayStart);
      forall i | 0 <= i < HOURS ::
        && PreFallback(pb[i], md[i])
        && md[i].hourIndex == i && md[i].totalCalories == 0.0
        && (md[i].hasActiveRecord <==> ActiveAt(t.active, i, dayStart))
  {
    var afterSteps := SpreadAll(bs, t.steps, Steps, CountOf, dayStart);
    var afterDistance := SpreadAll(afterSteps, t.distance, Distance, DistanceOf, dayStart);
    SpreadAllFrame(bs, t.steps, Steps, CountOf, dayStart);
    SpreadAllFrame(afterSteps, t.distance, Distance, DistanceOf, dayStart);
    MarkAllExact(InitialDetails(), t.active, dayStart);
    forall i | 0 <= i < HOURS && !ActiveAt(t.active, i, dayStart)
      ensures PopulatedBuckets(bs, t, dayStart)[i].activeCalories == 0.0
    {
      assert FieldOf(afterDistance[i], ActiveCalories) == FieldOf(bs[i], ActiveCalories);
      SpreadAllUntouched(afterDistance, t.active, ActiveCalories, EnergyOf, dayStart, i);
    }
  }

  // =====================================================================
  // applyFallbacks, as values

  /** The first loop of applyFallbacks for one total-energy record: its share is added to `totalCalories`. */
  function AddRecordTotals(ds: seq<HourlyDetail>, r: HealthRecord, dayStart: int): (out: seq<HourlyDetail>)
    ensures |out| == |ds|
  {
    match RecordInterval(r)
    case None => ds
    case Some((rStart, rEnd)) =>
      seq(|ds|, i requires 0 <= i < |ds| =>
        if HourOverlap(rStart, rEnd, dayStart, i) > 0
        then ds[i].(totalCalories := ds[i].totalCalories + Portion(EnergyOf(r), rStart, rEnd, dayStart, i))
        else ds[i])
  }

  /** The details after the first loop, over every total-energy record in order. */
  function TotalsAll(ds: seq<HourlyDetail>, rs: seq<HealthRecord>, dayStart: int): (out: seq<HourlyDetail>)
    ensures |out| == |ds|
  {
    if |rs| == 0 then ds
    else AddRecordTotals(TotalsAll(ds, rs[..|rs| - 1], dayStart), rs[|rs| - 1], dayStart)
  }

  /** `avgBmr * (3600000 / 86400000)`: the basal energy of one hour. */
  function BasalHour(avgBmr: real): (basal: real)
    ensures basal * 24.0 == avgBmr
  {
    avgBmr * (3600000.0 / 86400000.0)
  }

  /** `Math.max(hourTotalCal - basalHour, 0)`. */
  function Estimate(hourTotal: real, avgBmr: real): (e: real)
    ensures e >= 0.0 && e >= hourTotal - BasalHour(avgBmr)
    ensures e == 0.0 || e == hourTotal - BasalHour(avgBmr)
  {
    if hourTotal - BasalHour(avgBmr) >= 0.0 then hourTotal - BasalHour(avgBmr) else 0.0
  }

  /** The tier-2 condition: no direct record, positive total energy and a known BMR. */
  predicate Tier2Applies(d: HourlyDetail, avgBmr: real) {
    !d.hasActiveRecord && d.totalCalories > 0.0 && avgBmr > 0.0
  }

  /** The bucket after the second loop: only a tier-2 hour is overwritten. */
  function FallbackBucket(b: HourlyHealthPayload, d: HourlyDetail, avgBmr: real): HourlyHealthPayload {
    if d.hasActiveRecord then b
    else if Tier2Applies(d, avgBmr) then b.(activeCalories := Estimate(d.totalCalories, avgBmr))
    else b
  }

  /** The detail after the second loop: tier 1 copies the bucket, tier 2 the estimate, otherwise "none". */
  function FallbackDetail(b: HourlyHealthPayload, d: HourlyDetail, avgBmr: real): HourlyDetail {
    if d.hasActiveRecord then d.(activeCalories := b.activeCalories)
    else if Tier2Applies(d, avgBmr) then
      d.(activeCalories := Estimate(d.totalCalories, avgBmr), activeCaloriesSource := TotalMinusBasal,
         isEstimated := true, basalUsed := BasalHour(avgBmr))
    else d.(activeCalories := 0.0, activeCaloriesSource := NoActiveSource, isEstimated := true)
  }

  function FallbackBuckets(bs: seq<HourlyHealthPayload>, ds: seq<HourlyDetail>, avgBmr: real): (out: seq<HourlyHealthPayload>)
    requires |bs| == |ds|
    ensures |out| == |bs|
  {
    seq(|bs|, i requires 0 <= i < |bs| => FallbackBucket(bs[i], ds[i], avgBmr))
  }

  function FallbackDetails(bs: seq<HourlyHealthPayload>, ds: seq<HourlyDetail>, avgBmr: real): (out: seq<HourlyDetail>)
    requires |bs| == |ds|
    ensures |out| == |ds|
  {
    seq(|ds|, i requires 0 <= i < |ds| => FallbackDetail(bs[i], ds[i], avgBmr))
  }

  /** A tier-2 hour of the final details. */
  predicate IsTier2(d: HourlyDetail) {
    !d.hasActiveRecord && d.activeCaloriesSource == TotalMinusBasal
  }

  /** Σ totalCalories. */
  function SumTotals(ds: seq<HourlyDetail>): real {
    if |ds| == 0 then 0.0 else SumTotals(ds[..|ds| - 1]) + ds[|ds| - 1].totalCalories
  }

  /** Σ activeCalories over the direct hours. */
  function SumDirect(ds: seq<HourlyDetail>): real {
    if |ds| == 0 then 0.0
    else SumDirect(ds[..|ds| - 1]) + (if ds[|ds| - 1].hasActiveRecord then ds[|ds| - 1].activeCalories else 0.0)
  }

  /** Σ activeCalories over the tier-2 hours. */
  function SumEstimated(ds: seq<HourlyDetail>): real {
    if |ds| == 0 then 0.0
    else SumEstimated(ds[..|ds| - 1]) + (if IsTier2(ds[|ds| - 1]) then ds[|ds| - 1].activeCalories else 0.0)
  }

  /** The number of tier-2 hours. */
  function CountEstimated(ds: seq<HourlyDetail>): nat {
    if |ds| == 0 then 0 else CountEstimated(ds[..|ds| - 1]) + (if IsTier2(ds[|ds| - 1]) then 1 else 0)
  }

  /** Σ basalHour over the tier-2 hours: sumBasalUsed. */
  function SumBasal(ds: seq<HourlyDetail>, basalHour: real): real {
    if |ds| == 0 then 0.0 else SumBasal(ds[..|ds| - 1], basalHour) + (if IsTier2(ds[|ds| - 1]) then basalHour else 0.0)
  }

  /** sumBasalUsed is the number of tier-2 hours times the hourly basal. */
  lemma {:induction false} SumBasalCount(ds: seq<HourlyDetail>, basalHour: real)
    ensures SumBasal(ds, basalHour) == (CountEstimated(ds) as real) * basalHour
  {
    if |ds| > 0 {
      SumBasalCount(ds[..|ds| - 1], basalHour);
      var c := CountEstimated(ds[..|ds| - 1]) as real;
      if IsTier2(ds[|ds| - 1]) {
        assert (CountEstimated(ds) as real) == c + 1.0;
        assert (c + 1.0) * basalHour == c * basalHour + basalHour;
      }
    }
  }

  /** Each running sum of applyFallbacks grows by hour i's contribution. */
  lemma SumsStep(ds: seq<HourlyDetail>, i: nat, basalHour: real)
    requires i < |ds|
    ensures SumTotals(ds[..i + 1]) == SumTotals(ds[..i]) + ds[i].totalCalories
    ensures SumDirect(ds[..i + 1]) == SumDirect(ds[..i]) + (if ds[i].hasActiveRecord then ds[i].activeCalories else 0.0)
    ensures SumEstimated(ds[..i + 1]) == SumEstimated(ds[..i]) + (if IsTier2(ds[i]) then ds[i].activeCalories else 0.0)
    ensures SumBasal(ds[..i + 1], basalHour) == SumBasal(ds[..i], basalHour) + (if IsTier2(ds[i]) then basalHour else 0.0)
  {
    assert ds[..i + 1][..i] == ds[..i];
  }

  /** An hour after the whole pipeline. */
  predicate FinalHour(b: HourlyHealthPayload, d: HourlyDetail) {
    && Flagged(d)
    && (d.basalUsed > 0.0 ==> d.activeCaloriesSource == TotalMinusBasal)
    && d.activeCalories == b.activeCalories
    && (d.activeCaloriesSource == NoActiveSource ==> d.activeCalories == 0.0)
  }

  // ---------------------------------------------------------------------
  // What applyFallbacks promises

  /** The first loop only adds to `totalCalories`. */
  lemma {:induction false} TotalsAllFrame(ds: seq<HourlyDetail>, rs: seq<HealthRecord>, dayStart: int)
    ensures var out := TotalsAll(ds, rs, dayStart);
      forall i | 0 <= i < |ds| :: out[i] == ds[i].(totalCalories := out[i].totalCalories)
  {
    if |rs| > 0 {
      TotalsAllFrame(ds, rs[..|rs| - 1], dayStart);
    }
  }

  /**
   * One hour of the fallback, from the PreFallback shape: the result is a
   * FinalHour, it is tier 2 exactly when the tier-2 condition held, a tier-2
   * hour carries the estimate and the hourly basal, and a direct hour keeps
   * its bucket.
   */
  lemma FallbackHour(b: HourlyHealthPayload, d: HourlyDetail, avgBmr: real)
    requires PreFallback(b, d)
    ensures var fb := FallbackBucket(b, d, avgBmr);
      var fd := FallbackDetail(b, d, avgBmr);
      && FinalHour(fb, fd)
      && (IsTier2(fd) <==> Tier2Applies(d, avgBmr))
      && (IsTier2(fd) ==> fd.activeCalories == Estimate(d.totalCalories, avgBmr) && fd.basalUsed == BasalHour(avgBmr))
      && (d.hasActiveRecord ==> fb == b && fd.activeCaloriesSource == ActiveRecord)
      && (!d.hasActiveRecord && !Tier2Applies(d, avgBmr) ==> fd.activeCaloriesSource == NoActiveSource && fb == b)
      && fd.totalCalories == d.totalCalories && fd.hourIndex == d.hourIndex
  {
  }

  /** The worked case: 150 kcal of total energy in an hour with a 2400 kcal/day BMR estimates 50 kcal. */
  lemma Tier2Example(b: HourlyHealthPayload, d: HourlyDetail)
    requires !d.hasActiveRecord && d.totalCalories == 150.0
    ensures BasalHour(2400.0) == 100.0
    ensures FallbackDetail(b, d, 2400.0).activeCalories == 50.0
    ensures FallbackBucket(b, d, 2400.0).activeCalories == 50.0
    ensures FallbackDetail(b, d, 2400.0).activeCaloriesSource == TotalMinusBasal
  {
  }

  /**
   * The dashboard's active energy splits into the two tiers: over hours in
   * the FinalHour shape, Σ bucket activeCalories is Σ over direct hours plus
   * Σ over tier-2 hours of the detail's activeCalories.
   */
  lemma {:induction false} ActiveSumSplit(bs: seq<HourlyHealthPayload>, ds: seq<HourlyDetail>)
    requires |bs| == |ds| && forall i | 0 <= i < |bs| :: FinalHour(bs[i], ds[i])
    ensures SumField(bs, ActiveCalories) == SumDirect(ds) + SumEstimated(ds)
  {
    if |bs| > 0 {
      var n := |bs| - 1;
      ActiveSumSplit(bs[..n], ds[..n]);
      assert FinalHour(bs[n], ds[n]);
    }
  }

  // =====================================================================
  // getTodayHourlyPayload, as a value

  /** What the five filterAndTrack calls keep. */
  function TrustedLists(data: RecordLists, allowManual: bool): RecordLists {
    RecordLists(Kept(data.steps, allowManual), Kept(data.distance, allowManual), Kept(data.active, allowManual),
                Kept(data.total, allowManual), Kept(data.bmr, allowManual))
  }

  /** The five (records, typeName) pairs, in the order getTodayHourlyPayload filters them. */
  function Batches(data: RecordLists): seq<(seq<HealthRecord>, string)> {
    [(data.steps, "Steps"), (data.distance, "Distance"), (data.active, "ActiveCal"),
     (data.total, "TotalCal"), (data.bmr, "BMR")]
  }

  /** The counters after filterAndTrack has run over each batch in turn. */
  function TrackBatches(s: FilteringStats, bs: seq<(seq<HealthRecord>, string)>, allowManual: bool): FilteringStats
    decreases |bs|
  {
    if |bs| == 0 then s else TrackBatches(TrackStats(s, bs[0].0, bs[0].1, allowManual), bs[1..], allowManual)
  }

  function BatchesRead(bs: seq<(seq<HealthRecord>, string)>): nat
    decreases |bs|
  {
    if |bs| == 0 then 0 else |bs[0].0| + BatchesRead(bs[1..])
  }

  function BatchesKept(bs: seq<(seq<HealthRecord>, string)>, allowManual: bool): nat
    decreases |bs|
  {
    if |bs| == 0 then 0 else |Kept(bs[0].0, allowManual)| + BatchesKept(bs[1..], allowManual)
  }

  /** The counters after the five filterAndTrack calls, from initStats. */
  function StatsAfter(data: RecordLists, allowManual: bool): FilteringStats {
    TrackBatches(InitStats(), Batches(data), allowManual)
  }

  /** Running filterAndTrack over several batches keeps the counters balanced and counts every record. */
  lemma {:induction false} TrackBatchesBalanced(s: FilteringStats, bs: seq<(seq<HealthRecord>, string)>, allowManual: bool)
    requires Balanced(s)
    ensures Balanced(TrackBatches(s, bs, allowManual))
    ensures TrackBatches(s, bs, allowManual).recordsRead == s.recordsRead + BatchesRead(bs)
    ensures TrackBatches(s, bs, allowManual).recordsAccepted == s.recordsAccepted + BatchesKept(bs, allowManual)
    decreases |bs|
  {
    if |bs| > 0 {
      TrackStatsBalanced(s, bs[0].0, bs[0].1, allowManual);
      TrackBatchesBalanced(TrackStats(s, bs[0].0, bs[0].1, allowManual), bs[1..], allowManual);
    }
  }

  /** The audit log after the five filterAndTrack calls. */
  function AuditAfter(data: RecordLists, allowManual: bool): seq<IngestionRecord> {
    AuditEntries(data.steps, "Steps", allowManual) + AuditEntries(data.distance, "Distance", allowManual)
    + AuditEntries(data.active, "ActiveCal", allowManual) + AuditEntries(data.total, "TotalCal", allowManual)
    + AuditEntries(data.bmr, "BMR", allowManual)
  }

  function RecordCount(data: RecordLists): nat {
    |data.steps| + |data.distance| + |data.active| + |data.total| + |data.bmr|
  }

  /** The average BMR of the trusted BMR records. */
  function RunAvgBmr(data: RecordLists, allowManual: bool): real
    requires PayloadsPresent(TrustedLists(data, allowManual))
  {
    CalculateAverageBmr(TrustedLists(data, allowManual).bmr)
  }

  /** The buckets after populateMetricsIntoBuckets on the empty buckets of the day. */
  function RunPopulated(data: RecordLists, today: DateParts, dayStart: int, allowManual: bool): seq<HourlyHealthPayload> {
    PopulatedBuckets(EmptyBuckets(today), TrustedLists(data, allowManual), dayStart)
  }

  /** The details after populateMetricsIntoBuckets and the first loop of applyFallbacks. */
  function RunTotals(data: RecordLists, dayStart: int, allowManual: bool): seq<HourlyDetail> {
    var t := TrustedLists(data, allowManual);
    TotalsAll(MarkAll(InitialDetails(), t.active, dayStart), t.total, dayStart)
  }

  /** The four sums applyFallbacks returns, in terms of the final details. */
  function FallbackSums(ds: seq<HourlyDetail>, avgBmr: real): CalculationResults {
    CalculationResults(SumDirect(ds), SumEstimated(ds), SumTotals(ds), SumBasal(ds, BasalHour(avgBmr)))
  }

  /** The returned buckets and the stored debug state of one getTodayHourlyPayload run. */
  function Reconcile(data: RecordLists, today: DateParts, dayStart: int, allowManual: bool): (seq<HourlyHealthPayload>, ProviderDebugState)
    requires PayloadsPresent(TrustedLists(data, allowManual))
  {
    var avg := RunAvgBmr(data, allowManual);
    var pb := RunPopulated(data, today, dayStart, allowManual);
    var td := RunTotals(data, dayStart, allowManual);
    var fds := FallbackDetails(pb, td, avg);
    (FallbackBuckets(pb, td, avg), ProviderDebugState(fds, FallbackSums(fds, avg), avg, StatsAfter(data, allowManual), AuditAfter(data, allowManual)))
  }

  /** The five batches hold every record read, and the trusted lists every record kept. */
  lemma BatchesCounts(data: RecordLists, allowManual: bool)
    ensures BatchesRead(Batches(data)) == RecordCount(data)
    ensures BatchesKept(Batches(data), allowManual) == RecordCount(TrustedLists(data, allowManual))
  {
    var b0 := Batches(data);
    var b1 := b0[1..];
    var b2 := b1[1..];
    var b3 := b2[1..];
    var b4 := b3[1..];
    assert b0[0].0 == data.steps && b1[0].0 == data.distance && b2[0].0 == data.active;
    assert b3[0].0 == data.total && b4[0].0 == data.bmr && b4[1..] == [];
    assert BatchesRead(b0) == |data.steps| + BatchesRead(b1);
    assert BatchesRead(b1) == |data.distance| + BatchesRead(b2);
    assert BatchesRead(b2) == |data.active| + BatchesRead(b3);
    assert BatchesRead(b3) == |data.total| + BatchesRead(b4);
    assert BatchesRead(b4) == |data.bmr|;
    assert BatchesKept(b0, allowManual) == |Kept(data.steps, allowManual)| + BatchesKept(b1, allowManual);
    assert BatchesKept(b1, allowManual) == |Kept(data.distance, allowManual)| + BatchesKept(b2, allowManual);
    assert BatchesKept(b2, allowManual) == |Kept(data.active, allowManual)| + BatchesKept(b3, allowManual);
    assert BatchesKept(b3, allowManual) == |Kept(data.total, allowManual)| + BatchesKept(b4, allowManual);
    assert BatchesKept(b4, allowManual) == |Kept(data.bmr, allowManual)|;
  }

  /** From zero counters, the five batches leave the counters balanced and counting every record read and kept. */
  lemma TrackFromZero(s0: FilteringStats, data: RecordLists, allowManual: bool)
    requires Balanced(s0) && s0.recordsRead == 0 && s0.recordsAccepted == 0
    ensures var s := TrackBatches(s0, Batches(data), allowManual);
      && Balanced(s)
      && s.recordsRead == RecordCount(data)
      && s.recordsAccepted == RecordCount(TrustedLists(data, allowManual))
  {
    TrackBatchesBalanced(s0, Batches(data), allowManual);
    BatchesCounts(data, allowManual);
  }

  /** TrackBatches over the five batches is the five filterAndTrack calls one after the other. */
  lemma TrackBatchesInOrder(s0: FilteringStats, data: RecordLists, allowManual: bool)
    ensures TrackBatches(s0, Batches(data), allowManual)
         == TrackStats(TrackStats(TrackStats(TrackStats(TrackStats(s0,
              data.steps, "Steps", allowManual), data.distance, "Distance", allowManual),
              data.active, "ActiveCal", allowManual), data.total, "TotalCal", allowManual),
              data.bmr, "BMR", allowManual)
  {
    var b0 := Batches(data);
    var b1 := b0[1..];
    var b2 := b1[1..];
    var b3 := b2[1..];
    var b4 := b3[1..];
    assert b0[0] == (data.steps, "Steps") && b1[0] == (data.distance, "Distance") && b2[0] == (data.active, "ActiveCal");
    assert b3[0] == (data.total, "TotalCal") && b4[0] == (data.bmr, "BMR") && b4[1..] == [];
    var s1 := TrackStats(s0, data.steps, "Steps", allowManual);
    var s2 := TrackStats(s1, data.distance, "Distance", allowManual);
    var s3 := TrackStats(s2, data.active, "ActiveCal", allowManual);
    var s4 := TrackStats(s3, data.total, "TotalCal", allowManual);
    var s5 := TrackStats(s4, data.bmr, "BMR", allowManual);
    assert TrackBatches(s0, b0, allowManual) == TrackBatches(s1, b1, allowManual);
    assert TrackBatches(s1, b1, allowManual) == TrackBatches(s2, b2, allowManual);
    assert TrackBatches(s2, b2, allowManual) == TrackBatches(s3, b3, allowManual);
    assert TrackBatches(s3, b3, allowManual) == TrackBatches(s4, b4, allowManual);
    assert TrackBatches(s4, b4, allowManual) == TrackBatches(s5, b4[1..], allowManual);
  }

  /** perType after the five lists: one entry per type name, each counting its own list. */
  predicate PerTypeExact(perType: map<string, TypeCounts>, data: RecordLists, allowManual: bool) {
    && perType.Keys == TYPE_NAMES
    && perType["Steps"] == TypeCounts(|data.steps|, |Kept(data.steps, allowManual)|)
    && perType["Distance"] == TypeCounts(|data.distance|, |Kept(data.distance, allowManual)|)
    && perType["ActiveCal"] == TypeCounts(|data.active|, |Kept(data.active, allowManual)|)
    && perType["TotalCal"] == TypeCounts(|data.total|, |Kept(data.total, allowManual)|)
    && perType["BMR"] == TypeCounts(|data.bmr|, |Kept(data.bmr, allowManual)|)
  }

  /** filterAndTrack on a type not yet seen: its entry starts from zero and the others stay. */
  lemma TrackNewType(s: FilteringStats, rs: seq<HealthRecord>, typeName: string, allowManual: bool)
    requires typeName !in s.perType
    ensures TrackStats(s, rs, typeName, allowManual).perType == s.perType[typeName := TypeCounts(|rs|, |Kept(rs, allowManual)|)]
    ensures TrackStats(s, rs, typeName, allowManual).recordsAccepted == s.recordsAccepted + |Kept(rs, allowManual)|
  {
  }

  /** perType after the five lists, as a map display. */
  function PerTypeAfterDisplay(data: RecordLists, allowManual: bool): map<string, TypeCounts> {
    map["Steps" := TypeCounts(|data.steps|, |Kept(data.steps, allowManual)|),
        "Distance" := TypeCounts(|data.distance|, |Kept(data.distance, allowManual)|),
        "ActiveCal" := TypeCounts(|data.active|, |Kept(data.active, allowManual)|),
        "TotalCal" := TypeCounts(|data.total|, |Kept(data.total, allowManual)|),
        "BMR" := TypeCounts(|data.bmr|, |Kept(data.bmr, allowManual)|)]
  }

  /**
   * The five type names are distinct, so from an empty perType each
   * filterAndTrack call starts its type from `{ read: 0, accepted: 0 }` and
   * the entries do not mix.
   */
  lemma PerTypeInOrder(s0: FilteringStats, data: RecordLists, allowManual: bool)
    requires s0.perType == map[]
    ensures var s5 := TrackStats(TrackStats(TrackStats(TrackStats(TrackStats(s0,
              data.steps, "Steps", allowManual), data.distance, "Distance", allowManual),
              data.active, "ActiveCal", allowManual), data.total, "TotalCal", allowManual),
              data.bmr, "BMR", allowManual);
      && s5.perType == PerTypeAfterDisplay(data, allowManual)
      && s5.recordsAccepted == s0.recordsAccepted + RecordCount(TrustedLists(data, allowManual))
  {
    var s1 := TrackStats(s0, data.steps, "Steps", allowManual);
    var s2 := TrackStats(s1, data.distance, "Distance", allowManual);
    var s3 := TrackStats(s2, data.active, "ActiveCal", allowManual);
    var s4 := TrackStats(s3, data.total, "TotalCal", allowManual);
    var cs := TypeCounts(|data.steps|, |Kept(data.steps, allowManual)|);
    var cd := TypeCounts(|data.distance|, |Kept(data.distance, allowManual)|);
    var ca := TypeCounts(|data.active|, |Kept(data.active, allowManual)|);
    var ct := TypeCounts(|data.total|, |Kept(data.total, allowManual)|);
    TrackNewType(s0, data.steps, "Steps", allowManual);
    assert s1.perType == map["Steps" := cs];
    TrackNewType(s1, data.distance, "Distance", allowManual);
    assert s2.perType == map["Steps" := cs, "Distance" := cd];
    TrackNewType(s2, data.active, "ActiveCal", allowManual);
    assert s3.perType == map["Steps" := cs, "Distance" := cd, "ActiveCal" := ca];
    TrackNewType(s3, data.total, "TotalCal", allowManual);
    assert s4.perType == map["Steps" := cs, "Distance" := cd, "ActiveCal" := ca, "TotalCal" := ct];
    TrackNewType(s4, data.bmr, "BMR", allowManual);
  }

  /** perType after one run: one entry per type name, each counting its own list, adding up to recordsAccepted. */
  lemma PerTypeAfter(data: RecordLists, allowManual: bool)
    ensures PerTypeExact(StatsAfter(data, allowManual).perType, data, allowManual)
    ensures StatsAfter(data, allowManual).recordsAccepted == AcceptedByType(StatsAfter(data, allowManual).perType)
  {
    TrackBatchesInOrder(InitStats(), data, allowManual);
    PerTypeInOrder(InitStats(), data, allowManual);
    var m := PerTypeAfterDisplay(data, allowManual);
    assert StatsAfter(data, allowManual).perType == m;
    assert m.Keys == TYPE_NAMES;
  }

  /**
   * The counters after the five lists are balanced, count every record read
   * and kept, and hold one perType entry per list whose accepted counts add
   * up to recordsAccepted.
   */
  lemma StatsAfterFacts(data: RecordLists, allowManual: bool)
    ensures var s := StatsAfter(data, allowManual);
      var t := TrustedLists(data, allowManual);
      && Balanced(s)
      && s.recordsRead == RecordCount(data)
      && s.recordsAccepted == RecordCount(t)
      && PerTypeExact(s.perType, data, allowManual)
      && s.recordsAccepted == AcceptedByType(s.perType)
  {
    InitStatsBalanced();
    TrackFromZero(InitStats(), data, allowManual);
    PerTypeAfter(data, allowManual);
  }

  /** One hour after populate and fallback, starting from a bucket with no active energy. */
  lemma PipelineHour(eb: seq<HourlyHealthPayload>, t: RecordLists, dayStart: int, avg: real, i: nat)
    requires |eb| == HOURS && (forall j | 0 <= j < HOURS :: eb[j].activeCalories == 0.0) && i < HOURS
    ensures var pb := PopulatedBuckets(eb, t, dayStart);
      var td := TotalsAll(MarkAll(InitialDetails(), t.active, dayStart), t.total, dayStart);
      var fb := FallbackBucket(pb[i], td[i], avg);
      var fd := FallbackDetail(pb[i], td[i], avg);
      && FinalHour(fb, fd)
      && fd.hourIndex == i
      && (fd.hasActiveRecord <==> ActiveAt(t.active, i, dayStart))
      && (IsTier2(fd) <==> !ActiveAt(t.active, i, dayStart) && fd.totalCalories > 0.0 && avg > 0.0)
      && fb.startDate == eb[i].startDate && fb.endDate == eb[i].endDate
      && fb.activeCaloriesUnit == eb[i].activeCaloriesUnit && fb.distanceUnit == eb[i].distanceUnit
  {
    var md := MarkAll(InitialDetails(), t.active, dayStart);
    var td := TotalsAll(md, t.total, dayStart);
    var pb := PopulatedBuckets(eb, t, dayStart);
    PopulateEstablishesPreFallback(eb, t, dayStart);
    TotalsAllFrame(md, t.total, dayStart);
    assert td[i] == md[i].(totalCalories := td[i].totalCalories);
    assert PreFallback(pb[i], td[i]);
    FallbackHour(pb[i], td[i], avg);
    var afterSteps := SpreadAll(eb, t.steps, Steps, CountOf, dayStart);
    var afterDistance := SpreadAll(afterSteps, t.distance, Distance, DistanceOf, dayStart);
    SpreadAllFrame(eb, t.steps, Steps, CountOf, dayStart);
    SpreadAllFrame(afterSteps, t.distance, Distance, DistanceOf, dayStart);
    SpreadAllFrame(afterDistance, t.active, ActiveCalories, EnergyOf, dayStart);
  }

  /** The 24 hours after populate and fallback, and the tier split of the active-energy total. */
  lemma PipelineHours(eb: seq<HourlyHealthPayload>, t: RecordLists, dayStart: int, avg: real)
    requires |eb| == HOURS && forall j | 0 <= j < HOURS :: eb[j].activeCalories == 0.0
    ensures var pb := PopulatedBuckets(eb, t, dayStart);
      var td := TotalsAll(MarkAll(InitialDetails(), t.active, dayStart), t.total, dayStart);
      var fbs := FallbackBuckets(pb, td, avg);
      var fds := FallbackDetails(pb, td, avg);
      && (forall i | 0 <= i < HOURS ::
            && FinalHour(fbs[i], fds[i])
            && fds[i].hourIndex == i
            && (fds[i].hasActiveRecord <==> ActiveAt(t.active, i, dayStart))
            && (IsTier2(fds[i]) <==> !ActiveAt(t.active, i, dayStart) && fds[i].totalCalories > 0.0 && avg > 0.0)
            && fbs[i].startDate == eb[i].startDate && fbs[i].endDate == eb[i].endDate
            && fbs[i].activeCaloriesUnit == eb[i].activeCaloriesUnit && fbs[i].distanceUnit == eb[i].distanceUnit)
      && SumField(fbs, ActiveCalories) == SumDirect(fds) + SumEstimated(fds)
  {
    var pb := PopulatedBuckets(eb, t, dayStart);
    var td := TotalsAll(MarkAll(InitialDetails(), t.active, dayStart), t.total, dayStart);
    var fbs := FallbackBuckets(pb, td, avg);
    var fds := FallbackDetails(pb, td, avg);
    forall i | 0 <= i < HOURS
      ensures && FinalHour(fbs[i], fds[i])
            && fds[i].hourIndex == i
            && (fds[i].hasActiveRecord <==> ActiveAt(t.active, i, dayStart))
            && (IsTier2(fds[i]) <==> !ActiveAt(t.active, i, dayStart) && fds[i].totalCalories > 0.0 && avg > 0.0)
            && fbs[i].startDate == eb[i].startDate && fbs[i].endDate == eb[i].endDate
            && fbs[i].activeCaloriesUnit == eb[i].activeCaloriesUnit && fbs[i].distanceUnit == eb[i].distanceUnit
    {
      PipelineHour(eb, t, dayStart, avg, i);
    }
    ActiveSumSplit(fbs, fds);
  }

  /**
   * The hours of one run: 24 buckets with the empty buckets' dates and
   * units, every hour in the FinalHour shape, an hour direct exactly when a
   * trusted active-energy record overlaps it and tier 2 exactly when it is
   * not direct, has positive total energy and the BMR is known; the
   * dashboard's active energy is tier 1 plus tier 2.
   */
  lemma ReconcileHours(data: RecordLists, today: DateParts, dayStart: int, allowManual: bool)
    requires PayloadsPresent(TrustedLists(data, allowManual))
    ensures var (payload, dbg) := Reconcile(data, today, dayStart, allowManual);
      var t := TrustedLists(data, allowManual);
      && |payload| == HOURS && |dbg.hourly| == HOURS
      && (forall i | 0 <= i < HOURS ::
            && FinalHour(payload[i], dbg.hourly[i])
            && dbg.hourly[i].hourIndex == i
            && (dbg.hourly[i].hasActiveRecord <==> ActiveAt(t.active, i, dayStart))
            && (IsTier2(dbg.hourly[i]) <==>
                  !ActiveAt(t.active, i, dayStart) && dbg.hourly[i].totalCalories > 0.0 && dbg.avgBmrKcalDay > 0.0)
            && payload[i].startDate == ToLocalISOString(HourStart(today, i))
            && payload[i].endDate == ToLocalISOString(HourEnd(today, i))
            && payload[i].activeCaloriesUnit == "kcal" && payload[i].distanceUnit == "m")
      && SumField(payload, ActiveCalories) == dbg.sums.sumActiveFromTier1 + dbg.sums.sumEstimatedFromTier2
  {
    var t := TrustedLists(data, allowManual);
    var eb := EmptyBuckets(today);
    var avg := CalculateAverageBmr(t.bmr);
    var pb := PopulatedBuckets(eb, t, dayStart);
    var td := TotalsAll(MarkAll(InitialDetails(), t.active, dayStart), t.total, dayStart);
    PipelineHours(eb, t, dayStart, avg);
    var payload := FallbackBuckets(pb, td, avg);
    forall i | 0 <= i < HOURS
      ensures payload[i].startDate == ToLocalISOString(HourStart(today, i))
      ensures payload[i].endDate == ToLocalISOString(HourEnd(today, i))
    {
      assert IsEmptyBucket(eb[i], today, i);
    }
  }

  /**
   * The bookkeeping of one run: balanced counters over every record read and
   * kept, one perType entry per list with accepted counts adding up to
   * recordsAccepted, and one audit entry per record.
   */
  lemma ReconcileCounters(data: RecordLists, today: DateParts, dayStart: int, allowManual: bool)
    requires PayloadsPresent(TrustedLists(data, allowManual))
    ensures var dbg := Reconcile(data, today, dayStart, allowManual).1;
      && Balanced(dbg.stats)
      && dbg.stats.recordsRead == RecordCount(data)
      && dbg.stats.recordsAccepted == RecordCount(TrustedLists(data, allowManual))
      && PerTypeExact(dbg.stats.perType, data, allowManual)
      && dbg.stats.recordsAccepted == AcceptedByType(dbg.stats.perType)
      && |dbg.auditLog| == RecordCount(data)
  {
    StatsAfterFacts(data, allowManual);
  }

  // =====================================================================
  // The provider

  /**
   * AndroidHealthConnectProvider: the debug state of the last
   * getTodayHourlyPayload run and the switch that lets manual entries
   * through the trust policy.
   */
  class AndroidHealthConnectProvider {
    var debugData: Option<ProviderDebugState>
    var bypassManualFilter: bool

    constructor()
      ensures debugData == None && !bypassManualFilter
    {
      debugData := None;
      bypassManualFilter := false;
    }

    /**
     * The callback of `records.filter`: validate r, push its audit entry and
     * count it as accepted (for its type too) or rejected for its reason.
     */
    method FilterCallback(r: HealthRecord, typeName: string, stats: FilteringStats, auditLog: seq<IngestionRecord>)
      returns (keep: bool, newStats: FilteringStats, newLog: seq<IngestionRecord>)
      requires typeName in stats.perType
      ensures keep == Validation(r, bypassManualFilter).trusted
      ensures newLog == auditLog + [AuditEntry(r, typeName, bypassManualFilter)]
      ensures newStats == CallbackStats(stats, r, typeName, bypassManualFilter)
    {
      var validation := ValidateRecord(r.metadata, bypassManualFilter);
      var originPackage := OriginOf(r.metadata).GetOr("unknown");
      var startTimeRaw := StartText(r);
      var timeLabel := UnknownTime;
      if startTimeRaw.Some? {
        match startTimeRaw.value
        case Parsed(ms) => timeLabel := LocalTime(ms);
        case Unparseable(text) => timeLabel := ErrLabel(text);
      }
      var value := ExtractValue(r);
      newLog := auditLog + [IngestionRecord(
        typeName, timeLabel, value, originPackage, validation.trusted, MethodOf(r.metadata),
        if validation.trusted then None else Some(validation.reason), r.metadata, DeviceText(r.metadata))];
      newStats := stats;
      if validation.trusted {
        var counts := newStats.perType[typeName];
        newStats := newStats.(recordsAccepted := newStats.recordsAccepted + 1,
                              perType := newStats.perType[typeName := counts.(accepted := counts.accepted + 1)]);
        keep := true;
      } else {
        var reason := validation.reason;
        newStats := newStats.(rejectedByReason :=
          newStats.rejectedByReason[reason := ReasonCount(newStats.rejectedByReason, reason) + 1]);
        keep := false;
      }
    }

    /**
     * filterAndTrack. The counters and the audit log the source updates
     * through shared references are passed in and returned; the kept
     * records, the counters and the log are those of Kept, TrackStats and
     * AuditEntries under the current bypass setting.
     */
    method FilterAndTrack(records: seq<HealthRecord>, typeName: string, stats: FilteringStats,
                          auditLog: seq<IngestionRecord>)
      returns (kept: seq<HealthRecord>, newStats: FilteringStats, newLog: seq<IngestionRecord>)
      ensures kept == Kept(records, bypassManualFilter)
      ensures newStats == TrackStats(stats, records, typeName, bypassManualFilter)
      ensures newLog == auditLog + AuditEntries(records, typeName, bypassManualFilter)
    {
      var base := TypeCountsOf(stats.perType, typeName);
      newStats := stats.(recordsRead := stats.recordsRead + |records|,
                         perType := stats.perType[typeName := TypeCounts(base.read + |records|, base.accepted)]);
      kept := [];
      newLog := auditLog;
      assert records[..0] == [];
      for i := 0 to |records|
        invariant kept == Kept(records[..i], bypassManualFilter)
        invariant newLog == auditLog + AuditEntries(records[..i], typeName, bypassManualFilter)
        invariant newStats == PrefixStats(stats, records, i, typeName, bypassManualFilter)
      {
        var keep;
        FilterStep(records, i, typeName, stats.rejectedByReason, bypassManualFilter);
        PrefixStep(stats, records, i, typeName, bypassManualFilter);
        keep, newStats, newLog := FilterCallback(records[i], typeName, newStats, newLog);
        if keep {
          kept := kept + [records[i]];
        }
      }
      assert records[..|records|] == records;
      PrefixEnds(stats, records, typeName, bypassManualFilter);
    }

    /** One list's `forEach` in populateMetricsIntoBuckets: every record of rs spread into field f, in order. */
    method SpreadRecords(buckets: array<HourlyHealthPayload>, rs: seq<HealthRecord>, f: BucketField,
                         valueExtractor: HealthRecord -> real, dayStart: int)
      requires buckets.Length == HOURS
      modifies buckets
      ensures buckets[..] == SpreadAll(old(buckets[..]), rs, f, valueExtractor, dayStart)
    {
      ghost var b0 := buckets[..];
      for k := 0 to |rs|
        invariant buckets[..] == SpreadAll(b0, rs[..k], f, valueExtractor, dayStart)
      {
        var touched := DistributeRecordAcrossBuckets(rs[k], buckets, dayStart, valueExtractor, f);
        assert rs[..k + 1][..k] == rs[..k];
      }
      assert rs[..|rs|] == rs;
    }

    /** The active-energy `onBucketTouch` callback, run for each touched hour. */
    method MarkHours(details: array<HourlyDetail>, touched: seq<nat>)
      requires details.Length == HOURS
      requires forall j | 0 <= j < |touched| :: touched[j] < HOURS
      modifies details
      ensures details[..] == MarkTouched(old(details[..]), touched)
    {
      ghost var d0 := details[..];
      for j := 0 to |touched|
        invariant details[..] == MarkTouched(d0, touched[..j])
      {
        var idx := touched[j];
        details[idx] := details[idx].(activeCaloriesSource := ActiveRecord, isEstimated := false, hasActiveRecord := true);
        assert touched[..j + 1] == touched[..j] + [idx];
      }
      assert touched[..|touched|] == touched;
    }

    /** The active-energy `forEach`: each record spread into activeCalories and its hours marked direct. */
    method SpreadActiveRecords(buckets: array<HourlyHealthPayload>, details: array<HourlyDetail>,
                               rs: seq<HealthRecord>, dayStart: int)
      requires buckets.Length == HOURS && details.Length == HOURS
      modifies buckets, details
      ensures buckets[..] == SpreadAll(old(buckets[..]), rs, ActiveCalories, EnergyOf, dayStart)
      ensures details[..] == MarkAll(old(details[..]), rs, dayStart)
    {
      ghost var b0 := buckets[..];
      ghost var d0 := details[..];
      for k := 0 to |rs|
        invariant buckets[..] == SpreadAll(b0, rs[..k], ActiveCalories, EnergyOf, dayStart)
        invariant details[..] == MarkAll(d0, rs[..k], dayStart)
      {
        var touched := DistributeRecordAcrossBuckets(rs[k], buckets, dayStart, EnergyOf, ActiveCalories);
        RecordTouchedExact(rs[k], dayStart);
        assert forall j | 0 <= j < |touched| :: touched[j] in touched;
        MarkHours(details, touched);
        assert rs[..k + 1][..k] == rs[..k];
      }
      assert rs[..|rs|] == rs;
    }

    /**
     * populateMetricsIntoBuckets: the trusted steps, distance and active
     * energy are spread in that order; every hour an active-energy record
     * touches is marked as a direct hour. The `onBucketTouch` callback is
     * applied here to the hours the distributor returns.
     */
    method PopulateMetricsIntoBuckets(buckets: array<HourlyHealthPayload>, details: array<HourlyDetail>,
                                      trusted: RecordLists, dayStart: int)
      requires buckets.Length == HOURS && details.Length == HOURS
      requires PayloadsPresent(trusted)
      modifies buckets, details
      ensures buckets[..] == PopulatedBuckets(old(buckets[..]), trusted, dayStart)
      ensures details[..] == MarkAll(old(details[..]), trusted.active, dayStart)
    {
      SpreadRecords(buckets, trusted.steps, Steps, CountOf, dayStart);
      SpreadRecords(buckets, trusted.distance, Distance, DistanceOf, dayStart);
      SpreadActiveRecords(buckets, details, trusted.active, dayStart);
    }

    /**
     * The first loop of applyFallbacks for one trusted total-energy record:
     * its share of energy is added to the `totalCalories` of each hour it
     * overlaps. A NaN timestamp makes every overlap NaN, so nothing is added.
     */
    method AddTotalCalories(details: array<HourlyDetail>, r: HealthRecord, dayStart: int)
      requires details.Length == HOURS && r.energyKcal.Some?
      modifies details
      ensures details[..] == AddRecordTotals(old(details[..]), r, dayStart)
    {
      var rStart := GetTime(StartText(r));
      var rEnd := GetTime(EndText(r));
      var totalVal := r.energyKcal.value;
      var duration: Option<int> := if rStart.Some? && rEnd.Some? then Some(Max(rEnd.value - rStart.value, 1)) else None;
      ghost var before := details[..];
      for i := 0 to HOURS
        invariant forall j | 0 <= j < i :: details[j] == AddRecordTotals(before, r, dayStart)[j]
        invariant forall j | i <= j < HOURS :: details[j] == before[j]
      {
        var bStart := dayStart + i * 3600000;
        var bEnd := bStart + 3600000;
        var overlap: Option<int> :=
          if rStart.Some? && rEnd.Some? then Some(Max(0, Min(rEnd.value, bEnd) - Max(rStart.value, bStart))) else None;
        if overlap.Some? && overlap.value > 0 {
          assert overlap.value == HourOverlap(rStart.value, rEnd.value, dayStart, i);
          var portion := totalVal * ((overlap.value as real) / (duration.value as real));
          details[i] := details[i].(totalCalories := details[i].totalCalories + portion);
        }
      }
      assert details[..] == AddRecordTotals(before, r, dayStart);
    }

    /**
     * One iteration of the second loop of applyFallbacks: hour i becomes
     * direct (the bucket's value is copied), estimated (total minus the
     * hourly basal, written to the bucket too) or none. The four amounts
     * the iteration adds to the sums are returned.
     */
    method ResolveHour(buckets: array<HourlyHealthPayload>, details: array<HourlyDetail>, i: nat, avgBmr: real)
      returns (direct: real, estimated: real, total: real, basal: real)
      requires buckets.Length == HOURS && details.Length == HOURS && i < HOURS
      modifies buckets, details
      ensures buckets[..] == old(buckets[..])[i := FallbackBucket(old(buckets[i]), old(details[i]), avgBmr)]
      ensures details[..] == old(details[..])[i := FallbackDetail(old(buckets[i]), old(details[i]), avgBmr)]
      ensures var fd := details[i];
        && total == fd.totalCalories
        && direct == (if fd.hasActiveRecord then fd.activeCalories else 0.0)
        && estimated == (if IsTier2(fd) then fd.activeCalories else 0.0)
        && basal == (if IsTier2(fd) then BasalHour(avgBmr) else 0.0)
    {
      direct, estimated, basal := 0.0, 0.0, 0.0;
      var hourTotalCal := details[i].totalCalories;
      total := hourTotalCal;
      if details[i].hasActiveRecord {
        direct := buckets[i].activeCalories;
        details[i] := details[i].(activeCalories := buckets[i].activeCalories);
      } else if hourTotalCal > 0.0 && avgBmr > 0.0 {
        var bucketDurationMs := 3600000.0;
        var basalHour := avgBmr * (bucketDurationMs / 86400000.0);
        var activeEst := if hourTotalCal - basalHour >= 0.0 then hourTotalCal - basalHour else 0.0;
        buckets[i] := buckets[i].(activeCalories := activeEst);
        details[i] := details[i].(activeCalories := activeEst, activeCaloriesSource := TotalMinusBasal,
                                  isEstimated := true, basalUsed := basalHour);
        estimated := activeEst;
        basal := basalHour;
      } else {
        details[i] := details[i].(activeCalories := 0.0, activeCaloriesSource := NoActiveSource, isEstimated := true);
      }
    }

    /** The second loop of applyFallbacks, with its four running sums. */
    method ResolveHours(buckets: array<HourlyHealthPayload>, details: array<HourlyDetail>, avgBmr: real)
      returns (results: CalculationResults)
      requires buckets.Length == HOURS && details.Length == HOURS
      modifies buckets, details
      ensures buckets[..] == FallbackBuckets(old(buckets[..]), old(details[..]), avgBmr)
      ensures details[..] == FallbackDetails(old(buckets[..]), old(details[..]), avgBmr)
      ensures results == FallbackSums(details[..], avgBmr)
    {
      var sumActiveFromTier1 := 0.0;
      var sumEstimatedFromTier2 := 0.0;
      var sumTotalCalories := 0.0;
      var sumBasalUsed := 0.0;
      ghost var b0 := buckets[..];
      ghost var td := details[..];
      ghost var fds := FallbackDetails(b0, td, avgBmr);
      for i := 0 to HOURS
        invariant forall j | 0 <= j < i :: buckets[j] == FallbackBucket(b0[j], td[j], avgBmr) && details[j] == fds[j]
        invariant forall j | i <= j < HOURS :: buckets[j] == b0[j] && details[j] == td[j]
        invariant sumTotalCalories == SumTotals(fds[..i])
        invariant sumActiveFromTier1 == SumDirect(fds[..i])
        invariant sumEstimatedFromTier2 == SumEstimated(fds[..i])
        invariant sumBasalUsed == SumBasal(fds[..i], BasalHour(avgBmr))
      {
        SumsStep(fds, i, BasalHour(avgBmr));
        var direct, estimated, total, basal := ResolveHour(buckets, details, i, avgBmr);
        sumTotalCalories := sumTotalCalories + total;
        sumActiveFromTier1 := sumActiveFromTier1 + direct;
        sumEstimatedFromTier2 := sumEstimatedFromTier2 + estimated;
        sumBasalUsed := sumBasalUsed + basal;
      }
      assert fds[..HOURS] == fds;
      assert details[..] == fds;
      results := CalculationResults(sumActiveFromTier1, sumEstimatedFromTier2, sumTotalCalories, sumBasalUsed);
    }

    /**
     * applyFallbacks: the hourly share of every trusted total-energy record,
     * then the per-hour resolution and its sums.
     */
    method ApplyFallbacks(buckets: array<HourlyHealthPayload>, details: array<HourlyDetail>,
                          trustedTotal: seq<HealthRecord>, avgBmr: real, dayStart: int)
      returns (results: CalculationResults)
      requires buckets.Length == HOURS && details.Length == HOURS
      requires forall k | 0 <= k < |trustedTotal| :: trustedTotal[k].energyKcal.Some?
      modifies buckets, details
      ensures var td := TotalsAll(old(details[..]), trustedTotal, dayStart);
        && buckets[..] == FallbackBuckets(old(buckets[..]), td, avgBmr)
        && details[..] == FallbackDetails(old(buckets[..]), td, avgBmr)
      ensures results == FallbackSums(details[..], avgBmr)
    {
      ghost var d0 := details[..];
      ghost var b0 := buckets[..];
      for k := 0 to |trustedTotal|
        invariant details[..] == TotalsAll(d0, trustedTotal[..k], dayStart)
        invariant buckets[..] == b0
      {
        AddTotalCalories(details, trustedTotal[k], dayStart);
        assert trustedTotal[..k + 1][..k] == trustedTotal[..k];
      }
      assert trustedTotal[..|trustedTotal|] == trustedTotal;
      results := ResolveHours(buckets, details, avgBmr);
    }

    /**
     * The five filterAndTrack calls of getTodayHourlyPayload, from initStats
     * and an empty audit log.
     */
    method FilterAll(data: RecordLists) returns (trusted: RecordLists, stats: FilteringStats, auditLog: seq<IngestionRecord>)
      ensures trusted == TrustedLists(data, bypassManualFilter)
      ensures stats == StatsAfter(data, bypassManualFilter)
      ensures auditLog == AuditAfter(data, bypassManualFilter)
    {
      auditLog := [];
      stats := InitStats();
      var steps, distance, active, total, bmr;
      steps, stats, auditLog := FilterAndTrack(data.steps, "Steps", stats, auditLog);
      distance, stats, auditLog := FilterAndTrack(data.distance, "Distance", stats, auditLog);
      active, stats, auditLog := FilterAndTrack(data.active, "ActiveCal", stats, auditLog);
      total, stats, auditLog := FilterAndTrack(data.total, "TotalCal", stats, auditLog);
      bmr, stats, auditLog := FilterAndTrack(data.bmr, "BMR", stats, auditLog);
      trusted := RecordLists(steps, distance, active, total, bmr);
      TrackBatchesInOrder(InitStats(), data, bypassManualFilter);
      assert [] + AuditEntries(data.steps, "Steps", bypassManualFilter) == AuditEntries(data.steps, "Steps", bypassManualFilter);
    }

    /**
     * The hourly phases of getTodayHourlyPayload on the trusted lists: fresh
     * buckets and details, populateMetricsIntoBuckets, then applyFallbacks.
     */
    method BuildHourly(trusted: RecordLists, today: DateParts, dayStart: int, avgBmrKcalDay: real)
      returns (payload: seq<HourlyHealthPayload>, hourly: seq<HourlyDetail>, results: CalculationResults)
      requires PayloadsPresent(trusted)
      ensures var pb := PopulatedBuckets(EmptyBuckets(today), trusted, dayStart);
        var td := TotalsAll(MarkAll(InitialDetails(), trusted.active, dayStart), trusted.total, dayStart);
        && payload == FallbackBuckets(pb, td, avgBmrKcalDay)
        && hourly == FallbackDetails(pb, td, avgBmrKcalDay)
        && results == FallbackSums(hourly, avgBmrKcalDay)
    {
      var bucketList := CreateEmptyHourlyBuckets(today);
      EmptyBucketsUnique(today, bucketList);
      var hourlyDetails := new HourlyDetail[HOURS](i requires 0 <= i < HOURS =>
        HourlyDetail(i, 0.0, NoActiveSource, true, false, 0.0, 0.0));
      assert hourlyDetails[..] == InitialDetails();
      var buckets := new HourlyHealthPayload[HOURS](i requires 0 <= i < HOURS => bucketList[i]);
      assert buckets[..] == EmptyBuckets(today);
      PopulateMetricsIntoBuckets(buckets, hourlyDetails, trusted, dayStart);
      results := ApplyFallbacks(buckets, hourlyDetails, trusted.total, avgBmrKcalDay, dayStart);
      payload := buckets[..];
      hourly := hourlyDetails[..];
    }

    /**
     * getTodayHourlyPayload: filter the five lists, average the BMR,
     * populate, apply the fallbacks, and store the debug state of the run.
     * The five `records` lists of today's reads, the local date and the start
     * of the day are parameters. The returned buckets and the stored debug
     * state are those of Reconcile, whose properties are ReconcileHours and
     * ReconcileCounters.
     */
    method GetTodayHourlyPayload(data: RecordLists, today: DateParts, dayStart: int)
      returns (payload: seq<HourlyHealthPayload>)
      requires PayloadsPresent(TrustedLists(data, bypassManualFilter))
      modifies this
      ensures bypassManualFilter == old(bypassManualFilter)
      ensures payload == Reconcile(data, today, dayStart, bypassManualFilter).0
      ensures debugData == Some(Reconcile(data, today, dayStart, bypassManualFilter).1)
    {
      var trusted, stats, auditLog := FilterAll(data);
      var avgBmrKcalDay := CalculateAverageBmr(trusted.bmr);
      var hourly, calculationResults;
      payload, hourly, calculationResults := BuildHourly(trusted, today, dayStart, avgBmrKcalDay);
      debugData := Some(ProviderDebugState(hourly, calculationResults, avgBmrKcalDay, stats, auditLog));
    }

    /**
     * getDashboardMetrics: a fresh run of getTodayHourlyPayload, reduced to
     * the three field totals; `nowISO` is `new Date().toISOString()`.
     */
    method GetDashboardMetrics(data: RecordLists, today: DateParts, dayStart: int, nowISO: string)
      returns (metrics: DashboardMetrics)
      requires PayloadsPresent(TrustedLists(data, bypassManualFilter))
      modifies this
      ensures bypassManualFilter == old(bypassManualFilter)
      ensures metrics == DashboardTotals(Reconcile(data, today, dayStart, bypassManualFilter).0, nowISO)
      ensures debugData == Some(Reconcile(data, today, dayStart, bypassManualFilter).1)
    {
      var hourly := GetTodayHourlyPayload(data, today, dayStart);
      metrics := DashboardTotals(hourly, nowISO);
    }

    /** getDetailedHourlyDebug: the hourly details of the last run, or none before the first. */
    function GetDetailedHourlyDebug(): (hourly: seq<HourlyDetail>)
      reads this
      ensures debugData.None? ==> hourly == []
      ensures debugData.Some? ==> hourly == debugData.value.hourly
    {
      if debugData.Some? then debugData.value.hourly else []
    }

    /** getIngestionAuditLog: the audit log of the last run, or none before the first. */
    function GetIngestionAuditLog(): (log: seq<IngestionRecord>)
      reads this
      ensures debugData.None? ==> log == []
      ensures debugData.Some? ==> log == debugData.value.auditLog
    {
      if debugData.Some? then debugData.value.auditLog else []
    }

    /** setBypassManualFilter: only the flag changes; it takes effect on the next run. */
    method SetBypassManualFilter(bypass: bool)
      modifies this
      ensures bypassManualFilter == bypass
      ensures debugData == old(debugData)
    {
      bypassManualFilter := bypass;
    }
  }
}
