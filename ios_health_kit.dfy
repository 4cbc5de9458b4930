/**
 * The HealthKit provider (src/health/providers/iosHealthKit.ts): today's
 * step, active-energy and distance samples are filtered by one rule (a
 * sample counts unless the user typed it in, or the bypass flag is set),
 * every sample is logged, and the trusted ones are spread over the 24
 * hourly buckets; hours reached by a trusted active-energy sample are
 * marked "activeRecord". There is no fallback tier on iOS.
 *
 * The sample queries are parameters; the specification functions below give
 * the buckets, details, counters and log a run produces, and the lemmas
 * state what the provider promises about them.
 */
module IosHealthKit {
  import opened Wrappers
  import opened Models
  import opened TimeBuckets
  import opened HourlySpread
  import opened IosUtils

  /** The iOS HourlyDetail source: "activeRecord" or "none". */
  datatype ActiveCaloriesSource = ActiveRecord | NoActiveSource

  /**
   * IngestionRecord. `time` is the sample's start instant (the source
   * renders it with `toLocaleTimeString`), `value` the quantity before
   * `toFixed(1)` rounding; `rawMetadata` is not modelled.
   */
  datatype IngestionRecord = IngestionRecord(
    typeName: string,
    time: int,
    value: real,
    origin: string,
    trusted: bool,
    rejectionReason: Option<string>)

  datatype HourlyDetail = HourlyDetail(
    hourIndex: nat,
    activeCalories: real,
    activeCaloriesSource: ActiveCaloriesSource,
    isEstimated: bool)

  datatype SampleStats = SampleStats(read: nat, accepted: nat, rejectedManual: nat)

  datatype ProviderDebugState = ProviderDebugState(
    hourly: seq<HourlyDetail>,
    stats: SampleStats,
    auditLog: seq<IngestionRecord>)

  /** The results of the three `queryQuantitySamples` calls. */
  datatype SampleLists = SampleLists(
    steps: seq<QuantitySample>,
    calories: seq<QuantitySample>,
    distance: seq<QuantitySample>)

  const MANUAL_ENTRY: string := "manual_entry"
  const NO_DATA: string := "No data fetched yet"
  const NO_MANUAL: string := "No manual entries detected"

  // ---------------------------------------------------------------------
  // Filtering and the audit log

  /** `!isManual || this.bypassManualFilter`. */
  predicate SampleTrusted(s: QuantitySample, bypass: bool) {
    !s.wasUserEntered || bypass
  }

  /** `bundleIdentifier || 'unknown'`. */
  function OriginOf(s: QuantitySample): string {
    if s.bundleIdentifier.Some? && s.bundleIdentifier.value != "" then s.bundleIdentifier.value else "unknown"
  }

  /** The entry processSamples pushes for one sample. */
  function SampleEntry(s: QuantitySample, typeName: string, bypass: bool): IngestionRecord {
    var trusted := SampleTrusted(s, bypass);
    IngestionRecord(typeName, s.startDate, s.quantity, OriginOf(s), trusted,
                    if trusted then None else Some(MANUAL_ENTRY))
  }

  function SampleEntries(ss: seq<QuantitySample>, typeName: string, bypass: bool): seq<IngestionRecord> {
    if |ss| == 0 then []
    else SampleEntries(ss[..|ss| - 1], typeName, bypass) + [SampleEntry(ss[|ss| - 1], typeName, bypass)]
  }

  /** The samples that pass the filter, in order. */
  function TrustedSamples(ss: seq<QuantitySample>, bypass: bool): seq<QuantitySample> {
    if |ss| == 0 then []
    else TrustedSamples(ss[..|ss| - 1], bypass)
         + (if SampleTrusted(ss[|ss| - 1], bypass) then [ss[|ss| - 1]] else [])
  }

  function ManualCount(ss: seq<QuantitySample>, bypass: bool): nat {
    if |ss| == 0 then 0
    else ManualCount(ss[..|ss| - 1], bypass) + (if SampleTrusted(ss[|ss| - 1], bypass) then 0 else 1)
  }

  /** The counters after processSamples ran over ss. */
  function Processed(s: SampleStats, ss: seq<QuantitySample>, bypass: bool): SampleStats {
    SampleStats(s.read + |ss|, s.accepted + |TrustedSamples(ss, bypass)|, s.rejectedManual + ManualCount(ss, bypass))
  }

  // ---------------------------------------------------------------------
  // Distribution and marking

  function SpreadSample(bs: seq<HourlyHealthPayload>, s: QuantitySample, f: BucketField, dayStart: int)
    : seq<HourlyHealthPayload>
  {
    Spread(bs, f, s.quantity, s.startDate, s.endDate, dayStart)
  }

  /** The buckets after distributing every sample of ss into field f, in order, unfiltered. */
  function SpreadAll(bs: seq<HourlyHealthPayload>, ss: seq<QuantitySample>, f: BucketField, dayStart: int)
    : (out: seq<HourlyHealthPayload>)
    ensures |out| == |bs|
  {
    if |ss| == 0 then bs
    else SpreadSample(SpreadAll(bs, ss[..|ss| - 1], f, dayStart), ss[|ss| - 1], f, dayStart)
  }

  /** The buckets after processSamples: each sample is distributed only if trusted. */
  function SpreadTrusted(bs: seq<HourlyHealthPayload>, ss: seq<QuantitySample>, f: BucketField, bypass: bool,
                         dayStart: int): (out: seq<HourlyHealthPayload>)
    ensures |out| == |bs|
  {
    if |ss| == 0 then bs
    else
      var prev := SpreadTrusted(bs, ss[..|ss| - 1], f, bypass, dayStart);
      if SampleTrusted(ss[|ss| - 1], bypass) then SpreadSample(prev, ss[|ss| - 1], f, dayStart) else prev
  }

  function SampleTouched(s: QuantitySample, dayStart: int): seq<nat> {
    TouchedHours(s.startDate, s.endDate, dayStart)
  }

  predicate Overlaps(s: QuantitySample, i: nat, dayStart: int) {
    HourOverlap(s.startDate, s.endDate, dayStart, i) > 0
  }

  /** What the active-energy callback does to an hour's detail. */
  function MarkSource(d: HourlyDetail): HourlyDetail {
    d.(activeCaloriesSource := ActiveRecord)
  }

  function MarkTouched(ds: seq<HourlyDetail>, hs: seq<nat>): (out: seq<HourlyDetail>)
    ensures |out| == |ds|
  {
    seq(|ds|, i requires 0 <= i < |ds| => if i in hs then MarkSource(ds[i]) else ds[i])
  }

  /** The details after the callback ran for every trusted sample of ss. */
  function MarkTrusted(ds: seq<HourlyDetail>, ss: seq<QuantitySample>, bypass: bool, dayStart: int)
    : (out: seq<HourlyDetail>)
    ensures |out| == |ds|
  {
    if |ss| == 0 then ds
    else
      var prev := MarkTrusted(ds, ss[..|ss| - 1], bypass, dayStart);
      if SampleTrusted(ss[|ss| - 1], bypass) then MarkTouched(prev, SampleTouched(ss[|ss| - 1], dayStart)) else prev
  }

  /** Some trusted sample of ss overlaps hour i. */
  predicate ActiveAt(ss: seq<QuantitySample>, bypass: bool, i: nat, dayStart: int) {
    exists k | 0 <= k < |ss| :: SampleTrusted(ss[k], bypass) && Overlaps(ss[k], i, dayStart)
  }

  /** How each per-batch function of ss[..i + 1] follows from the one of ss[..i]. */
  lemma SamplesStep(bs: seq<HourlyHealthPayload>, ds: seq<HourlyDetail>, log: seq<IngestionRecord>, stats: SampleStats,
                    ss: seq<QuantitySample>, i: nat, typeName: string, f: BucketField, bypass: bool, dayStart: int)
    requires i < |ss|
    ensures SpreadTrusted(bs, ss[..i + 1], f, bypass, dayStart)
            == if SampleTrusted(ss[i], bypass) then SpreadSample(SpreadTrusted(bs, ss[..i], f, bypass, dayStart), ss[i], f, dayStart)
               else SpreadTrusted(bs, ss[..i], f, bypass, dayStart)
    ensures MarkTrusted(ds, ss[..i + 1], bypass, dayStart)
            == if SampleTrusted(ss[i], bypass) then MarkTouched(MarkTrusted(ds, ss[..i], bypass, dayStart), SampleTouched(ss[i], dayStart))
               else MarkTrusted(ds, ss[..i], bypass, dayStart)
    ensures log + SampleEntries(ss[..i + 1], typeName, bypass)
            == (log + SampleEntries(ss[..i], typeName, bypass)) + [SampleEntry(ss[i], typeName, bypass)]
    ensures StatsAfter(stats, ss, i + 1, bypass)
            == var prev := StatsAfter(stats, ss, i, bypass);
               if SampleTrusted(ss[i], bypass) then prev.(accepted := prev.accepted + 1)
               else prev.(rejectedManual := prev.rejectedManual + 1)
  {
    assert ss[..i + 1][..i] == ss[..i];
  }

  /**
   * The counters while processSamples is at sample i of ss: `read` already
   * counts the whole batch, the other two the samples before i.
   */
  function StatsAfter(stats: SampleStats, ss: seq<QuantitySample>, i: nat, bypass: bool): SampleStats
    requires i <= |ss|
  {
    SampleStats(stats.read + |ss|, stats.accepted + |TrustedSamples(ss[..i], bypass)|,
                stats.rejectedManual + ManualCount(ss[..i], bypass))
  }

  // ---------------------------------------------------------------------
  // A whole run

  /** The details getTodayHourlyPayload starts from: hour i, no calories, "none", not estimated. */
  function InitialDetails(): seq<HourlyDetail> {
    seq(HOURS, i requires 0 <= i < HOURS => HourlyDetail(i, 0.0, NoActiveSource, false))
  }

  /** The buckets a run returns: steps, then active energy, then distance. */
  function RunBuckets(data: SampleLists, today: DateParts, dayStart: int, bypass: bool): seq<HourlyHealthPayload> {
    var afterSteps := SpreadTrusted(EmptyBuckets(today), data.steps, Steps, bypass, dayStart);
    var afterCalories := SpreadTrusted(afterSteps, data.calories, ActiveCalories, bypass, dayStart);
    SpreadTrusted(afterCalories, data.distance, Distance, bypass, dayStart)
  }

  function RunStats(data: SampleLists, bypass: bool): SampleStats {
    Processed(Processed(Processed(SampleStats(0, 0, 0), data.steps, bypass), data.calories, bypass), data.distance, bypass)
  }

  function RunAudit(data: SampleLists, bypass: bool): seq<IngestionRecord> {
    SampleEntries(data.steps, "Steps", bypass) + SampleEntries(data.calories, "ActiveCal", bypass)
    + SampleEntries(data.distance, "Distance", bypass)
  }

  /** The debug state a run stores. */
  function RunDebug(data: SampleLists, dayStart: int, bypass: bool): ProviderDebugState {
    ProviderDebugState(MarkTrusted(InitialDetails(), data.calories, bypass, dayStart), RunStats(data, bypass),
                       RunAudit(data, bypass))
  }

  function SampleCount(data: SampleLists): nat {
    |data.steps| + |data.calories| + |data.distance|
  }

  function TrustedCount(data: SampleLists, bypass: bool): nat {
    |TrustedSamples(data.steps, bypass)| + |TrustedSamples(data.calories, bypass)|
    + |TrustedSamples(data.distance, bypass)|
  }

  /** Σ of the quantities of ss. */
  function SumQuantity(ss: seq<QuantitySample>): real {
    if |ss| == 0 then 0.0 else SumQuantity(ss[..|ss| - 1]) + ss[|ss| - 1].quantity
  }

  predicate InsideDay(s: QuantitySample, dayStart: int) {
    dayStart <= s.startDate < s.endDate <= dayStart + DAY_MS
  }

  // ---------------------------------------------------------------------
  // getDebugInfo

  function SummaryLine(st: SampleStats): string {
    "iOS HealthKit: " + NatToString(st.accepted) + "/" + NatToString(st.read) + " samples accepted"
  }

  function WarningLine(n: nat): string {
    "\U{26A0}\U{FE0F} IGNORED: " + NatToString(n) + " manual entries (HKWasUserEntered)"
  }

  /** getDebugInfo of a provider whose stored debug state is d. */
  function DebugInfo(d: Option<ProviderDebugState>): (lines: seq<string>)
    ensures d.None? ==> lines == [NO_DATA]
    ensures d.Some? ==> |lines| == 2 && lines[0] == SummaryLine(d.value.stats)
    ensures d.Some? ==> (lines[1] != NO_MANUAL <==> d.value.stats.rejectedManual > 0)
  {
    if d.None? then [NO_DATA]
    else
      var st := d.value.stats;
      [SummaryLine(st), if st.rejectedManual > 0 then WarningLine(st.rejectedManual) else NO_MANUAL]
  }

  // ---------------------------------------------------------------------
  // Filtering properties

  /**
   * A sample passes the filter exactly when it is trusted, and every
   * sample either passes or is counted as a rejected manual entry.
   */
  lemma {:induction false} TrustedSamplesExact(ss: seq<QuantitySample>, bypass: bool)
    ensures forall s :: s in TrustedSamples(ss, bypass) <==> s in ss && SampleTrusted(s, bypass)
    ensures |TrustedSamples(ss, bypass)| + ManualCount(ss, bypass) == |ss|
  {
    if |ss| > 0 {
      var init := ss[..|ss| - 1];
      TrustedSamplesExact(init, bypass);
      assert ss == init + [ss[|ss| - 1]];
    }
  }

  /** There is a rejected manual entry exactly when some sample was typed in and the bypass is off. */
  lemma {:induction false} ManualCountPositive(ss: seq<QuantitySample>, bypass: bool)
    ensures ManualCount(ss, bypass) > 0 <==> !bypass && exists k | 0 <= k < |ss| :: ss[k].wasUserEntered
  {
    if |ss| > 0 {
      var init := ss[..|ss| - 1];
      ManualCountPositive(init, bypass);
      if exists k | 0 <= k < |ss| :: ss[k].wasUserEntered {
        var k :| 0 <= k < |ss| && ss[k].wasUserEntered;
        if k < |init| {
          assert init[k] == ss[k];
        }
      }
      if exists k | 0 <= k < |init| :: init[k].wasUserEntered {
        var k :| 0 <= k < |init| && init[k].wasUserEntered;
        assert ss[k] == init[k];
      }
    }
  }

  /** With the bypass set, every sample passes. */
  lemma {:induction false} BypassKeepsAll(ss: seq<QuantitySample>)
    ensures TrustedSamples(ss, true) == ss
    ensures ManualCount(ss, true) == 0
  {
    if |ss| > 0 {
      BypassKeepsAll(ss[..|ss| - 1]);
      assert ss == ss[..|ss| - 1] + [ss[|ss| - 1]];
    }
  }

  /**
   * One entry per sample, in order: entry k logs sample k under the batch's
   * type, its origin and quantity, whether it passed, and 'manual_entry'
   * exactly when it did not.
   */
  lemma {:induction false} SampleEntriesExact(ss: seq<QuantitySample>, typeName: string, bypass: bool)
    ensures var es := SampleEntries(ss, typeName, bypass);
      && |es| == |ss|
      && forall k | 0 <= k < |ss| ::
        && es[k].typeName == typeName
        && es[k].time == ss[k].startDate
        && es[k].value == ss[k].quantity
        && es[k].origin == OriginOf(ss[k])
        && es[k].trusted == SampleTrusted(ss[k], bypass)
        && (es[k].rejectionReason == Some(MANUAL_ENTRY) <==> !SampleTrusted(ss[k], bypass))
        && (es[k].rejectionReason.None? <==> SampleTrusted(ss[k], bypass))
  {
    if |ss| > 0 {
      var init := ss[..|ss| - 1];
      SampleEntriesExact(init, typeName, bypass);
      forall k | 0 <= k < |init| ensures init[k] == ss[k] {
      }
    }
  }

  /** The origin is the bundle identifier when there is a non-empty one, and 'unknown' otherwise. */
  lemma OriginFacts(s: QuantitySample)
    ensures s.bundleIdentifier.Some? && s.bundleIdentifier.value != "" ==> OriginOf(s) == s.bundleIdentifier.value
    ensures s.bundleIdentifier.None? || s.bundleIdentifier.value == "" ==> OriginOf(s) == "unknown"
  {
  }

  // ---------------------------------------------------------------------
  // Distribution properties

  lemma SpreadAllSnoc(bs: seq<HourlyHealthPayload>, xs: seq<QuantitySample>, s: QuantitySample, f: BucketField,
                      dayStart: int)
    ensures SpreadAll(bs, xs + [s], f, dayStart) == SpreadSample(SpreadAll(bs, xs, f, dayStart), s, f, dayStart)
  {
    assert (xs + [s])[..|xs|] == xs;
  }

  /** Only trusted samples are distributed: filtering first and spreading all gives the same buckets. */
  lemma {:induction false} SpreadTrustedIsFiltered(bs: seq<HourlyHealthPayload>, ss: seq<QuantitySample>,
                                                   f: BucketField, bypass: bool, dayStart: int)
    ensures SpreadTrusted(bs, ss, f, bypass, dayStart) == SpreadAll(bs, TrustedSamples(ss, bypass), f, dayStart)
  {
    if |ss| > 0 {
      var init := ss[..|ss| - 1];
      var last := ss[|ss| - 1];
      SpreadTrustedIsFiltered(bs, init, f, bypass, dayStart);
      if SampleTrusted(last, bypass) {
        assert TrustedSamples(ss, bypass) == TrustedSamples(init, bypass) + [last];
        SpreadAllSnoc(bs, TrustedSamples(init, bypass), last, f, dayStart);
      } else {
        assert TrustedSamples(ss, bypass) == TrustedSamples(init, bypass);
      }
    }
  }

  /** A day of typed-in samples changes no bucket unless the bypass is set. */
  lemma {:induction false} ManualSamplesIgnored(bs: seq<HourlyHealthPayload>, ss: seq<QuantitySample>, f: BucketField,
                                                dayStart: int)
    requires forall k | 0 <= k < |ss| :: ss[k].wasUserEntered
    ensures SpreadTrusted(bs, ss, f, false, dayStart) == bs
  {
    if |ss| > 0 {
      var init := ss[..|ss| - 1];
      assert forall k | 0 <= k < |init| :: init[k] == ss[k];
      ManualSamplesIgnored(bs, init, f, dayStart);
    }
  }

  /**
   * Distributing samples that lie inside the day adds exactly their total
   * quantity to field f over the 24 buckets and leaves the other fields' totals alone.
   */
  lemma {:induction false} SpreadAllConservation(bs: seq<HourlyHealthPayload>, ss: seq<QuantitySample>,
                                                 f: BucketField, dayStart: int)
    requires |bs| == HOURS
    requires forall k | 0 <= k < |ss| :: InsideDay(ss[k], dayStart)
    ensures SumField(SpreadAll(bs, ss, f, dayStart), f) == SumField(bs, f) + SumQuantity(ss)
    ensures forall g :: g != f ==> SumField(SpreadAll(bs, ss, f, dayStart), g) == SumField(bs, g)
  {
    if |ss| > 0 {
      var init := ss[..|ss| - 1];
      var last := ss[|ss| - 1];
      assert forall k | 0 <= k < |init| :: init[k] == ss[k];
      SpreadAllConservation(bs, init, f, dayStart);
      var mid := SpreadAll(bs, init, f, dayStart);
      assert InsideDay(last, dayStart);
      SpreadConservation(mid, f, last.quantity, last.startDate, last.endDate, dayStart);
    }
  }

  /** Distribution into field f changes no other field and no date or unit of any bucket. */
  lemma {:induction false} SpreadTrustedFrame(bs: seq<HourlyHealthPayload>, ss: seq<QuantitySample>, f: BucketField,
                                              bypass: bool, dayStart: int)
    ensures var out := SpreadTrusted(bs, ss, f, bypass, dayStart);
      forall i | 0 <= i < |bs| ::
        && (forall g :: g != f ==> FieldOf(out[i], g) == FieldOf(bs[i], g))
        && out[i].startDate == bs[i].startDate && out[i].endDate == bs[i].endDate
        && out[i].activeCaloriesUnit == bs[i].activeCaloriesUnit && out[i].distanceUnit == bs[i].distanceUnit
  {
    if |ss| > 0 {
      var init := ss[..|ss| - 1];
      var last := ss[|ss| - 1];
      SpreadTrustedFrame(bs, init, f, bypass, dayStart);
      var mid := SpreadTrusted(bs, init, f, bypass, dayStart);
      SpreadFrame(mid, f, last.quantity, last.startDate, last.endDate, dayStart);
    }
  }

  // ---------------------------------------------------------------------
  // Marking properties

  /**
   * Hour i is marked "activeRecord" exactly when some trusted sample of ss
   * overlaps it; every other part of every detail is left as it was.
   */
  lemma {:induction false} MarkTrustedExact(ds: seq<HourlyDetail>, ss: seq<QuantitySample>, bypass: bool,
                                            dayStart: int)
    requires |ds| == HOURS
    ensures forall i | 0 <= i < |ds| ::
      MarkTrusted(ds, ss, bypass, dayStart)[i] == if ActiveAt(ss, bypass, i, dayStart) then MarkSource(ds[i]) else ds[i]
  {
    if |ss| > 0 {
      var init := ss[..|ss| - 1];
      var last := ss[|ss| - 1];
      MarkTrustedExact(ds, init, bypass, dayStart);
      TouchedHoursExact(last.startDate, last.endDate, dayStart);
      forall i | 0 <= i < |ds|
        ensures ActiveAt(ss, bypass, i, dayStart)
            <==> ActiveAt(init, bypass, i, dayStart) || (SampleTrusted(last, bypass) && Overlaps(last, i, dayStart))
      {
        if ActiveAt(ss, bypass, i, dayStart) {
          var k :| 0 <= k < |ss| && SampleTrusted(ss[k], bypass) && Overlaps(ss[k], i, dayStart);
          if k < |init| {
            assert init[k] == ss[k];
          }
        }
        if ActiveAt(init, bypass, i, dayStart) {
          var k :| 0 <= k < |init| && SampleTrusted(init[k], bypass) && Overlaps(init[k], i, dayStart);
          assert ss[k] == init[k];
        }
        if SampleTrusted(last, bypass) && Overlaps(last, i, dayStart) {
          assert SampleTrusted(ss[|ss| - 1], bypass) && Overlaps(ss[|ss| - 1], i, dayStart);
        }
      }
    }
  }

  // ---------------------------------------------------------------------
  // What a run promises

  /**
   * The hourly detail of a run: hour i keeps its index, zero calories and
   * isEstimated false, and its source is "activeRecord" exactly when a
   * trusted active-energy sample overlaps it. The buckets keep the dates
   * and units of the empty buckets.
   */
  lemma RunHours(data: SampleLists, today: DateParts, dayStart: int, bypass: bool)
    ensures var hourly := RunDebug(data, dayStart, bypass).hourly;
      var payload := RunBuckets(data, today, dayStart, bypass);
      && |hourly| == HOURS && |payload| == HOURS
      && forall i | 0 <= i < HOURS ::
        && hourly[i] == HourlyDetail(i, 0.0,
                                     if ActiveAt(data.calories, bypass, i, dayStart) then ActiveRecord else NoActiveSource,
                                     false)
        && payload[i].startDate == ToLocalISOString(HourStart(today, i))
        && payload[i].endDate == ToLocalISOString(HourEnd(today, i))
        && payload[i].activeCaloriesUnit == "kcal" && payload[i].distanceUnit == "m"
  {
    MarkTrustedExact(InitialDetails(), data.calories, bypass, dayStart);
    var eb := EmptyBuckets(today);
    var afterSteps := SpreadTrusted(eb, data.steps, Steps, bypass, dayStart);
    var afterCalories := SpreadTrusted(afterSteps, data.calories, ActiveCalories, bypass, dayStart);
    SpreadTrustedFrame(eb, data.steps, Steps, bypass, dayStart);
    SpreadTrustedFrame(afterSteps, data.calories, ActiveCalories, bypass, dayStart);
    SpreadTrustedFrame(afterCalories, data.distance, Distance, bypass, dayStart);
  }

  /** A batch's counts: kept plus rejected is every sample, and it logs one entry per sample. */
  lemma {:induction false} BatchCounts(ss: seq<QuantitySample>, typeName: string, bypass: bool)
    ensures |TrustedSamples(ss, bypass)| + ManualCount(ss, bypass) == |ss|
    ensures |SampleEntries(ss, typeName, bypass)| == |ss|
  {
    if |ss| > 0 {
      BatchCounts(ss[..|ss| - 1], typeName, bypass);
    }
  }

  /**
   * The counters of a run: every sample is read, read = accepted +
   * rejectedManual, accepted is the number of trusted samples, nothing is
   * rejected with the bypass set, and the log has one entry per sample.
   */
  lemma RunCounters(data: SampleLists, bypass: bool)
    ensures var st := RunStats(data, bypass);
      && st.read == SampleCount(data)
      && st.read == st.accepted + st.rejectedManual
      && st.accepted == TrustedCount(data, bypass)
      && (bypass ==> st.rejectedManual == 0)
      && |RunAudit(data, bypass)| == st.read
  {
    BatchCounts(data.steps, "Steps", bypass);
    BatchCounts(data.calories, "ActiveCal", bypass);
    BatchCounts(data.distance, "Distance", bypass);
    if bypass {
      BypassKeepsAll(data.steps);
      BypassKeepsAll(data.calories);
      BypassKeepsAll(data.distance);
    }
  }

  /** Buckets that are all zero in field f sum to zero in it. */
  lemma {:induction false} ZeroSum(bs: seq<HourlyHealthPayload>, f: BucketField)
    requires forall i | 0 <= i < |bs| :: FieldOf(bs[i], f) == 0.0
    ensures SumField(bs, f) == 0.0
  {
    if |bs| > 0 {
      var init := bs[..|bs| - 1];
      assert forall i | 0 <= i < |init| :: init[i] == bs[i];
      ZeroSum(init, f);
    }
  }

  lemma EmptyBucketsSum(today: DateParts, f: BucketField)
    ensures SumField(EmptyBuckets(today), f) == 0.0
  {
    var eb := EmptyBuckets(today);
    assert forall i | 0 <= i < |eb| :: FieldOf(eb[i], f) == 0.0 by {
      forall i | 0 <= i < |eb| ensures FieldOf(eb[i], f) == 0.0 {
        assert IsEmptyBucket(eb[i], today, i);
      }
    }
    ZeroSum(eb, f);
  }

  /**
   * Processing a batch whose trusted samples lie inside the day adds exactly
   * their total quantity to field f and leaves the other fields' totals alone.
   */
  lemma SpreadTrustedTotals(bs: seq<HourlyHealthPayload>, ss: seq<QuantitySample>, f: BucketField, bypass: bool,
                            dayStart: int)
    requires |bs| == HOURS
    requires forall s | s in ss && SampleTrusted(s, bypass) :: InsideDay(s, dayStart)
    ensures SumField(SpreadTrusted(bs, ss, f, bypass, dayStart), f)
         == SumField(bs, f) + SumQuantity(TrustedSamples(ss, bypass))
    ensures forall g :: g != f ==> SumField(SpreadTrusted(bs, ss, f, bypass, dayStart), g) == SumField(bs, g)
  {
    var ts := TrustedSamples(ss, bypass);
    TrustedSamplesExact(ss, bypass);
    assert forall k | 0 <= k < |ts| :: ts[k] in ts;
    SpreadTrustedIsFiltered(bs, ss, f, bypass, dayStart);
    SpreadAllConservation(bs, ts, f, dayStart);
  }

  /**
   * When every trusted sample lies inside the day, each dashboard total is
   * exactly the sum of the trusted samples' quantities of its type: typed-in
   * samples are left out unless the bypass is set.
   */
  lemma DashboardCountsTrusted(data: SampleLists, today: DateParts, dayStart: int, bypass: bool, nowISO: string)
    requires forall s | s in data.steps && SampleTrusted(s, bypass) :: InsideDay(s, dayStart)
    requires forall s | s in data.calories && SampleTrusted(s, bypass) :: InsideDay(s, dayStart)
    requires forall s | s in data.distance && SampleTrusted(s, bypass) :: InsideDay(s, dayStart)
    ensures var m := DashboardTotals(RunBuckets(data, today, dayStart, bypass), nowISO);
      && m.steps == SumQuantity(TrustedSamples(data.steps, bypass))
      && m.activeCaloriesKcal == SumQuantity(TrustedSamples(data.calories, bypass))
      && m.distanceMeters == SumQuantity(TrustedSamples(data.distance, bypass))
  {
    var eb := EmptyBuckets(today);
    EmptyBucketsSum(today, Steps);
    EmptyBucketsSum(today, ActiveCalories);
    EmptyBucketsSum(today, Distance);
    var afterSteps := SpreadTrusted(eb, data.steps, Steps, bypass, dayStart);
    var afterCalories := SpreadTrusted(afterSteps, data.calories, ActiveCalories, bypass, dayStart);
    SpreadTrustedTotals(eb, data.steps, Steps, bypass, dayStart);
    SpreadTrustedTotals(afterSteps, data.calories, ActiveCalories, bypass, dayStart);
    SpreadTrustedTotals(afterCalories, data.distance, Distance, bypass, dayStart);
  }

  /**
   * getDebugInfo after a run: the summary counts the trusted samples of all
   * reads, and the manual-entry warning appears exactly when some sample
   * was typed in and the bypass is off.
   */
  lemma DebugInfoAfterRun(data: SampleLists, dayStart: int, bypass: bool)
    ensures var lines := DebugInfo(Some(RunDebug(data, dayStart, bypass)));
      && |lines| == 2
      && lines[0] == "iOS HealthKit: " + NatToString(TrustedCount(data, bypass)) + "/" + NatToString(SampleCount(data))
                     + " samples accepted"
      && (lines[1] != NO_MANUAL <==>
           !bypass && ((exists k | 0 <= k < |data.steps| :: data.steps[k].wasUserEntered)
                       || (exists k | 0 <= k < |data.calories| :: data.calories[k].wasUserEntered)
                       || (exists k | 0 <= k < |data.distance| :: data.distance[k].wasUserEntered)))
  {
    RunCounters(data, bypass);
    ManualCountPositive(data.steps, bypass);
    ManualCountPositive(data.calories, bypass);
    ManualCountPositive(data.distance, bypass);
  }

  // ---------------------------------------------------------------------
  // The provider

  class IosHealthKitProvider {
    var debugData: Option<ProviderDebugState>
    var bypassManualFilter: bool

    constructor()
      ensures debugData == None && !bypassManualFilter
    {
      debugData := None;
      bypassManualFilter := false;
    }

    /**
     * distributeSample of the provider, a copy of the one in ios/utils.ts:
     * a bucket changes only where the sample overlaps it, and then only in
     * field bucketKey, by the sample's proportional share; the touched
     * hours are the overlapped ones in ascending order.
     */
    method DistributeSample(sample: QuantitySample, buckets: array<HourlyHealthPayload>, dayStart: int,
                            totalValue: real, bucketKey: BucketField)
      returns (touched: seq<nat>)
      requires buckets.Length == HOURS
      modifies buckets
      ensures forall i | 0 <= i < HOURS ::
        && (HourOverlap(sample.startDate, sample.endDate, dayStart, i) == 0 ==> buckets[i] == old(buckets[i]))
        && FieldOf(buckets[i], bucketKey)
           == FieldOf(old(buckets[i]), bucketKey) + Portion(totalValue, sample.startDate, sample.endDate, dayStart, i)
        && (forall g :: g != bucketKey ==> FieldOf(buckets[i], g) == FieldOf(old(buckets[i]), g))
      ensures forall h: nat :: h in touched <==> h < HOURS && HourOverlap(sample.startDate, sample.endDate, dayStart, h) > 0
      ensures forall a, b | 0 <= a < b < |touched| :: touched[a] < touched[b]
      ensures buckets[..] == Spread(old(buckets[..]), bucketKey, totalValue, sample.startDate, sample.endDate, dayStart)
      ensures touched == SampleTouched(sample, dayStart)
    {
      ghost var before := buckets[..];
      touched := IosUtils.DistributeSample(sample, buckets, dayStart, totalValue, bucketKey);
      SpreadFrame(before, bucketKey, totalValue, sample.startDate, sample.endDate, dayStart);
      TouchedHoursExact(sample.startDate, sample.endDate, dayStart);
    }

    /** The `onBucketTouch` callback of the active-energy batch, run for each touched hour. */
    method MarkHours(details: array<HourlyDetail>, touched: seq<nat>)
      requires details.Length == HOURS
      requires forall j | 0 <= j < |touched| :: touched[j] < HOURS
      modifies details
      ensures details[..] == MarkTouched(old(details[..]), touched)
    {
      ghost var before := details[..];
      for j := 0 to |touched|
        invariant details[..] == MarkTouched(before, touched[..j])
      {
        var idx := touched[j];
        details[idx] := details[idx].(activeCaloriesSource := ActiveRecord);
        assert touched[..j + 1] == touched[..j] + [idx];
      }
      assert touched[..|touched|] == touched;
    }

    /**
     * The forEach callback of processSamples for one sample: its entry is
     * logged, and a trusted sample is counted as accepted and distributed
     * (and in the active-energy batch its hours marked) while an untrusted
     * one is counted as a manual rejection and changes no bucket.
     */
    method ProcessSample(sample: QuantitySample, typeName: string, buckets: array<HourlyHealthPayload>,
                         details: array<HourlyDetail>, auditLog: seq<IngestionRecord>, stats: SampleStats,
                         bucketKey: BucketField, markActive: bool, dayStart: int)
      returns (newLog: seq<IngestionRecord>, newStats: SampleStats)
      requires buckets.Length == HOURS && details.Length == HOURS
      modifies buckets, details
      ensures buckets[..] == if SampleTrusted(sample, bypassManualFilter)
                             then SpreadSample(old(buckets[..]), sample, bucketKey, dayStart) else old(buckets[..])
      ensures details[..] == if SampleTrusted(sample, bypassManualFilter) && markActive
                             then MarkTouched(old(details[..]), SampleTouched(sample, dayStart)) else old(details[..])
      ensures newLog == auditLog + [SampleEntry(sample, typeName, bypassManualFilter)]
      ensures newStats == if SampleTrusted(sample, bypassManualFilter) then stats.(accepted := stats.accepted + 1)
                          else stats.(rejectedManual := stats.rejectedManual + 1)
    {
      var isManual := sample.wasUserEntered;
      var origin := OriginOf(sample);
      var trusted := !isManual || bypassManualFilter;
      newLog := auditLog + [IngestionRecord(typeName, sample.startDate, sample.quantity, origin, trusted,
                                            if trusted then None else Some(MANUAL_ENTRY))];
      if trusted {
        newStats := stats.(accepted := stats.accepted + 1);
        var touched := DistributeSample(sample, buckets, dayStart, sample.quantity, bucketKey);
        if markActive {
          assert forall j | 0 <= j < |touched| :: touched[j] in touched;
          MarkHours(details, touched);
        }
      } else {
        newStats := stats.(rejectedManual := stats.rejectedManual + 1);
      }
    }

    /**
     * processSamples. The log and the counters the source updates through
     * shared references are passed in and returned. The buckets and details
     * become SpreadTrusted and MarkTrusted of the old ones, the log grows by
     * one entry per sample and the counters become Processed.
     */
    method ProcessSamples(samples: seq<QuantitySample>, typeName: string, buckets: array<HourlyHealthPayload>,
                          details: array<HourlyDetail>, auditLog: seq<IngestionRecord>, stats: SampleStats,
                          bucketKey: BucketField, markActive: bool, dayStart: int)
      returns (newLog: seq<IngestionRecord>, newStats: SampleStats)
      requires buckets.Length == HOURS && details.Length == HOURS
      modifies buckets, details
      ensures buckets[..] == SpreadTrusted(old(buckets[..]), samples, bucketKey, bypassManualFilter, dayStart)
      ensures details[..] == if markActive then MarkTrusted(old(details[..]), samples, bypassManualFilter, dayStart)
                             else old(details[..])
      ensures newLog == auditLog + SampleEntries(samples, typeName, bypassManualFilter)
      ensures newStats == Processed(stats, samples, bypassManualFilter)
    {
      ghost var b0 := buckets[..];
      ghost var d0 := details[..];
      newLog := auditLog;
      newStats := stats.(read := stats.read + |samples|);
      for i := 0 to |samples|
        invariant buckets[..] == SpreadTrusted(b0, samples[..i], bucketKey, bypassManualFilter, dayStart)
        invariant details[..] == if markActive then MarkTrusted(d0, samples[..i], bypassManualFilter, dayStart) else d0
        invariant newLog == auditLog + SampleEntries(samples[..i], typeName, bypassManualFilter)
        invariant newStats == StatsAfter(stats, samples, i, bypassManualFilter)
      {
        SamplesStep(b0, d0, auditLog, stats, samples, i, typeName, bucketKey, bypassManualFilter, dayStart);
        newLog, newStats := ProcessSample(samples[i], typeName, buckets, details, newLog, newStats,
                                          bucketKey, markActive, dayStart);
      }
      assert samples[..|samples|] == samples;
    }

    /**
     * getTodayHourlyPayload. The three query results, the local date and the
     * start of the day are parameters. The returned buckets are RunBuckets
     * and the stored debug state RunDebug, whose properties are RunHours,
     * RunCounters, DashboardCountsTrusted and DebugInfoAfterRun.
     */
    method GetTodayHourlyPayload(data: SampleLists, today: DateParts, dayStart: int)
      returns (payload: seq<HourlyHealthPayload>)
      modifies this
      ensures bypassManualFilter == old(bypassManualFilter)
      ensures payload == RunBuckets(data, today, dayStart, bypassManualFilter)
      ensures debugData == Some(RunDebug(data, dayStart, bypassManualFilter))
    {
      var bucketList := CreateEmptyHourlyBuckets(today);
      EmptyBucketsUnique(today, bucketList);
      var buckets := new HourlyHealthPayload[HOURS](i requires 0 <= i < HOURS => bucketList[i]);
      assert buckets[..] == EmptyBuckets(today);
      var auditLog: seq<IngestionRecord> := [];
      var hourlyDetails := new HourlyDetail[HOURS](i requires 0 <= i < HOURS => HourlyDetail(i, 0.0, NoActiveSource, false));
      assert hourlyDetails[..] == InitialDetails();
      var stats := SampleStats(0, 0, 0);
      auditLog, stats := ProcessSamples(data.steps, "Steps", buckets, hourlyDetails, auditLog, stats, Steps, false, dayStart);
      auditLog, stats := ProcessSamples(data.calories, "ActiveCal", buckets, hourlyDetails, auditLog, stats,
                                        ActiveCalories, true, dayStart);
      auditLog, stats := ProcessSamples(data.distance, "Distance", buckets, hourlyDetails, auditLog, stats,
                                        Distance, false, dayStart);
      assert [] + SampleEntries(data.steps, "Steps", bypassManualFilter) == SampleEntries(data.steps, "Steps", bypassManualFilter);
      debugData := Some(ProviderDebugState(hourlyDetails[..], stats, auditLog));
      payload := buckets[..];
    }

    /**
     * getDashboardMetrics: a fresh run reduced to the three field totals;
     * `nowISO` is `new Date().toISOString()`.
     */
    method GetDashboardMetrics(data: SampleLists, today: DateParts, dayStart: int, nowISO: string)
      returns (metrics: DashboardMetrics)
      modifies this
      ensures bypassManualFilter == old(bypassManualFilter)
      ensures metrics == DashboardTotals(RunBuckets(data, today, dayStart, bypassManualFilter), nowISO)
      ensures debugData == Some(RunDebug(data, dayStart, bypassManualFilter))
    {
      var hourly := GetTodayHourlyPayload(data, today, dayStart);
      metrics := DashboardTotals(hourly, nowISO);
    }

    /** getDebugInfo: see DebugInfo and DebugInfoAfterRun. */
    function GetDebugInfo(): (lines: seq<string>)
      reads this
      ensures debugData.None? ==> lines == [NO_DATA]
      ensures debugData.Some? ==> |lines| == 2 && lines[0] == SummaryLine(debugData.value.stats)
      ensures debugData.Some? ==> (lines[1] != NO_MANUAL <==> debugData.value.stats.rejectedManual > 0)
    {
      DebugInfo(debugData)
    }

    /** getDetailedHourlyDebug: the hourly details of the last run, or none before the first. */
    function GetDetailedHourlyDebug(): (hourly: seq<HourlyDetail>)
      reads this
      ensures debugData.None? ==> hourly == []
      ensures debugData.Some? ==> hourly == debugData.value.hourly
    {
      if debugData.Some? then debugData.value.hourly else []
    }

    /** getIngestionAuditLog: the audit log of the last run, or none before the first. */
    function GetIngestionAuditLog(): (log: seq<IngestionRecord>)
      reads this
      ensures debugData.None? ==> log == []
      ensures debugData.Some? ==> log == debugData.value.auditLog
    {
      if debugData.Some? then debugData.value.auditLog else []
    }

    /** setBypassManualFilter: only the flag changes; it takes effect on the next run. */
    method SetBypassManualFilter(bypass: bool)
      modifies this
      ensures bypassManualFilter == bypass
      ensures debugData == old(debugData)
    {
      bypassManualFilter := bypass;
    }
  }
}
