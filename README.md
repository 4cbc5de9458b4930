# HealthDemo reconciliation core, in Dafny

This project models the health-data reconciliation pipeline of the
HealthDemo app. The model covers these parts:

- **Trust policy.** A Health Connect record is accepted only from Google
  Fit, and only with an acceptable recording method. Manual entries pass
  only when the bypass flag is set.
- **Hourly buckets.** `createEmptyHourlyBuckets` builds 24 buckets, each
  labelled with `toLocalISOString` of its hour.
- **Distributors.** A record or sample adds its value to every hourly
  bucket it overlaps, in proportion to the overlap.
- **Android provider.** `AndroidHealthConnectProvider` filters five record
  lists. It keeps an audit log and counters, spreads the trusted records
  into the buckets, and estimates active energy for hours without a direct
  record. The estimate is total energy minus the hourly share of the
  average basal metabolic rate (tier 2).
- **iOS provider.** `IosHealthKitProvider` filters three sample lists by
  the "user entered" flag, logs and counts every sample, and spreads the
  trusted ones.
- **Facade.** `HealthLayerManager` holds the platform's provider and the
  last permission state. It lets payload calls through only when a
  provider exists and the state is READY.

Files, one module each:

| file | module | source |
|---|---|---|
| wrappers.dfy | Wrappers | `Option` / `Result` |
| models.dfy | Models | src/health/models.ts |
| time_buckets.dfy | TimeBuckets | src/health/utils/timeBuckets.ts |
| hourly_spread.dfy | HourlySpread | the overlap arithmetic every distributor shares |
| trusted_source_policy.dfy | TrustedSourcePolicy | src/health/utils/trustedSourcePolicy.ts |
| android_utils.dfy | AndroidUtils | src/health/providers/android/utils.ts |
| android_types.dfy | AndroidTypes | src/health/providers/android/types.ts |
| android_health_connect.dfy | AndroidHealthConnect | src/health/providers/androidHealthConnect.ts |
| ios_utils.dfy | IosUtils | src/health/providers/ios/utils.ts |
| ios_health_kit.dfy | IosHealthKit | src/health/providers/iosHealthKit.ts, src/health/providers/ios/types.ts |
| health_layer.dfy | HealthLayer | src/health/HealthLayer.ts |

How the model is built:

- **Pure code is pure functions.** This covers `validateRecord`,
  `extractValue`, `calculateAverageBmr` and `toLocalISOString`.
- **Imperative code stays imperative.** The distributors,
  `filterAndTrack`, `populateMetricsIntoBuckets`, `applyFallbacks` and
  `processSamples` are methods whose loops update bucket and detail arrays
  in place. Each method is proved equal to a specification function of
  the old state.
- **Source properties are lemmas about those functions.** Examples:
  balanced counters, a sample inside the day distributing exactly its
  value, the tier split, and the readiness gate.
- **Providers and the facade are classes over the source's own fields.**
  These are `debugData` and `bypassManualFilter` for both providers, and
  `provider` and `state` for the facade.

Inputs the source reads from the device are parameters:

- the record and sample lists a read returns (`records` arrays, or the
  results of `queryQuantitySamples`);
- the local date (`new Date()`) as Date components;
- the start of the day in milliseconds;
- the generation time `toISOString()`;
- `Platform.OS`;
- the state a native permission request resolves to.

Two behaviours of the code deserve a note:

- **Instantaneous samples.** A record or sample with end == start
  overlaps no bucket. The divisor `max(end - start, 1)` (android/utils.ts:42)
  only avoids a division by zero; the share is still the value times the
  overlap, which is 0 for every hour. Such a record or sample adds nothing
  to any bucket and touches no hour. `IosUtils.EmptySampleNoEffect`,
  `HourlySpread.EmptyIntervalTouchesNothing` and
  `AndroidUtils.NoEndTimeIsEmpty` state this behaviour.
- **NaN timestamps in `applyFallbacks`.** The total-energy loop of
  `applyFallbacks` has no `isNaN` guard, unlike
  `distributeRecordAcrossBuckets`. A NaN overlap fails `overlap > 0`, so
  the code behaves as if the guard were there. The model represents NaN as
  `None`.

## Model

| member | source | states |
|---|---|---|
| Models.AddToField | src/health/providers/android/utils.ts:56 | `bucket[bucketKey] += x` changes exactly the named field by x; the other two fields, both units and both dates are unchanged |
| Models.DashboardTotals | src/health/providers/androidHealthConnect.ts:54-67 | the `reduce` of getDashboardMetrics: steps, active energy and distance are the sums of the bucket fields, and lastUpdatedISO is the given generation time |
| TimeBuckets.NatToString | src/health/utils/timeBuckets.ts:13 | `String(n)` is a non-empty string of decimal digits |
| TimeBuckets.NatToStringInverse | src/health/utils/timeBuckets.ts:13 | the digits of `String(n)` read back as n, with as many digits as n has |
| TimeBuckets.PadTwoDigits | src/health/utils/timeBuckets.ts:10 | `pad(n)` for n < 100 is two digits whose value is n, with a leading '0' exactly below 10 |
| TimeBuckets.PadStart3Digits | src/health/utils/timeBuckets.ts:25 | `padStart(3, '0')` of the milliseconds is three digits whose value is the milliseconds |
| TimeBuckets.ISOLayout | src/health/utils/timeBuckets.ts:7-31 | toLocalISOString of a well-formed date is 29 characters `YYYY-MM-DDTHH:MM:SS.mmm±HH:MM`, each field at its fixed position |
| TimeBuckets.ISORoundTrip | src/health/utils/timeBuckets.ts:7-31 | parsing toLocalISOString's text gives back every date component and the offset, so distinct local times get distinct labels |
| TimeBuckets.ISOOffset | src/health/utils/timeBuckets.ts:8-9 | the sign is '+' exactly when tzo = -getTimezoneOffset() >= 0, followed by floor(abs(tzo)/60) and abs(tzo) mod 60 as two digits each |
| TimeBuckets.ISODateFields | src/health/utils/timeBuckets.ts:13-25 | the month is printed as getMonth()+1, and date, hours, minutes, seconds and milliseconds as they are |
| TimeBuckets.ISOExample | src/health/utils/timeBuckets.ts:3-6 | the documented example 2024-05-15T14:00:00.000+07:00 is produced for 14:00 at UTC+07:00 |
| TimeBuckets.GetDayBoundaries | src/health/utils/timeBuckets.ts:33-41 | start and end are on the same date as now, at 00:00:00.000 and 23:59:59.999 |
| TimeBuckets.DayBoundariesContain | src/health/utils/timeBuckets.ts:33-41 | the current time of day lies between the two boundaries |
| TimeBuckets.HoursPartitionDay | src/health/utils/timeBuckets.ts:48-53 | bucket i runs from i:00:00.000 to i:59:59.999; consecutive buckets abut; the first starts at the day's start and the last ends at its end |
| TimeBuckets.EmptyBuckets | src/health/utils/timeBuckets.ts:43-67 | 24 buckets, each with zero steps, energy and distance, units 'kcal' and 'm', and the labels of its hour |
| TimeBuckets.EmptyBucketsUnique | src/health/utils/timeBuckets.ts:55-63 | any 24 buckets that satisfy those per-bucket facts are exactly EmptyBuckets |
| TimeBuckets.CreateEmptyHourlyBuckets | src/health/utils/timeBuckets.ts:43-67 | the loop returns exactly 24 buckets, bucket i empty and labelled with the start and end of hour i |
| HourlySpread.Duration | src/health/providers/android/utils.ts:43 | the divisor is at least 1 ms and at least end - start |
| HourlySpread.TouchedHoursExact | src/health/providers/android/utils.ts:53-57 | `onBucketTouch` is called for exactly the hours with positive overlap, in strictly ascending order |
| HourlySpread.SpreadFrame | src/health/providers/android/utils.ts:45-59 | only the named field of an overlapped bucket changes, by value·overlap/duration; non-overlapped buckets, other fields and dates stay |
| HourlySpread.EmptyIntervalTouchesNothing | src/health/providers/ios/utils.ts:17-24 | a sample whose end is not after its start changes no bucket and touches no hour |
| HourlySpread.SpreadConservation | src/health/providers/ios/utils.ts:19-27 | a sample inside the day adds exactly its value to the field's total over the 24 buckets, and nothing to the other fields' totals |
| HourlySpread.PortionBounds | src/health/providers/ios/utils.ts:25 | each bucket's share of a non-negative value lies between 0 and the value |
| HourlySpread.AddedBounds | src/health/providers/ios/utils.ts:19-27 | the total added over the day lies between 0 and the value |
| HourlySpread.SpreadBounded | src/health/providers/android/utils.ts:45-59 | for a non-negative value, the field's day total grows by between 0 and the value, whatever part of the sample falls outside the day |
| TrustedSourcePolicy.ValidateRecord | src/health/utils/trustedSourcePolicy.ts:19-54 | trusted iff the reason is `none` iff the origin is Google Fit and the recording method is absent, 0, 1, 2 or allowed by allowManual; missingOrigin iff the origin is absent or empty; untrustedPackage iff it is another package; userInput iff the origin is trusted and the method is refused; never `other` |
| TrustedSourcePolicy.IsTrustedRecord | src/health/utils/trustedSourcePolicy.ts:56-58 | isTrustedRecord is validateRecord's verdict with allowManual false |
| TrustedSourcePolicy.MissingOriginRejected | src/health/utils/trustedSourcePolicy.ts:25-27 | missing metadata or an absent or empty origin is rejected missingOrigin, whatever allowManual is |
| TrustedSourcePolicy.UntrustedOriginRejected | src/health/utils/trustedSourcePolicy.ts:29-31 | a non-empty origin outside TRUSTED_PACKAGES is rejected untrustedPackage before the method is looked at |
| TrustedSourcePolicy.TrustedOriginByMethod | src/health/utils/trustedSourcePolicy.ts:34-53 | for the trusted origin: no method, 0, 1 or 2 pass; 3 and any other code pass only with allowManual, otherwise userInput |
| TrustedSourcePolicy.AcceptanceMonotone | src/health/utils/trustedSourcePolicy.ts:19-54 | setting allowManual never rejects a record that was accepted without it |
| TrustedSourcePolicy.AllowManualOnlyOrigin | src/health/utils/trustedSourcePolicy.ts:34-48 | with allowManual set, only the origin decides |
| AndroidUtils.ExtractValue | src/health/providers/android/utils.ts:6-12 | the result is non-zero iff some payload field is present and non-zero; it is then the first such field in the order count, energy, distance, BMR |
| AndroidUtils.CalculateAverageBmr | src/health/providers/android/utils.ts:17-21 | 0 for no records; otherwise average × count equals the sum of the BMR values |
| AndroidUtils.AverageBmrBounds | src/health/providers/android/utils.ts:17-21 | the average lies between the smallest and the largest BMR value |
| AndroidUtils.RecordInterval | src/health/providers/android/utils.ts:34-41 | a record has an interval iff both `startTime \|\| time` and `endTime \|\| startTime \|\| time` parse |
| AndroidUtils.NoEndTimeIsEmpty | src/health/providers/android/utils.ts:35 | a record without endTime gets an empty interval, end == start |
| AndroidUtils.RecordTouchedExact | src/health/providers/android/utils.ts:41-58 | the touched hours are exactly those the record overlaps, in ascending order; an unparseable record touches none |
| AndroidUtils.DistributeRecordAcrossBuckets | src/health/providers/android/utils.ts:26-60 | the loop leaves the buckets equal to SpreadRecord of the old ones and reports RecordTouched as its callback calls |
| AndroidHealthConnect.InitStatsBalanced | src/health/providers/androidHealthConnect.ts:261-272 | initStats is balanced, with zero read and accepted counters and no type entries |
| AndroidHealthConnect.InitStatsNoRejections | src/health/providers/androidHealthConnect.ts:268-270 | every reason starts at zero rejections |
| AndroidHealthConnect.KeptExact | src/health/providers/androidHealthConnect.ts:144-182 | a record is kept iff validateRecord trusts it; no more records are kept than read |
| AndroidHealthConnect.KeptConcat | src/health/providers/androidHealthConnect.ts:144 | filtering commutes with concatenation, so kept records keep their input order |
| AndroidHealthConnect.KeptOrRejected | src/health/providers/androidHealthConnect.ts:173-181 | every record is kept or rejected for exactly one of missingOrigin, untrustedPackage, userInput; none is rejected as `other` or `none` |
| AndroidHealthConnect.AddRejectionsCounts | src/health/providers/androidHealthConnect.ts:177-180 | counting rejections adds exactly the number rejected for each reason and creates no new key |
| AndroidHealthConnect.TrackStatsBalanced | src/health/providers/androidHealthConnect.ts:139-183 | filterAndTrack keeps the counters balanced: read = accepted + Σ rejected by reason, and read and accepted grow by the records read and kept |
| AndroidHealthConnect.AuditEntryFacts | src/health/providers/androidHealthConnect.ts:146-171 | an audit entry carries the type, the policy's verdict, a rejection reason exactly when untrusted (missingOrigin exactly for a missing origin), the origin or "unknown", and the extracted value |
| AndroidHealthConnect.PrefixStep | src/health/providers/androidHealthConnect.ts:144-182 | each callback moves the running counters on by exactly the effect of one record: accepted and the type's accepted count when kept, the reason's counter otherwise |
| AndroidHealthConnect.MarkAllExact | src/health/providers/androidHealthConnect.ts:196-202 | hour i is marked activeRecord, not estimated, hasActiveRecord exactly when a trusted active-energy record overlaps it; other hours are unchanged |
| AndroidHealthConnect.SpreadAllFrame | src/health/providers/androidHealthConnect.ts:188-202 | distributing into one field changes no other field, date or unit |
| AndroidHealthConnect.SpreadAllUntouched | src/health/providers/androidHealthConnect.ts:196-202 | a bucket that no record overlaps is unchanged |
| AndroidHealthConnect.PopulateEstablishesPreFallback | src/health/providers/androidHealthConnect.ts:185-203 | after populating, a non-direct hour has no active energy, flags agree, no basal is used, and an hour is direct iff an active record overlaps it |
| AndroidHealthConnect.TotalsAllFrame | src/health/providers/androidHealthConnect.ts:212-229 | the first loop of applyFallbacks changes only totalCalories |
| AndroidHealthConnect.BasalHour | src/health/providers/androidHealthConnect.ts:239-240 | the hourly basal is one twenty-fourth of the daily BMR |
| AndroidHealthConnect.Estimate | src/health/providers/androidHealthConnect.ts:241 | the estimate is max(total - basal, 0): never negative, and either 0 or total - basal |
| AndroidHealthConnect.FallbackHour | src/health/providers/androidHealthConnect.ts:235-255 | one hour is tier 2 iff it has no direct record, positive total and positive BMR; a tier-2 hour carries the estimate and the hourly basal; a direct hour keeps its bucket; otherwise the source is "none" with 0 kcal |
| AndroidHealthConnect.Tier2Example | src/health/providers/androidHealthConnect.ts:238-244 | 150 kcal of total energy with a 2400 kcal/day BMR estimates 50 kcal |
| AndroidHealthConnect.ActiveSumSplit | src/health/providers/androidHealthConnect.ts:231-258 | the buckets' active energy sums to Σ over direct hours plus Σ over tier-2 hours |
| AndroidHealthConnect.SumBasalCount | src/health/providers/androidHealthConnect.ts:238-250 | sumBasalUsed is the number of tier-2 hours times the hourly basal share |
| AndroidHealthConnect.TrackBatchesBalanced | src/health/providers/androidHealthConnect.ts:88-94 | several filterAndTrack calls keep the counters balanced and count every record read and kept |
| AndroidHealthConnect.BatchesCounts | src/health/providers/androidHealthConnect.ts:88-94 | the five batches hold every record read, and the trusted lists every record kept |
| AndroidHealthConnect.TrackFromZero | src/health/providers/androidHealthConnect.ts:75-94 | from zero counters the five batches leave read = all records, accepted = trusted records, balanced |
| AndroidHealthConnect.TrackBatchesInOrder | src/health/providers/androidHealthConnect.ts:88-94 | the batch fold is the five filterAndTrack calls in the source's order |
| AndroidHealthConnect.StatsAfterFacts | src/health/providers/androidHealthConnect.ts:75-94 | the counters after the five lists are balanced and count every record read and kept; perType holds exactly the keys Steps, Distance, ActiveCal, TotalCal and BMR, each with its own list's length as read and its kept count as accepted, and recordsAccepted is the sum of the five accepted counts |
| AndroidHealthConnect.PerTypeAfter | src/health/providers/androidHealthConnect.ts:88-94 | the five type names are distinct, so each filterAndTrack call creates its own `{ read: 0, accepted: 0 }` entry: perType has exactly the five keys, each counting its own list, and the accepted counts add up to recordsAccepted |
| AndroidHealthConnect.PipelineHour | src/health/providers/androidHealthConnect.ts:98-100 | after populate and fallback, one hour is consistent, direct iff overlapped by an active record, tier 2 iff not direct with positive total and BMR, and it keeps its labels |
| AndroidHealthConnect.PipelineHours | src/health/providers/androidHealthConnect.ts:98-100 | the same for all 24 hours, plus the active-energy total split into the two tiers |
| AndroidHealthConnect.ReconcileHours | src/health/providers/androidHealthConnect.ts:70-111 | one run returns 24 buckets labelled as createEmptyHourlyBuckets labels them; each hour is direct or tier 2 under exactly the conditions above; the buckets' active energy sums to the stored sumActiveFromTier1 + sumEstimatedFromTier2 |
| AndroidHealthConnect.ReconcileCounters | src/health/providers/androidHealthConnect.ts:70-111 | the stored counters are balanced, read counts every record, accepted every trusted record, perType has one entry per type name counting that list read and kept, recordsAccepted is the sum of the per-type accepted counts, and the audit log has one entry per record |
| AndroidHealthConnect.AndroidHealthConnectProvider.constructor | src/health/providers/androidHealthConnect.ts:23-28 | no debug data and the bypass off |
| AndroidHealthConnect.AndroidHealthConnectProvider.FilterCallback | src/health/providers/androidHealthConnect.ts:144-182 | one record: kept iff trusted, one audit entry appended, accepted or its reason's counter incremented, the type's accepted count incremented only when kept |
| AndroidHealthConnect.AndroidHealthConnectProvider.FilterAndTrack | src/health/providers/androidHealthConnect.ts:139-183 | returns Kept, leaves the counters at TrackStats and appends AuditEntries, all of the inputs |
| AndroidHealthConnect.AndroidHealthConnectProvider.PopulateMetricsIntoBuckets | src/health/providers/androidHealthConnect.ts:185-203 | the buckets become PopulatedBuckets and the details MarkAll of the old ones |
| AndroidHealthConnect.AndroidHealthConnectProvider.SpreadRecords | src/health/providers/androidHealthConnect.ts:188-194 | the buckets become SpreadAll of the old ones: every record of the list spread into one field, in order |
| AndroidHealthConnect.AndroidHealthConnectProvider.MarkHours | src/health/providers/androidHealthConnect.ts:197-201 | exactly the touched hours' details become direct (activeRecord, not estimated, hasActiveRecord); every other detail is unchanged |
| AndroidHealthConnect.AndroidHealthConnectProvider.SpreadActiveRecords | src/health/providers/androidHealthConnect.ts:196-202 | the active-energy records are spread into activeCalories and the hours each overlaps are marked direct (MarkAll) |
| AndroidHealthConnect.AndroidHealthConnectProvider.AddTotalCalories | src/health/providers/androidHealthConnect.ts:212-229 | one total-energy record adds its share to totalCalories of each hour it overlaps, nothing for a NaN time |
| AndroidHealthConnect.AndroidHealthConnectProvider.ResolveHour | src/health/providers/androidHealthConnect.ts:232-255 | hour i becomes FallbackBucket/FallbackDetail; its four contributions to the sums are returned |
| AndroidHealthConnect.AndroidHealthConnectProvider.ResolveHours | src/health/providers/androidHealthConnect.ts:231-258 | buckets and details become FallbackBuckets/FallbackDetails; the four sums are those of the final details: Σ direct active energy, Σ tier-2 estimates, Σ total energy and Σ hourly basal over the tier-2 hours |
| AndroidHealthConnect.AndroidHealthConnectProvider.ApplyFallbacks | src/health/providers/androidHealthConnect.ts:205-259 | the whole applyFallbacks: totals then resolution, with the returned sums those of the final details |
| AndroidHealthConnect.AndroidHealthConnectProvider.FilterAll | src/health/providers/androidHealthConnect.ts:88-94 | the five filterAndTrack calls return TrustedLists, StatsAfter and AuditAfter |
| AndroidHealthConnect.AndroidHealthConnectProvider.BuildHourly | src/health/providers/androidHealthConnect.ts:72-100 | from fresh buckets and details, populate then applyFallbacks give FallbackBuckets and FallbackDetails of the populated state, and the sums are FallbackSums of the final details |
| AndroidHealthConnect.AndroidHealthConnectProvider.GetTodayHourlyPayload | src/health/providers/androidHealthConnect.ts:70-111 | returns Reconcile's buckets and stores its debug state; the bypass flag is unchanged |
| AndroidHealthConnect.AndroidHealthConnectProvider.GetDashboardMetrics | src/health/providers/androidHealthConnect.ts:54-68 | the dashboard is the elementwise total of a fresh run's buckets, and that run's debug state is stored |
| AndroidHealthConnect.AndroidHealthConnectProvider.GetDetailedHourlyDebug | src/health/providers/androidHealthConnect.ts:298 | the last run's hourly details, or the empty list before the first run |
| AndroidHealthConnect.AndroidHealthConnectProvider.GetIngestionAuditLog | src/health/providers/androidHealthConnect.ts:299 | the last run's audit log, or the empty list before the first run |
| AndroidHealthConnect.AndroidHealthConnectProvider.SetBypassManualFilter | src/health/providers/androidHealthConnect.ts:300 | sets the flag and nothing else |
| IosUtils.AddZeroUnchanged | src/health/providers/ios/utils.ts:28-31 | the extra `activeCalories += 0` leaves the bucket unchanged |
| IosUtils.DistributeSample | src/health/providers/ios/utils.ts:7-34 | the loop leaves the buckets equal to Spread of the old ones over the sample's interval and reports exactly TouchedHours as callback calls |
| IosUtils.EmptySampleNoEffect | src/health/providers/ios/utils.ts:17-24 | a sample with endDate <= startDate changes no bucket and touches nothing |
| IosHealthKit.DebugInfo | src/health/providers/iosHealthKit.ts:185-192 | ["No data fetched yet"] before a run; afterwards the accepted/read summary and a second line that differs from "No manual entries detected" iff rejectedManual > 0 |
| IosHealthKit.TrustedSamplesExact | src/health/providers/iosHealthKit.ts:130-134 | a sample is distributed iff it is not user-entered or the bypass is set; kept + rejected = all samples |
| IosHealthKit.ManualCountPositive | src/health/providers/iosHealthKit.ts:130-150 | there is a rejected manual entry iff the bypass is off and some sample is user-entered |
| IosHealthKit.BatchCounts | src/health/providers/iosHealthKit.ts:127-151 | every sample of a batch is either accepted or a manual rejection, and each gets exactly one audit entry |
| IosHealthKit.BypassKeepsAll | src/health/providers/iosHealthKit.ts:134 | with the bypass set, every sample passes and none is rejected |
| IosHealthKit.SampleEntriesExact | src/health/providers/iosHealthKit.ts:136-144 | one audit entry per sample, in order, with the type, time, quantity, origin and verdict, and 'manual_entry' exactly when untrusted |
| IosHealthKit.OriginFacts | src/health/providers/iosHealthKit.ts:131 | the origin is the bundle identifier when it is non-empty, otherwise 'unknown' |
| IosHealthKit.SpreadTrustedIsFiltered | src/health/providers/iosHealthKit.ts:146-148 | only trusted samples are distributed: processing equals distributing the trusted samples, in order |
| IosHealthKit.ManualSamplesIgnored | src/health/providers/iosHealthKit.ts:146-151 | a list of user-entered samples changes no bucket while the bypass is off |
| IosHealthKit.SpreadAllConservation | src/health/providers/iosHealthKit.ts:146-148 | samples inside the day add exactly their total quantity to their field, and nothing to the other fields |
| IosHealthKit.SpreadTrustedFrame | src/health/providers/iosHealthKit.ts:146-148 | processing into one field changes no other field, date or unit |
| IosHealthKit.MarkTrustedExact | src/health/providers/iosHealthKit.ts:104-106 | an hour is marked "activeRecord" iff a trusted active-energy sample overlaps it; other hours are unchanged |
| IosHealthKit.RunHours | src/health/providers/iosHealthKit.ts:69-113 | after a run, hour i has index i, 0 kcal in the detail, isEstimated false, and source "activeRecord" iff a trusted active sample overlaps it; the buckets keep their labels and units |
| IosHealthKit.RunCounters | src/health/providers/iosHealthKit.ts:78-151 | read counts every sample, read = accepted + rejectedManual, accepted counts the trusted samples, no rejection with the bypass set, one audit entry per sample |
| IosHealthKit.SpreadTrustedTotals | src/health/providers/iosHealthKit.ts:146-148 | a batch whose trusted samples lie inside the day adds exactly their total quantity to its field |
| IosHealthKit.DashboardCountsTrusted | src/health/providers/iosHealthKit.ts:53-67 | with trusted samples inside the day, each dashboard total is exactly the sum of the trusted quantities of its type |
| IosHealthKit.DebugInfoAfterRun | src/health/providers/iosHealthKit.ts:185-192 | after a run the summary names the trusted and total sample counts, and the manual warning appears iff the bypass is off and some sample is user-entered |
| IosHealthKit.IosHealthKitProvider.constructor | src/health/providers/iosHealthKit.ts:26-32 | no debug data and the bypass off |
| IosHealthKit.IosHealthKitProvider.DistributeSample | src/health/providers/iosHealthKit.ts:155-181 | only overlapped buckets change, only in bucketKey and by the proportional share; the touched hours are the overlapped ones in ascending order |
| IosHealthKit.IosHealthKitProvider.MarkHours | src/health/providers/iosHealthKit.ts:104-106 | the callback marks exactly the touched hours |
| IosHealthKit.IosHealthKitProvider.ProcessSample | src/health/providers/iosHealthKit.ts:129-152 | one sample: one audit entry appended; a trusted sample is counted accepted, spread, and in the active batch its hours marked; an untrusted one is counted as a manual rejection and changes no bucket or detail |
| IosHealthKit.IosHealthKitProvider.ProcessSamples | src/health/providers/iosHealthKit.ts:115-153 | buckets become SpreadTrusted, details MarkTrusted (active batch only), the log grows by SampleEntries and the counters become Processed |
| IosHealthKit.IosHealthKitProvider.GetTodayHourlyPayload | src/health/providers/iosHealthKit.ts:69-113 | returns RunBuckets and stores RunDebug: steps, then active energy, then distance; the bypass flag is unchanged |
| IosHealthKit.IosHealthKitProvider.GetDashboardMetrics | src/health/providers/iosHealthKit.ts:53-67 | the dashboard is the elementwise total of a fresh run's buckets |
| IosHealthKit.IosHealthKitProvider.GetDebugInfo | src/health/providers/iosHealthKit.ts:185-192 | "No data fetched yet" before a run; afterwards two lines with the warning iff rejectedManual > 0 |
| IosHealthKit.IosHealthKitProvider.GetDetailedHourlyDebug | src/health/providers/iosHealthKit.ts:194 | the last run's hourly details, or the empty list before the first run |
| IosHealthKit.IosHealthKitProvider.GetIngestionAuditLog | src/health/providers/iosHealthKit.ts:195 | the last run's audit log, or the empty list before the first run |
| IosHealthKit.IosHealthKitProvider.SetBypassManualFilter | src/health/providers/iosHealthKit.ts:196 | sets the flag and nothing else |
| HealthLayer.ReadyCheck | src/health/HealthLayer.ts:51-55 | the gate opens iff there is a provider and the state is READY; otherwise the error is "HealthLayer not ready. Current state: " and the state's name |
| HealthLayer.StateNameInjective | src/health/models.ts:1-7 | every HealthState has its own string value |
| HealthLayer.NotReadyMessageNamesState | src/health/HealthLayer.ts:53 | different states give different error texts |
| HealthLayer.GateAfterPermissions | src/health/HealthLayer.ts:24-32 | after ensurePermissions the gate opens iff a provider exists and it answered READY; without a provider the error names NOT_SUPPORTED |
| HealthLayer.HealthLayerManager.constructor | src/health/HealthLayer.ts:8-13 | the state starts NOT_SUPPORTED, with a fresh provider for 'ios' or 'android' and none elsewhere |
| HealthLayer.HealthLayerManager.InitializeProvider | src/health/HealthLayer.ts:15-21 | an iOS provider on 'ios', an Android provider on 'android', no change otherwise |
| HealthLayer.HealthLayerManager.EnsurePermissions | src/health/HealthLayer.ts:24-32 | without a provider the state becomes NOT_SUPPORTED, otherwise the provider's answer; the state is returned and the provider kept |
| HealthLayer.HealthLayerManager.EnsureReady | src/health/HealthLayer.ts:51-55 | no error iff a provider exists and the state is READY; otherwise the not-ready message with the current state |
| HealthLayer.HealthLayerManager.GetTodayHourlyPayload | src/health/HealthLayer.ts:41-44 | fails with the not-ready message, leaving the provider untouched, exactly when the gate is closed; otherwise returns the held provider's payload |
| HealthLayer.HealthLayerManager.GetDashboardMetrics | src/health/HealthLayer.ts:35-38 | the same gate in front of the provider's dashboard totals |
| HealthLayer.HealthLayerManager.GetProvider | src/health/HealthLayer.ts:47-49 | returns the provider the manager holds, which only the constructor and initializeProvider assign |

## Left out

- ensurePermissions of either provider: native permission APIs. The facade takes the resolved state as a parameter.
- fetchAllData, safeRead, readRecords and queryQuantitySamples: native I/O. Their results are parameters, and a failed read is an empty list.
- `Promise.all` and the async/await scheduling: the model runs the steps in program order.
- Clock reads: `new Date()`, getDayBoundaries inside populateMetricsIntoBuckets, applyFallbacks and processSamples, and `toISOString()` are parameters. All reads within one run are taken to see the same day start.
- Time zones and daylight saving: the offset is a field of the date components. The model assumes the 24 buckets are 3600000 ms apart, which fails across a daylight-saving change.
- getBucketIndex: not used by the core.
- `toFixed(1)` on audit values: the model keeps the unrounded value.
- `toLocaleTimeString()`: the model keeps the instant.
- `JSON.stringify` of rawMetadata: the Android model keeps the metadata itself. The iOS audit entry drops rawMetadata entirely.
- AndroidHealthConnectProvider.getDebugInfo (androidHealthConnect.ts:275-296): its lines are `toFixed` renderings of floating-point sums and `Object.entries` order, which the model does not express.
- Floating point: quantities are exact reals, so rounding in the proportional split is not modelled.
- NaN: a missing or unparseable timestamp is `None`.
- AndroidHealthConnect.AndroidHealthConnectProvider.GetTodayHourlyPayload: requires that the trusted lists carry the field their extractor reads. The source would otherwise add NaN to a bucket (steps) or throw a TypeError (the other four types).
- HealthLayer.HealthLayerManager.GetTodayHourlyPayload: on Android it passes the same precondition through.
- HealthLayer.HealthLayerManager.GetDashboardMetrics: the same precondition, for the same reason.
- AndroidHealthConnect.AndroidHealthConnectProvider.PopulateMetricsIntoBuckets: requires the payload field each trusted list's extractor reads, because the source reads it without a check.
- AndroidHealthConnect.AndroidHealthConnectProvider.ApplyFallbacks: requires every trusted total-energy record to carry its energy, because the source reads it without a check.
- AndroidHealthConnect.AndroidHealthConnectProvider.AddTotalCalories: the same requirement, for one record.
- AndroidHealthConnect.AndroidHealthConnectProvider.BuildHourly: the same precondition as GetTodayHourlyPayload, on the trusted lists.
- AndroidHealthConnect.AndroidHealthConnectProvider.GetDashboardMetrics: the same precondition as GetTodayHourlyPayload, because it runs one.
- AndroidUtils.CalculateAverageBmr: requires every BMR record to carry its value, because the source reads it without a check.
- The `HealthLayer` singleton export: that is the program's wiring, not part of the model.
- Throwing in ensureReady is modelled as a `Failure` result carrying the message.
- IosHealthKit.IosHealthKitProvider.DistributeSample delegates to IosUtils.DistributeSample, because the private copy in iosHealthKit.ts is line for line the same loop.
- iOS: a sample is read as already-converted numbers and flags: `metadata.HKWasUserEntered` truthiness is the `wasUserEntered` boolean, and an absent bundle identifier is `None`.
