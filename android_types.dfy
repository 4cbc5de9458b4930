/**
 * The Android provider's records (src/health/providers/android/types.ts):
 * one audit entry per ingested record, the per-hour calculation detail,
 * the filtering counters and the debug state the provider keeps.
 */
module AndroidTypes {
  import opened Wrappers
  import opened Models
  import opened TrustedSourcePolicy
  import opened AndroidUtils

  /** ActiveCaloriesSource: "activeRecord", "totalMinusBasal" or "none". */
  datatype ActiveCaloriesSource = ActiveRecord | TotalMinusBasal | NoActiveSource

  /**
   * IngestionRecord. `value` is the extracted value before `toFixed(1)`
   * rounding; `rawMetadata` is the metadata that `JSON.stringify` renders
   * (None renders as `{}`).
   */
  datatype IngestionRecord = IngestionRecord(
    typeName: string,
    time: TimeLabel,
    value: real,
    origin: string,
    trusted: bool,
    recordingMethod: Option<int>,
    rejectionReason: Option<RejectionReason>,
    rawMetadata: Option<Metadata>,
    device: Option<string>)

  /** HourlyDetail; `totalCalories` and `basalUsed` are always initialised, so they are plain numbers. */
  datatype HourlyDetail = HourlyDetail(
    hourIndex: nat,
    activeCalories: real,
    activeCaloriesSource: ActiveCaloriesSource,
    isEstimated: bool,
    hasActiveRecord: bool,
    totalCalories: real,
    basalUsed: real)

  datatype TypeCounts = TypeCounts(read: nat, accepted: nat)

  /** FilteringStats; an absent key of either map reads as no entry at all. */
  datatype FilteringStats = FilteringStats(
    recordsRead: nat,
    recordsAccepted: nat,
    perType: map<string, TypeCounts>,
    rejectedByReason: map<RejectionReason, nat>)

  /** The four sums applyFallbacks returns. */
  datatype CalculationResults = CalculationResults(
    sumActiveFromTier1: real,
    sumEstimatedFromTier2: real,
    sumTotalCalories: real,
    sumBasalUsed: real)

  /** ProviderDebugState, with the sums grouped as applyFallbacks returns them. */
  datatype ProviderDebugState = ProviderDebugState(
    hourly: seq<HourlyDetail>,
    sums: CalculationResults,
    avgBmrKcalDay: real,
    stats: FilteringStats,
    auditLog: seq<IngestionRecord>)

  /** The `records` arrays of the five reads, in the order they are filtered. */
  datatype RecordLists = RecordLists(
    steps: seq<HealthRecord>,
    distance: seq<HealthRecord>,
    active: seq<HealthRecord>,
    total: seq<HealthRecord>,
    bmr: seq<HealthRecord>)
}
