/**
 * The shared data model of the health layer (src/health/models.ts): the
 * readiness states, one hourly bucket of the payload, the dashboard summary,
 * and the three numeric bucket fields a sample can be distributed into.
 */
module Models {

  /** HealthState of models.ts, one constructor per enum member. */
  datatype HealthState = NotSupported | HealthAppMissing | NotAuthorized | NoTrustedData | Ready

  /** The string value of each HealthState member. */
  function StateName(s: HealthState): string {
    match s
    case NotSupported => "NOT_SUPPORTED"
    case HealthAppMissing => "HEALTH_APP_MISSING"
    case NotAuthorized => "NOT_AUTHORIZED"
    case NoTrustedData => "NO_TRUSTED_DATA"
    case Ready => "READY"
  }

  /** One of the 24 hourly buckets (HourlyHealthPayload). */
  datatype HourlyHealthPayload = HourlyHealthPayload(
    steps: real,
    activeCalories: real,
    activeCaloriesUnit: string,
    distance: real,
    distanceUnit: string,
    startDate: string,
    endDate: string)

  /**
   * The `time` text of an audit entry. `toLocaleTimeString()` of an instant is
   * kept as the instant; the other two are the literal "unknown" and
   * "Err: " followed by the unparseable text.
   */
  datatype TimeLabel = UnknownTime | ErrLabel(text: string) | LocalTime(ms: int)

  /** The summary returned by getDashboardMetrics. */
  datatype DashboardMetrics = DashboardMetrics(
    steps: real,
    activeCaloriesKcal: real,
    distanceMeters: real,
    lastUpdatedISO: string)

  /** The numeric keys of HourlyHealthPayload that the providers pass as `bucketKey`. */
  datatype BucketField = Steps | ActiveCalories | Distance

  function FieldOf(b: HourlyHealthPayload, f: BucketField): real {
    match f
    case Steps => b.steps
    case ActiveCalories => b.activeCalories
    case Distance => b.distance
  }

  /** `bucket[f] += x`. */
  function AddToField(b: HourlyHealthPayload, f: BucketField, x: real): (r: HourlyHealthPayload)
    ensures FieldOf(r, f) == FieldOf(b, f) + x
    ensures forall g :: g != f ==> FieldOf(r, g) == FieldOf(b, g)
    ensures r.startDate == b.startDate && r.endDate == b.endDate
    ensures r.activeCaloriesUnit == b.activeCaloriesUnit && r.distanceUnit == b.distanceUnit
  {
    match f
    case Steps => b.(steps := b.steps + x)
    case ActiveCalories => b.(activeCalories := b.activeCalories + x)
    case Distance => b.(distance := b.distance + x)
  }

  /** The sum of field f over a sequence of buckets. */
  function SumField(bs: seq<HourlyHealthPayload>, f: BucketField): real {
    if |bs| == 0 then 0.0 else SumField(bs[..|bs| - 1], f) + FieldOf(bs[|bs| - 1], f)
  }

  /**
   * The `hourly.reduce(...)` of both providers' getDashboardMetrics:
   * elementwise totals of the buckets; the generation time is a parameter
   * because the source reads the clock.
   */
  function DashboardTotals(bs: seq<HourlyHealthPayload>, lastUpdatedISO: string): (m: DashboardMetrics)
    ensures m.steps == SumField(bs, Steps)
    ensures m.activeCaloriesKcal == SumField(bs, ActiveCalories)
    ensures m.distanceMeters == SumField(bs, Distance)
    ensures m.lastUpdatedISO == lastUpdatedISO
  {
    if |bs| == 0 then DashboardMetrics(0.0, 0.0, 0.0, lastUpdatedISO)
    else
      var acc := DashboardTotals(bs[..|bs| - 1], lastUpdatedISO);
      var b := bs[|bs| - 1];
      DashboardMetrics(acc.steps + b.steps, acc.activeCaloriesKcal + b.activeCalories,
                       acc.distanceMeters + b.distance, lastUpdatedISO)
  }
}
