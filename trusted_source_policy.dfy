/**
 * The provenance check applied to every Health Connect record
 * (src/health/utils/trustedSourcePolicy.ts): a first-match decision over the
 * record's data origin and recording-method code.
 */
module TrustedSourcePolicy {
  import opened Wrappers

  /** `metadata.device`: only its manufacturer and model are read. */
  datatype Device = Device(manufacturer: string, model: string)

  /**
   * A record's `metadata`. An absent or empty `dataOrigin` string is `None`
   * (JavaScript treats both as false); the recording method is Health
   * Connect's integer code.
   */
  datatype Metadata = Metadata(
    dataOrigin: Option<string>,
    recordingMethod: Option<int>,
    device: Option<Device>)

  /** RejectionReason; NotRejected is the enum's NONE ("none"). */
  datatype RejectionReason = NotRejected | MissingOrigin | UntrustedPackage | UserInput | Other

  /** The string value of each RejectionReason. */
  function ReasonText(r: RejectionReason): string {
    match r
    case NotRejected => "none"
    case MissingOrigin => "missingOrigin"
    case UntrustedPackage => "untrustedPackage"
    case UserInput => "userInput"
    case Other => "other"
  }

  datatype ValidationResult = ValidationResult(trusted: bool, reason: RejectionReason)

  /** TRUSTED_PACKAGES: the only origin accepted is Google Fit. */
  const TRUSTED_PACKAGES: seq<string> := ["com.google.android.apps.fitness"]

  /** ALLOWED_RECORDING_METHODS: active (1) and automatically recorded (2). */
  const ALLOWED_RECORDING_METHODS: seq<int> := [1, 2]

  /** The manual-entry recording method. */
  const MANUAL_ENTRY: int := 3

  /** The "unknown" recording method, accepted from a trusted origin. */
  const UNKNOWN_METHOD: int := 0

  /** `metadata.dataOrigin`, when metadata is present and the origin is a non-empty string. */
  function OriginOf(metadata: Option<Metadata>): Option<string> {
    if metadata.Some? && metadata.value.dataOrigin.Some? && metadata.value.dataOrigin.value != ""
    then metadata.value.dataOrigin
    else None
  }

  /** The origin checks pass: a non-empty origin that is one of TRUSTED_PACKAGES. */
  predicate OriginTrusted(metadata: Option<Metadata>) {
    OriginOf(metadata).Some? && OriginOf(metadata).value in TRUSTED_PACKAGES
  }

  /** The recording-method checks pass: no code, allowManual set, or code 0, 1 or 2. */
  predicate MethodAcceptable(code: Option<int>, allowManual: bool) {
    code.None? || allowManual || code.value in {UNKNOWN_METHOD, 1, 2}
  }

  /**
   * validateRecord, with the record given by its metadata. The first check
   * that fails decides the reason; the result is trusted exactly when the
   * reason is NotRejected.
   */
  function ValidateRecord(metadata: Option<Metadata>, allowManual: bool): (r: ValidationResult)
    ensures r.trusted <==> r.reason == NotRejected
    ensures r.trusted <==>
      OriginTrusted(metadata) && MethodAcceptable(metadata.value.recordingMethod, allowManual)
    ensures r.reason == MissingOrigin <==> OriginOf(metadata).None?
    ensures r.reason == UntrustedPackage <==>
      OriginOf(metadata).Some? && OriginOf(metadata).value !in TRUSTED_PACKAGES
    ensures r.reason == UserInput <==>
      OriginTrusted(metadata) && !MethodAcceptable(metadata.value.recordingMethod, allowManual)
    ensures r.reason != Other
  {
    if OriginOf(metadata).None? then
      ValidationResult(false, MissingOrigin)
    else if metadata.value.dataOrigin.value !in TRUSTED_PACKAGES then
      ValidationResult(false, UntrustedPackage)
    else
      var md := metadata.value;
      if md.recordingMethod.Some? then
        var m := md.recordingMethod.value;
        if m == MANUAL_ENTRY then
          if allowManual then ValidationResult(true, NotRejected)
          else ValidationResult(false, UserInput)
        else if m !in ALLOWED_RECORDING_METHODS then
          if allowManual then ValidationResult(true, NotRejected)
          else if m == UNKNOWN_METHOD then ValidationResult(true, NotRejected)
          else ValidationResult(false, UserInput)
        else
          ValidationResult(true, NotRejected)
      else
        ValidationResult(true, NotRejected)
  }

  /** isTrustedRecord: validateRecord with the default allowManual = false. */
  function IsTrustedRecord(metadata: Option<Metadata>): (t: bool)
    ensures t <==> OriginTrusted(metadata) && MethodAcceptable(metadata.value.recordingMethod, false)
  {
    ValidateRecord(metadata, false).trusted
  }

  /** Missing metadata or origin is rejected MissingOrigin, whatever allowManual says. */
  lemma MissingOriginRejected(metadata: Option<Metadata>, allowManual: bool)
    requires metadata.None? || metadata.value.dataOrigin.None? || metadata.value.dataOrigin == Some("")
    ensures ValidateRecord(metadata, allowManual) == ValidationResult(false, MissingOrigin)
  {
  }

  /** An origin outside TRUSTED_PACKAGES is rejected before the recording method is looked at. */
  lemma UntrustedOriginRejected(origin: string, code: Option<int>, device: Option<Device>, allowManual: bool)
    requires origin != "" && origin !in TRUSTED_PACKAGES
    ensures ValidateRecord(Some(Metadata(Some(origin), code, device)), allowManual)
         == ValidationResult(false, UntrustedPackage)
  {
  }

  /** The per-method cases for a trusted origin. */
  lemma TrustedOriginByMethod(code: Option<int>, device: Option<Device>, allowManual: bool)
    ensures var r := ValidateRecord(Some(Metadata(Some(TRUSTED_PACKAGES[0]), code, device)), allowManual);
      && (code.None? ==> r == ValidationResult(true, NotRejected))
      && (code == Some(MANUAL_ENTRY) ==>
            r == if allowManual then ValidationResult(true, NotRejected) else ValidationResult(false, UserInput))
      && (code in {Some(0), Some(1), Some(2)} ==> r == ValidationResult(true, NotRejected))
      && (code.Some? && code.value !in {0, 1, 2, 3} ==>
            r == if allowManual then ValidationResult(true, NotRejected) else ValidationResult(false, UserInput))
  {
  }

  /** Allowing manual records never rejects a record that was accepted without it. */
  lemma AcceptanceMonotone(metadata: Option<Metadata>)
    ensures ValidateRecord(metadata, false).trusted ==> ValidateRecord(metadata, true).trusted
  {
  }

  /** With allowManual set, only the origin matters. */
  lemma AllowManualOnlyOrigin(metadata: Option<Metadata>)
    ensures ValidateRecord(metadata, true).trusted <==> OriginTrusted(metadata)
  {
  }
}
