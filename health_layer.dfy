/**
 * The facade the app talks to (src/health/HealthLayer.ts): it picks the
 * provider for the platform once, records the state the last permission
 * request produced, and lets payload calls through to the provider only
 * when a provider exists and that state is READY. `Platform.OS` and the
 * result of the provider's native permission request are parameters.
 */
module HealthLayer {
  import opened Wrappers
  import opened Models
  import opened TimeBuckets
  import Android = AndroidHealthConnect
  import AndroidTypes
  import Ios = IosHealthKit

  /** The provider the manager holds. */
  datatype Provider =
    | IosProvider(ios: Ios.IosHealthKitProvider)
    | AndroidProvider(android: Android.AndroidHealthConnectProvider)

  /** The provider objects a payload call may update. */
  function ProviderObjects(p: Option<Provider>): set<object> {
    match p
    case None => {}
    case Some(IosProvider(ios)) => {ios}
    case Some(AndroidProvider(android)) => {android}
  }

  /** The state ensurePermissions leaves: NOT_SUPPORTED without a provider, otherwise the provider's answer. */
  function PermissionsOutcome(p: Option<Provider>, providerResult: HealthState): HealthState {
    if p.None? then NotSupported else providerResult
  }

  function NotReadyMessage(state: HealthState): string {
    "HealthLayer not ready. Current state: " + StateName(state)
  }

  /** ensureReady: the error it throws, or None when it lets the call through. */
  function ReadyCheck(p: Option<Provider>, state: HealthState): (err: Option<string>)
    ensures err.None? <==> p.Some? && state == Ready
    ensures err.Some? ==> err.value == NotReadyMessage(state)
  {
    if p.None? || state != Ready then Some(NotReadyMessage(state)) else None
  }

  /** StateName gives every state its own text. */
  lemma StateNameInjective(s: HealthState, t: HealthState)
    ensures StateName(s) == StateName(t) <==> s == t
  {
    if s != t {
      assert StateName(s)[4] != StateName(t)[4] || |StateName(s)| != |StateName(t)|;
    }
  }

  /** The error text names the current state, so different states give different errors. */
  lemma NotReadyMessageNamesState(s: HealthState, t: HealthState)
    ensures NotReadyMessage(s) == NotReadyMessage(t) <==> s == t
  {
    var prefix := "HealthLayer not ready. Current state: ";
    if NotReadyMessage(s) == NotReadyMessage(t) {
      assert StateName(s) == NotReadyMessage(s)[|prefix|..];
      assert StateName(t) == NotReadyMessage(t)[|prefix|..];
      StateNameInjective(s, t);
    }
  }

  /**
   * After a permission request the gate opens exactly when there is a
   * provider and it answered READY; without a provider the call fails
   * naming NOT_SUPPORTED.
   */
  lemma GateAfterPermissions(p: Option<Provider>, providerResult: HealthState)
    ensures ReadyCheck(p, PermissionsOutcome(p, providerResult)).None? <==> p.Some? && providerResult == Ready
    ensures p.None? ==> ReadyCheck(p, PermissionsOutcome(p, providerResult))
                        == Some("HealthLayer not ready. Current state: NOT_SUPPORTED")
  {
    assert "HealthLayer not ready. Current state: " + "NOT_SUPPORTED"
        == "HealthLayer not ready. Current state: NOT_SUPPORTED";
  }

  class HealthLayerManager {
    var provider: Option<Provider>
    var state: HealthState

    /** The manager starts NOT_SUPPORTED with the provider of the platform `os`. */
    constructor(os: string)
      ensures state == NotSupported
      ensures os == "ios" ==> provider.Some? && provider.value.IosProvider? && fresh(provider.value.ios)
      ensures os == "ios" ==> provider.value.ios.debugData.None? && !provider.value.ios.bypassManualFilter
      ensures os == "android" ==> provider.Some? && provider.value.AndroidProvider? && fresh(provider.value.android)
      ensures os == "android" ==> provider.value.android.debugData.None? && !provider.value.android.bypassManualFilter
      ensures os != "ios" && os != "android" ==> provider.None?
    {
      provider := None;
      state := NotSupported;
      new;
      InitializeProvider(os);
    }

    /** initializeProvider: an iOS provider on iOS, an Android one on Android, none elsewhere. */
    method InitializeProvider(os: string)
      modifies this
      ensures state == old(state)
      ensures os == "ios" ==> provider.Some? && provider.value.IosProvider? && fresh(provider.value.ios)
      ensures os == "ios" ==> provider.value.ios.debugData.None? && !provider.value.ios.bypassManualFilter
      ensures os == "android" ==> provider.Some? && provider.value.AndroidProvider? && fresh(provider.value.android)
      ensures os == "android" ==> provider.value.android.debugData.None? && !provider.value.android.bypassManualFilter
      ensures os != "ios" && os != "android" ==> provider == old(provider)
    {
      if os == "ios" {
        var p := new Ios.IosHealthKitProvider();
        provider := Some(IosProvider(p));
      } else if os == "android" {
        var p := new Android.AndroidHealthConnectProvider();
        provider := Some(AndroidProvider(p));
      }
    }

    /**
     * ensurePermissions. `providerResult` is what the provider's native
     * request resolves to; it is asked only when there is a provider.
     */
    method EnsurePermissions(providerResult: HealthState) returns (result: HealthState)
      modifies this
      ensures provider == old(provider)
      ensures provider.None? ==> state == NotSupported
      ensures provider.Some? ==> state == providerResult
      ensures state == PermissionsOutcome(provider, providerResult)
      ensures result == state
    {
      if provider.None? {
        state := NotSupported;
        return state;
      }
      state := providerResult;
      return state;
    }

    /** ensureReady: see ReadyCheck. */
    function EnsureReady(): (err: Option<string>)
      reads this
      ensures err.None? <==> provider.Some? && state == Ready
      ensures err.Some? ==> err.value == NotReadyMessage(state)
    {
      ReadyCheck(provider, state)
    }

    /**
     * getTodayHourlyPayload. The query results both providers would read
     * are parameters and only the held provider's are used. A call the gate
     * refuses fails with ensureReady's message and touches no provider.
     */
    method GetTodayHourlyPayload(androidData: AndroidTypes.RecordLists, iosData: Ios.SampleLists,
                                 today: DateParts, dayStart: int)
      returns (r: Result<seq<HourlyHealthPayload>, string>)
      requires provider.Some? && provider.value.AndroidProvider? ==>
        Android.PayloadsPresent(Android.TrustedLists(androidData, provider.value.android.bypassManualFilter))
      modifies ProviderObjects(provider)
      ensures r.Failure? <==> !(provider.Some? && state == Ready)
      ensures r.Failure? ==> r.error == NotReadyMessage(state)
      ensures r.Failure? && provider.Some? && provider.value.AndroidProvider? ==> unchanged(provider.value.android)
      ensures r.Failure? && provider.Some? && provider.value.IosProvider? ==> unchanged(provider.value.ios)
      ensures r.Success? && provider.value.AndroidProvider? ==>
        var a := provider.value.android;
        && a.bypassManualFilter == old(a.bypassManualFilter)
        && r.value == Android.Reconcile(androidData, today, dayStart, a.bypassManualFilter).0
        && a.debugData == Some(Android.Reconcile(androidData, today, dayStart, a.bypassManualFilter).1)
      ensures r.Success? && provider.value.IosProvider? ==>
        var p := provider.value.ios;
        && p.bypassManualFilter == old(p.bypassManualFilter)
        && r.value == Ios.RunBuckets(iosData, today, dayStart, p.bypassManualFilter)
        && p.debugData == Some(Ios.RunDebug(iosData, dayStart, p.bypassManualFilter))
    {
      var err := EnsureReady();
      if err.Some? {
        return Failure(err.value);
      }
      match provider.value
      case AndroidProvider(a) =>
        var payload := a.GetTodayHourlyPayload(androidData, today, dayStart);
        r := Success(payload);
      case IosProvider(p) =>
        var payload := p.GetTodayHourlyPayload(iosData, today, dayStart);
        r := Success(payload);
    }

    /** getDashboardMetrics: the same gate in front of the provider's dashboard totals. */
    method GetDashboardMetrics(androidData: AndroidTypes.RecordLists, iosData: Ios.SampleLists,
                               today: DateParts, dayStart: int, nowISO: string)
      returns (r: Result<DashboardMetrics, string>)
      requires provider.Some? && provider.value.AndroidProvider? ==>
        Android.PayloadsPresent(Android.TrustedLists(androidData, provider.value.android.bypassManualFilter))
      modifies ProviderObjects(provider)
      ensures r.Failure? <==> !(provider.Some? && state == Ready)
      ensures r.Failure? ==> r.error == NotReadyMessage(state)
      ensures r.Failure? && provider.Some? && provider.value.AndroidProvider? ==> unchanged(provider.value.android)
      ensures r.Failure? && provider.Some? && provider.value.IosProvider? ==> unchanged(provider.value.ios)
      ensures r.Success? && provider.value.AndroidProvider? ==>
        var a := provider.value.android;
        && a.bypassManualFilter == old(a.bypassManualFilter)
        && r.value == DashboardTotals(Android.Reconcile(androidData, today, dayStart, a.bypassManualFilter).0, nowISO)
      ensures r.Success? && provider.value.IosProvider? ==>
        var p := provider.value.ios;
        && p.bypassManualFilter == old(p.bypassManualFilter)
        && r.value == DashboardTotals(Ios.RunBuckets(iosData, today, dayStart, p.bypassManualFilter), nowISO)
    {
      var err := EnsureReady();
      if err.Some? {
        return Failure(err.value);
      }
      match provider.value
      case AndroidProvider(a) =>
        var metrics := a.GetDashboardMetrics(androidData, today, dayStart, nowISO);
        r := Success(metrics);
      case IosProvider(p) =>
        var metrics := p.GetDashboardMetrics(iosData, today, dayStart, nowISO);
        r := Success(metrics);
    }

    /** getProvider: the provider chosen at construction, which no other method reassigns. */
    function GetProvider(): (p: Option<Provider>)
      reads this
      ensures p == provider
    {
      provider
    }
  }
}
