/**
 * InitializeTarget, which both targets share step for step: start the SDK
 * when it is not yet configured and an app secret is given, enable the
 * target's own service when it is disabled, then forward the optional user
 * id, log URL and country code. A failure while starting or enabling is
 * rethrown, so nothing after it happens.
 */
module Initialization {
  import opened Text
  import opened AppCenter
  import opened ServiceTypes

  datatype TargetKind = CrashesTarget | AnalyticsTarget

  /** The service a target enables, and starts when no other is named. */
  function OwnService(target: TargetKind): ServiceType
  {
    match target
    case CrashesTarget => Crashes
    case AnalyticsTarget => Analytics
  }

  /** The target's settings, the layouts among them rendered with a null event. */
  datatype InitSettings = InitSettings(
    appSecret: string,
    serviceTypes: seq<ServiceType>,
    serviceTypesString: string,
    userId: string,
    logUrl: string,
    countryCode: string)

  datatype InitOutcome = Initialized | StartFailed | EnableFailed

  /** Whether InitializeTarget starts the SDK. */
  predicate Starts(settings: InitSettings, configured: bool)
  {
    !configured && !IsNullOrEmpty(settings.appSecret)
  }

  /** The services the start step asks the SDK to start. */
  function StartedServices(target: TargetKind, settings: InitSettings): (r: seq<ServiceType>)
    ensures |r| > 0
    ensures |settings.serviceTypes| > 0 ==> r == settings.serviceTypes
    ensures |settings.serviceTypes| == 0 && |ParseServiceTypes(settings.serviceTypesString)| > 0 ==>
      r == ParseServiceTypes(settings.serviceTypesString)
    ensures |settings.serviceTypes| == 0 && |ParseServiceTypes(settings.serviceTypesString)| == 0 ==>
      r == [OwnService(target)]
  {
    ResolveServiceTypes(settings.serviceTypes, settings.serviceTypesString, OwnService(target))
  }

  /**
   * The calls of the start step, after Configured has been read, given the
   * services it resolved (StartedServices).
   */
  function StartCalls(target: TargetKind, settings: InitSettings, services: seq<ServiceType>, configured: bool): seq<Call>
  {
    if Starts(settings, configured) then
      (if target == CrashesTarget then [RegisterCrashesCallbacks] else []) + [Call.Start(settings.appSecret, services)]
    else []
  }

  /** The calls of the enable step. */
  function EnableCalls(target: TargetKind, enabled: set<ServiceType>, faults: set<Operation>): seq<Call>
  {
    [Call.IsEnabled(OwnService(target))]
      + if IsEnabledOperation !in faults && OwnService(target) !in enabled then [Call.SetEnabled(OwnService(target), true)] else []
  }

  /** The calls forwarding the optional settings that are not empty. */
  function OptionalCalls(settings: InitSettings): seq<Call>
  {
    (if IsNullOrEmpty(settings.userId) then [] else [Call.SetUserId(settings.userId)])
      + (if IsNullOrEmpty(settings.logUrl) then [] else [Call.SetLogUrl(settings.logUrl)])
      + (if IsNullOrEmpty(settings.countryCode) then [] else [Call.SetCountryCode(settings.countryCode)])
  }

  /** Whether starting the SDK is attempted and throws. */
  predicate StartFails(settings: InitSettings, configured: bool, faults: set<Operation>)
  {
    Starts(settings, configured) && StartOperation in faults
  }

  /** How InitializeTarget ends once the start step has succeeded. */
  function AfterStartOutcome(target: TargetKind, enabled: set<ServiceType>, faults: set<Operation>): InitOutcome
  {
    if IsEnabledOperation in faults || (OwnService(target) !in enabled && SetEnabledOperation in faults) then EnableFailed
    else Initialized
  }

  /** How InitializeTarget ends, given the SDK's state and the operations that throw. */
  function Outcome(target: TargetKind, settings: InitSettings, configured: bool, enabled: set<ServiceType>, faults: set<Operation>): InitOutcome
  {
    if StartFails(settings, configured, faults) then StartFailed else AfterStartOutcome(target, enabled, faults)
  }

  /** The calls after a successful start step: the enable step's, then the optional settings' if enabling succeeded. */
  function AfterStartCalls(target: TargetKind, settings: InitSettings, enabled: set<ServiceType>, faults: set<Operation>): seq<Call>
  {
    EnableCalls(target, enabled, faults)
      + if AfterStartOutcome(target, enabled, faults) == Initialized then OptionalCalls(settings) else []
  }

  /** Every call InitializeTarget makes, in order: the Configured read, the start step, and the rest unless starting failed. */
  function InitCalls(target: TargetKind, settings: InitSettings, services: seq<ServiceType>, configured: bool, enabled: set<ServiceType>, faults: set<Operation>): seq<Call>
  {
    [ReadConfigured] + StartCalls(target, settings, services, configured)
      + if StartFails(settings, configured, faults) then [] else AfterStartCalls(target, settings, enabled, faults)
  }

  method InitializeTarget(sdk: Sdk, target: TargetKind, settings: InitSettings) returns (outcome: InitOutcome)
    modifies sdk`calls, sdk`configured, sdk`enabled
    ensures outcome == Outcome(target, settings, old(sdk.configured), old(sdk.enabled), sdk.faults)
    ensures sdk.calls == old(sdk.calls) + InitCalls(target, settings, StartedServices(target, settings), old(sdk.configured), old(sdk.enabled), sdk.faults)
    ensures sdk.configured == (old(sdk.configured) || (Starts(settings, old(sdk.configured)) && StartOperation !in sdk.faults))
    ensures sdk.enabled == if outcome == Initialized then old(sdk.enabled) + {OwnService(target)} else old(sdk.enabled)
  {
    ghost var calls0 := sdk.calls;
    var started := ReadAndStart(sdk, target, settings);
    ghost var startCalls := sdk.calls[|calls0|..];
    outcome := FinishInitialization(sdk, target, settings, started);
    assert sdk.calls == calls0 + (startCalls + sdk.calls[|calls0| + |startCalls|..]);
  }

  /** Read Configured, then run the start step on its answer. */
  method ReadAndStart(sdk: Sdk, target: TargetKind, settings: InitSettings) returns (started: bool)
    modifies sdk`calls, sdk`configured
    ensures started == !StartFails(settings, old(sdk.configured), sdk.faults)
    ensures sdk.calls == old(sdk.calls) + ([ReadConfigured] + StartCalls(target, settings, StartedServices(target, settings), old(sdk.configured)))
    ensures sdk.configured == (old(sdk.configured) || (Starts(settings, old(sdk.configured)) && started))
  {
    var configured := sdk.Configured();
    started := StartStep(sdk, target, settings, configured);
  }

  /**
   * What follows the start step: nothing when it failed, else the enable
   * step, then the optional settings when enabling succeeded.
   */
  method FinishInitialization(sdk: Sdk, target: TargetKind, settings: InitSettings, started: bool) returns (outcome: InitOutcome)
    modifies sdk`calls, sdk`enabled
    ensures outcome == if started then AfterStartOutcome(target, old(sdk.enabled), sdk.faults) else StartFailed
    ensures sdk.calls == old(sdk.calls) + if started then AfterStartCalls(target, settings, old(sdk.enabled), sdk.faults) else []
    ensures sdk.enabled == if outcome == Initialized then old(sdk.enabled) + {OwnService(target)} else old(sdk.enabled)
  {
    if !started {
      outcome := StartFailed;
      return;
    }
    var enabledOk := EnableStep(sdk, target);
    if !enabledOk {
      outcome := EnableFailed;
      return;
    }
    ForwardOptionalSettings(sdk, settings);
    outcome := Initialized;
  }

  /** The first try block: start the SDK when it is not configured and a secret is given. */
  method StartStep(sdk: Sdk, target: TargetKind, settings: InitSettings, configured: bool) returns (ok: bool)
    modifies sdk`calls, sdk`configured
    ensures ok == !(Starts(settings, configured) && StartOperation in sdk.faults)
    ensures sdk.calls == old(sdk.calls) + StartCalls(target, settings, StartedServices(target, settings), configured)
    ensures sdk.configured == (old(sdk.configured) || (Starts(settings, configured) && ok))
  {
    ok := true;
    if !configured {
      var appSecret := settings.appSecret;
      if !IsNullOrEmpty(appSecret) {
        var serviceTypes := settings.serviceTypes;
        if serviceTypes == [] {
          serviceTypes := ParseServiceTypes(settings.serviceTypesString);
        }
        if serviceTypes == [] {
          serviceTypes := [OwnService(target)];
        }
        if target == CrashesTarget {
          sdk.RegisterCallbacks();
        }
        ok := sdk.Start(appSecret, serviceTypes);
      }
    }
  }

  /** The second try block: enable the target's service when it is disabled. */
  method EnableStep(sdk: Sdk, target: TargetKind) returns (ok: bool)
    modifies sdk`calls, sdk`enabled
    ensures ok == !(IsEnabledOperation in sdk.faults || (OwnService(target) !in old(sdk.enabled) && SetEnabledOperation in sdk.faults))
    ensures sdk.calls == old(sdk.calls) + EnableCalls(target, old(sdk.enabled), sdk.faults)
    ensures sdk.enabled == if ok then old(sdk.enabled) + {OwnService(target)} else old(sdk.enabled)
  {
    var service := OwnService(target);
    var on;
    ok, on := sdk.IsEnabled(service);
    if ok && !on {
      ok := sdk.SetEnabled(service, true);
    }
  }

  /** Forward the user id, log URL and country code that are not empty. */
  method ForwardOptionalSettings(sdk: Sdk, settings: InitSettings)
    modifies sdk`calls
    ensures sdk.calls == old(sdk.calls) + OptionalCalls(settings)
  {
    if !IsNullOrEmpty(settings.userId) {
      sdk.Record(SetUserId(settings.userId));
    }
    if !IsNullOrEmpty(settings.logUrl) {
      sdk.Record(SetLogUrl(settings.logUrl));
    }
    if !IsNullOrEmpty(settings.countryCode) {
      sdk.Record(SetCountryCode(settings.countryCode));
    }
  }

  /** The calls made after the start step: the enable step's unless starting failed. */
  function EnableStepCalls(target: TargetKind, settings: InitSettings, configured: bool, enabled: set<ServiceType>, faults: set<Operation>): seq<Call>
  {
    if Outcome(target, settings, configured, enabled, faults) == StartFailed then [] else EnableCalls(target, enabled, faults)
  }

  /** The optional settings' calls, made only when nothing failed. */
  function SettingStepCalls(target: TargetKind, settings: InitSettings, configured: bool, enabled: set<ServiceType>, faults: set<Operation>): seq<Call>
  {
    if Outcome(target, settings, configured, enabled, faults) == Initialized then OptionalCalls(settings) else []
  }

  /** The log is the Configured read followed by the calls of the three steps, a step that was not reached making none. */
  lemma InitCallsBySteps(target: TargetKind, settings: InitSettings, services: seq<ServiceType>, configured: bool, enabled: set<ServiceType>, faults: set<Operation>)
    ensures InitCalls(target, settings, services, configured, enabled, faults)
         == [ReadConfigured] + StartCalls(target, settings, services, configured)
            + EnableStepCalls(target, settings, configured, enabled, faults)
            + SettingStepCalls(target, settings, configured, enabled, faults)
  {
  }

  /**
   * Sorted by the part of the SDK they address, the calls are: the one
   * Configured read, which comes first; the start step's calls; the enable
   * step's calls unless starting failed; the optional settings when nothing
   * failed; and no tracking at all.
   */
  lemma InitCallsByKind(target: TargetKind, settings: InitSettings, services: seq<ServiceType>, configured: bool, enabled: set<ServiceType>, faults: set<Operation>)
    ensures var calls := InitCalls(target, settings, services, configured, enabled, faults);
      && calls[0] == ReadConfigured
      && CallsOfKind(calls, ConfigurationRead) == [ReadConfigured]
      && CallsOfKind(calls, Startup) == StartCalls(target, settings, services, configured)
      && CallsOfKind(calls, ServiceSwitch) == EnableStepCalls(target, settings, configured, enabled, faults)
      && CallsOfKind(calls, Setting) == SettingStepCalls(target, settings, configured, enabled, faults)
      && CallsOfKind(calls, Tracking) == []
  {
    var read, start := [ReadConfigured], StartCalls(target, settings, services, configured);
    var enable := EnableStepCalls(target, settings, configured, enabled, faults);
    var optional := SettingStepCalls(target, settings, configured, enabled, faults);
    InitCallsBySteps(target, settings, services, configured, enabled, faults);
    StartCallsMembers(target, settings, services, configured);
    EnableCallsMembers(target, enabled, faults);
    OptionalCallsMembers(settings);
    KindOfSteps(read, start, enable, optional);
  }

  /** Selecting each kind from four segments, each all of a single kind, gives back that kind's segment. */
  lemma KindOfSteps(read: seq<Call>, start: seq<Call>, enable: seq<Call>, optional: seq<Call>)
    requires forall c :: c in read ==> c.Kind() == ConfigurationRead
    requires forall c :: c in start ==> c.Kind() == Startup
    requires forall c :: c in enable ==> c.Kind() == ServiceSwitch
    requires forall c :: c in optional ==> c.Kind() == Setting
    ensures CallsOfKind(read + start + enable + optional, ConfigurationRead) == read
    ensures CallsOfKind(read + start + enable + optional, Startup) == start
    ensures CallsOfKind(read + start + enable + optional, ServiceSwitch) == enable
    ensures CallsOfKind(read + start + enable + optional, Setting) == optional
    ensures CallsOfKind(read + start + enable + optional, Tracking) == []
  {
    var all := read + start + enable + optional;
    CallsOfKindOfFour(read, start, enable, optional, ConfigurationRead);
    CallsOfKindAll(read, ConfigurationRead);
    CallsOfKindNone(start, ConfigurationRead);
    CallsOfKindNone(enable, ConfigurationRead);
    CallsOfKindNone(optional, ConfigurationRead);
    assert CallsOfKind(all, ConfigurationRead) == read + [] + [] + [];
    CallsOfKindOfFour(read, start, enable, optional, Startup);
    CallsOfKindNone(read, Startup);
    CallsOfKindAll(start, Startup);
    CallsOfKindNone(enable, Startup);
    CallsOfKindNone(optional, Startup);
    assert CallsOfKind(all, Startup) == [] + start + [] + [];
    CallsOfKindOfFour(read, start, enable, optional, ServiceSwitch);
    CallsOfKindNone(read, ServiceSwitch);
    CallsOfKindNone(start, ServiceSwitch);
    CallsOfKindAll(enable, ServiceSwitch);
    CallsOfKindNone(optional, ServiceSwitch);
    assert CallsOfKind(all, ServiceSwitch) == [] + [] + enable + [];
    CallsOfKindOfFour(read, start, enable, optional, Setting);
    CallsOfKindNone(read, Setting);
    CallsOfKindNone(start, Setting);
    CallsOfKindNone(enable, Setting);
    CallsOfKindAll(optional, Setting);
    assert CallsOfKind(all, Setting) == [] + [] + [] + optional;
    CallsOfKindOfFour(read, start, enable, optional, Tracking);
    CallsOfKindNone(read, Tracking);
    CallsOfKindNone(start, Tracking);
    CallsOfKindNone(enable, Tracking);
    CallsOfKindNone(optional, Tracking);
  }

  lemma CallsOfKindOfFour(a: seq<Call>, b: seq<Call>, c: seq<Call>, d: seq<Call>, kind: CallKind)
    ensures CallsOfKind(a + b + c + d, kind)
         == CallsOfKind(a, kind) + CallsOfKind(b, kind) + CallsOfKind(c, kind) + CallsOfKind(d, kind)
  {
    CallsOfKindAppend(a, b, kind);
    CallsOfKindAppend(a + b, c, kind);
    CallsOfKindAppend(a + b + c, d, kind);
  }

  /**
   * The start step registers the crash callbacks, for the Crashes target
   * only, then starts the SDK with the resolved services; it does so exactly
   * when the SDK is not configured and an app secret is given.
   */
  lemma StartCallsMembers(target: TargetKind, settings: InitSettings, services: seq<ServiceType>, configured: bool)
    ensures var calls := StartCalls(target, settings, services, configured);
      && (Call.Start(settings.appSecret, services) in calls <==> !configured && !IsNullOrEmpty(settings.appSecret))
      && (RegisterCrashesCallbacks in calls <==> Starts(settings, configured) && target == CrashesTarget)
      && (forall c :: c in calls ==> c == RegisterCrashesCallbacks || c == Call.Start(settings.appSecret, services))
      && (forall c :: c in calls ==> c.Kind() == Startup)
  {
  }

  /**
   * The enable step always asks IsEnabled for the target's own service, and
   * calls SetEnabled(true) on it exactly when IsEnabled answered false; it
   * never disables a service and never touches another one.
   */
  lemma EnableCallsMembers(target: TargetKind, enabled: set<ServiceType>, faults: set<Operation>)
    ensures var own, calls := OwnService(target), EnableCalls(target, enabled, faults);
      && Call.IsEnabled(own) in calls
      && (Call.SetEnabled(own, true) in calls <==> IsEnabledOperation !in faults && own !in enabled)
      && (forall c :: c in calls ==> c == Call.IsEnabled(own) || c == Call.SetEnabled(own, true))
      && (forall c :: c in calls ==> c.Kind() == ServiceSwitch)
  {
  }

  /** Each optional setting is forwarded, unchanged, exactly when it is not empty. */
  lemma OptionalCallsMembers(settings: InitSettings)
    ensures var calls := OptionalCalls(settings);
      && (Call.SetUserId(settings.userId) in calls <==> !IsNullOrEmpty(settings.userId))
      && (Call.SetLogUrl(settings.logUrl) in calls <==> !IsNullOrEmpty(settings.logUrl))
      && (Call.SetCountryCode(settings.countryCode) in calls <==> !IsNullOrEmpty(settings.countryCode))
      && (forall c :: c in calls ==>
            || (c.SetUserId? && c.userId == settings.userId && !IsNullOrEmpty(c.userId))
            || (c.SetLogUrl? && c.logUrl == settings.logUrl && !IsNullOrEmpty(c.logUrl))
            || (c.SetCountryCode? && c.countryCode == settings.countryCode && !IsNullOrEmpty(c.countryCode)))
      && (forall c :: c in calls ==> c.Kind() == Setting)
  {
  }

  /** A failure is rethrown: the failing call is the last one made. */
  lemma FailureEndsInitialization(target: TargetKind, settings: InitSettings, services: seq<ServiceType>, configured: bool, enabled: set<ServiceType>, faults: set<Operation>)
    ensures var calls := InitCalls(target, settings, services, configured, enabled, faults);
      var outcome := Outcome(target, settings, configured, enabled, faults);
      && (outcome == StartFailed ==> calls[|calls| - 1].Start? && StartOperation in faults)
      && (outcome == EnableFailed ==>
            || (calls[|calls| - 1].IsEnabled? && IsEnabledOperation in faults)
            || (calls[|calls| - 1].SetEnabled? && SetEnabledOperation in faults))
  {
  }

  /**
   * With no app secret, an unconfigured SDK and a disabled service, the only
   * calls are the Configured read, IsEnabled and SetEnabled(true).
   */
  lemma InitWithoutSecret(target: TargetKind, services: seq<ServiceType>)
    ensures InitCalls(target, InitSettings("", [], "", "", "", ""), services, false, {}, {})
         == [ReadConfigured, Call.IsEnabled(OwnService(target)), Call.SetEnabled(OwnService(target), true)]
  {
  }
}
