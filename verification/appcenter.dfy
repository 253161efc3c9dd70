/**
 * A stand-in for the vendor SDK: its state (configured or not, which
 * services are enabled), the failures it will raise, and the log of every
 * call a target makes on it, in order. The targets' behaviour is stated as
 * the calls they add to this log.
 */
module AppCenter {
  import opened Logging

  newtype byte = x | 0 <= x < 256

  /** The SDK services a target can ask to start. */
  datatype ServiceType = Analytics | Crashes | OtherService(fullName: string)

  /** ErrorAttachmentLog.AttachmentWithText and ErrorAttachmentLog.AttachmentWithBinary. */
  datatype Attachment =
    | TextAttachment(text: string, fileName: string)
    | BinaryAttachment(data: seq<byte>, fileName: string, contentType: string)
  {
    function FileName(): string
    {
      match this
      case TextAttachment(_, name) => name
      case BinaryAttachment(_, name, _) => name
    }
  }

  /** The SDK operations that can throw. */
  datatype Operation = StartOperation | IsEnabledOperation | SetEnabledOperation

  /** One call on the SDK. */
  datatype Call =
    | ReadConfigured
    | RegisterCrashesCallbacks
    | Start(appSecret: string, services: seq<ServiceType>)
    | IsEnabled(service: ServiceType)
    | SetEnabled(service: ServiceType, enabled: bool)
    | SetUserId(userId: string)
    | SetLogUrl(logUrl: string)
    | SetCountryCode(countryCode: string)
    | TrackError(exception: Exception, properties: seq<Entry>, attachments: seq<Attachment>)
    | TrackEvent(name: string, properties: seq<Entry>)
  {
    /** The part of the SDK a call addresses. */
    function Kind(): CallKind
    {
      match this
      case ReadConfigured => ConfigurationRead
      case RegisterCrashesCallbacks | Start(_, _) => Startup
      case IsEnabled(_) | SetEnabled(_, _) => ServiceSwitch
      case SetUserId(_) | SetLogUrl(_) | SetCountryCode(_) => Setting
      case TrackError(_, _, _) | TrackEvent(_, _) => Tracking
    }
  }

  datatype CallKind = ConfigurationRead | Startup | ServiceSwitch | Setting | Tracking

  /** The calls of one kind, in the order they were made. */
  function CallsOfKind(calls: seq<Call>, kind: CallKind): seq<Call>
  {
    if calls == [] then []
    else (if calls[0].Kind() == kind then [calls[0]] else []) + CallsOfKind(calls[1..], kind)
  }

  lemma {:induction false} CallsOfKindAppend(xs: seq<Call>, ys: seq<Call>, kind: CallKind)
    ensures CallsOfKind(xs + ys, kind) == CallsOfKind(xs, kind) + CallsOfKind(ys, kind)
  {
    if xs == [] {
      assert xs + ys == ys;
    } else {
      assert (xs + ys)[0] == xs[0];
      assert (xs + ys)[1..] == xs[1..] + ys;
      CallsOfKindAppend(xs[1..], ys, kind);
    }
  }

  /** Selecting a kind keeps calls that are all of that kind whole. */
  lemma {:induction false} CallsOfKindAll(calls: seq<Call>, kind: CallKind)
    requires forall c :: c in calls ==> c.Kind() == kind
    ensures CallsOfKind(calls, kind) == calls
  {
    if calls != [] {
      assert calls[0] in calls;
      assert forall c :: c in calls[1..] ==> c in calls;
      CallsOfKindAll(calls[1..], kind);
    }
  }

  /** Selecting a kind drops calls that are all of other kinds. */
  lemma {:induction false} CallsOfKindNone(calls: seq<Call>, kind: CallKind)
    requires forall c :: c in calls ==> c.Kind() != kind
    ensures CallsOfKind(calls, kind) == []
  {
    if calls != [] {
      assert calls[0] in calls;
      assert forall c :: c in calls[1..] ==> c in calls;
      CallsOfKindNone(calls[1..], kind);
    }
  }

  class Sdk {
    var configured: bool
    var enabled: set<ServiceType>
    const faults: set<Operation>
    var calls: seq<Call>

    constructor (configured: bool, enabled: set<ServiceType>, faults: set<Operation>)
      ensures this.configured == configured && this.enabled == enabled
      ensures this.faults == faults && calls == []
    {
      this.configured := configured;
      this.enabled := enabled;
      this.faults := faults;
      calls := [];
    }

    /** IAppCenter.Configured. */
    method Configured() returns (c: bool)
      modifies this`calls
      ensures c == configured
      ensures calls == old(calls) + [ReadConfigured]
    {
      c := configured;
      calls := calls + [ReadConfigured];
    }

    /** Crashes.ShouldProcessErrorReport, ShouldAwaitUserConfirmation and GetErrorAttachments assigned. */
    method RegisterCallbacks()
      modifies this`calls
      ensures calls == old(calls) + [RegisterCrashesCallbacks]
    {
      calls := calls + [RegisterCrashesCallbacks];
    }

    /** AppCenter.Start(appSecret, services); ok is false when it throws. */
    method Start(appSecret: string, services: seq<ServiceType>) returns (ok: bool)
      modifies this`calls, this`configured
      ensures ok == (StartOperation !in faults)
      ensures configured == (old(configured) || ok)
      ensures calls == old(calls) + [Call.Start(appSecret, services)]
    {
      ok := StartOperation !in faults;
      configured := configured || ok;
      calls := calls + [Call.Start(appSecret, services)];
    }

    /** IsEnabledAsync() of one service; ok is false when it throws. */
    method IsEnabled(service: ServiceType) returns (ok: bool, on: bool)
      modifies this`calls
      ensures ok == (IsEnabledOperation !in faults)
      ensures on == (service in enabled)
      ensures calls == old(calls) + [Call.IsEnabled(service)]
    {
      ok := IsEnabledOperation !in faults;
      on := service in enabled;
      calls := calls + [Call.IsEnabled(service)];
    }

    /** SetEnabledAsync(on) of one service; ok is false when it throws. */
    method SetEnabled(service: ServiceType, on: bool) returns (ok: bool)
      modifies this`calls, this`enabled
      ensures ok == (SetEnabledOperation !in faults)
      ensures enabled == if !ok then old(enabled) else if on then old(enabled) + {service} else old(enabled) - {service}
      ensures calls == old(calls) + [Call.SetEnabled(service, on)]
    {
      ok := SetEnabledOperation !in faults;
      if ok {
        enabled := if on then enabled + {service} else enabled - {service};
      }
      calls := calls + [Call.SetEnabled(service, on)];
    }

    /** AppCenter.SetUserId, SetLogUrl, SetCountryCode, Crashes.TrackError and Analytics.TrackEvent: recorded, no other effect. */
    method Record(call: Call)
      requires call.SetUserId? || call.SetLogUrl? || call.SetCountryCode? || call.TrackError? || call.TrackEvent?
      modifies this`calls
      ensures calls == old(calls) + [call]
    {
      calls := calls + [call];
    }
  }
}
