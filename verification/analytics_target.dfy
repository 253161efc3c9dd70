/**
 * Write of AppCenterAnalyticsTarget: unless TrackOnlyIfMessageStartsWith is
 * set and the event's message does not start with it (ignoring case), the
 * event is reported with Analytics.TrackEvent under the rendered Layout, or,
 * when that is blank, under the exception's type name or the target's name.
 */
module AnalyticsTarget {
  import opened Wrappers
  import opened Text
  import opened Logging
  import opened AppCenter
  import opened Properties
  import opened Initialization

  /** The target's TrackOnlyIfMessageStartsWith setting. */
  datatype AnalyticsConfig = AnalyticsConfig(trackOnlyIfMessageStartsWith: Option<string>)

  /** Whether Write reports the event. */
  predicate ShouldTrack(config: AnalyticsConfig, event: LogEvent)
  {
    match config.trackOnlyIfMessageStartsWith
    case None => true
    case Some(prefix) => StartsWithIgnoreCase(event.message, prefix)
  }

  /** The name used when the rendered Layout is blank and there is no exception. */
  const FallbackName: string := "AppCenterAnalyticsTarget"

  /** The event name: the rendered Layout unless it is blank, else the exception's type name, else the target's name. */
  function EventName(rendered: string, exception: Option<Exception>): (name: string)
    ensures !IsNullOrWhiteSpace(rendered) ==> name == rendered
    ensures IsNullOrWhiteSpace(rendered) && exception.Some? ==> name == exception.value.typeName
    ensures IsNullOrWhiteSpace(rendered) && exception.None? ==> name == FallbackName
    ensures exception.None? || !IsNullOrWhiteSpace(exception.value.typeName) ==> !IsNullOrWhiteSpace(name)
  {
    assert !IsWhiteSpace(FallbackName[0]);
    if !IsNullOrWhiteSpace(rendered) then rendered
    else match exception
      case Some(e) => e.typeName
      case None => FallbackName
  }

  /** The calls Write makes: at most one TrackEvent. */
  function WriteCalls(config: AnalyticsConfig, event: LogEvent, rendering: Rendering): seq<Call>
  {
    if ShouldTrack(config, event) then [Call.TrackEvent(EventName(rendering.layout, event.exception), PropertiesFor(rendering))]
    else []
  }

  method Write(sdk: Sdk, config: AnalyticsConfig, event: LogEvent, rendering: Rendering)
    modifies sdk`calls
    ensures sdk.calls == old(sdk.calls) + WriteCalls(config, event, rendering)
  {
    if config.trackOnlyIfMessageStartsWith.None? || StartsWithIgnoreCase(event.message, config.trackOnlyIfMessageStartsWith.value) {
      var message := rendering.layout;
      if IsNullOrWhiteSpace(message) {
        if event.exception.Some? {
          message := event.exception.value.typeName;
        } else {
          message := FallbackName;
        }
      }
      var properties := BuildProperties(rendering);
      sdk.Record(Call.TrackEvent(message, properties));
    }
  }

  /**
   * Write reports at most one event, through TrackEvent, exactly when the
   * prefix filter lets the message through; its name is never blank when
   * the exception's type name is not, and it carries the event's properties.
   */
  lemma WriteCallsShape(config: AnalyticsConfig, event: LogEvent, rendering: Rendering)
    ensures var calls := WriteCalls(config, event, rendering);
      && |calls| <= 1
      && (calls != [] <==> ShouldTrack(config, event))
      && (forall c :: c in calls ==> c.Kind() == Tracking && c.TrackEvent?)
      && (calls != [] ==> calls[0].properties == PropertiesFor(rendering))
      && (calls != [] && (event.exception.None? || !IsNullOrWhiteSpace(event.exception.value.typeName)) ==>
            !IsNullOrWhiteSpace(calls[0].name))
  {
  }

  /** The prefix filter ignores case: two prefixes equal ignoring case admit the same events. */
  lemma PrefixIgnoresCase(event: LogEvent, p: string, q: string)
    requires EqualsIgnoreCase(p, q)
    ensures ShouldTrack(AnalyticsConfig(Some(p)), event) <==> ShouldTrack(AnalyticsConfig(Some(q)), event)
  {
    StartsWithIgnoreCaseRespectsCase(event.message, p, q);
  }

  /** A message made of the prefix, in any case, followed by anything is tracked. */
  lemma PrefixedMessageIsTracked(event: LogEvent, prefix: string, head: string, rest: string)
    requires EqualsIgnoreCase(head, prefix)
    requires event.message == head + rest
    ensures ShouldTrack(AnalyticsConfig(Some(prefix)), event)
  {
    StartsWithIgnoreCaseOfConcat(head, prefix, rest);
  }

  /** A message shorter than the prefix is never tracked. */
  lemma ShortMessageIsFiltered(event: LogEvent, prefix: string)
    requires |event.message| < |prefix|
    ensures !ShouldTrack(AnalyticsConfig(Some(prefix)), event)
  {
  }

  /**
   * An Info event "Test message" without exception or properties, written to
   * a target with no app secret on an unconfigured SDK whose Analytics
   * service is disabled: the SDK sees the Configured read, IsEnabled,
   * SetEnabled(true) and TrackEvent("Test message") with no properties.
   */
  lemma TrackEventWithoutProperties(services: seq<ServiceType>)
    ensures var settings := InitSettings("", [], "", "", "", "");
      var event := LogEvent(Info, "Test message", None);
      var rendering := Rendering("Test message", false, [], [], "", "");
      InitCalls(Initialization.AnalyticsTarget, settings, services, false, {}, {})
        + WriteCalls(AnalyticsConfig(None), event, rendering)
      == [ReadConfigured, Call.IsEnabled(Analytics), Call.SetEnabled(Analytics, true), Call.TrackEvent("Test message", [])]
  {
    InitWithoutSecret(Initialization.AnalyticsTarget, services);
    assert !IsWhiteSpace("Test message"[0]);
  }
}
