/**
 * Write of AppCenterCrashesTarget: an event carrying an exception is reported
 * with Crashes.TrackError; an event without one is reported, wrapped in a new
 * Exception holding its message, only when WrapExceptionFromLevel is set and
 * the event's level is at least that level. Each report carries the event's
 * properties and the log files found under the attachments directory.
 */
module CrashesTarget {
  import opened Wrappers
  import opened Logging
  import opened AppCenter
  import opened Properties
  import opened Attachments
  import opened Initialization

  /** The target's settings Write reads: WrapExceptionFromLevel and LogManagerFlushTimeout (in ticks). */
  datatype CrashesConfig = CrashesConfig(wrapExceptionFromLevel: Option<LogLevel>, logManagerFlushTimeout: Option<int>)

  /** Whether an event without an exception is at or above the wrapping level. */
  predicate WrapsMessage(event: LogEvent, wrap: Option<LogLevel>)
  {
    wrap.Some? && event.level.Ordinal() >= wrap.value.Ordinal()
  }

  /** The exception Write reports for an event, if it reports one. */
  function ErrorToTrack(event: LogEvent, wrap: Option<LogLevel>): (r: Option<Exception>)
    ensures event.exception.Some? ==> r == event.exception
    ensures event.exception.None? ==> (r.Some? <==> WrapsMessage(event, wrap))
    ensures r.Some? && event.exception.None? ==>
      r.value.message == event.message && r.value.fullTypeName == "System.Exception"
  {
    match event.exception
    case Some(e) => Some(e)
    case None => if WrapsMessage(event, wrap) then Some(WrapMessage(event.message)) else None
  }

  /** The calls Write makes: at most one TrackError. */
  function WriteCalls(config: CrashesConfig, env: Environment, event: LogEvent, rendering: Rendering): seq<Call>
  {
    match ErrorToTrack(event, config.wrapExceptionFromLevel)
    case None => []
    case Some(e) =>
      [Call.TrackError(e, PropertiesFor(rendering),
                       ErrorAttachments(env, rendering.attachmentsDirectory, rendering.attachmentsFilePattern))]
  }

  method Write(sdk: Sdk, config: CrashesConfig, env: Environment, event: LogEvent, rendering: Rendering)
    modifies sdk`calls
    ensures sdk.calls == old(sdk.calls) + WriteCalls(config, env, event, rendering)
  {
    if event.exception.Some? {
      TrackError(sdk, config, env, rendering, event.exception.value);
    } else if config.wrapExceptionFromLevel.Some? && event.level.Ordinal() >= config.wrapExceptionFromLevel.value.Ordinal() {
      var exception := WrapMessage(event.message);
      TrackError(sdk, config, env, rendering, exception);
    }
  }

  /** Collect the attachments, build the properties and report the exception with them. */
  method TrackError(sdk: Sdk, config: CrashesConfig, env: Environment, rendering: Rendering, exception: Exception)
    modifies sdk`calls
    ensures sdk.calls == old(sdk.calls)
      + [Call.TrackError(exception, PropertiesFor(rendering),
                         ErrorAttachments(env, rendering.attachmentsDirectory, rendering.attachmentsFilePattern))]
  {
    var attachments, _, _ := GetErrorAttachmentsFromLogFiles(env, rendering.attachmentsDirectory,
                                                            rendering.attachmentsFilePattern, config.logManagerFlushTimeout);
    var properties := BuildProperties(rendering);
    sdk.Record(Call.TrackError(exception, properties, attachments));
  }

  /**
   * Write reports at most one error, and only through TrackError: the
   * event's own exception whenever it has one, otherwise its message wrapped
   * exactly when the level reaches WrapExceptionFromLevel. The report carries
   * one attachment per file found.
   */
  lemma WriteCallsShape(config: CrashesConfig, env: Environment, event: LogEvent, rendering: Rendering)
    ensures var calls := WriteCalls(config, env, event, rendering);
      && |calls| <= 1
      && (calls != [] <==> event.exception.Some? || WrapsMessage(event, config.wrapExceptionFromLevel))
      && (forall c :: c in calls ==> c.Kind() == Tracking && c.TrackError?)
      && (event.exception.Some? ==> calls[0].exception == event.exception.value)
      && (event.exception.None? && calls != [] ==> calls[0].exception == WrapMessage(event.message))
      && (calls != [] ==>
            && calls[0].properties == PropertiesFor(rendering)
            && |calls[0].attachments| == |FilesToAttach(env, rendering.attachmentsDirectory, rendering.attachmentsFilePattern)|)
  {
  }

  /** Raising an event's level never stops its message from being wrapped. */
  lemma {:induction false} WrapIsMonotone(event: LogEvent, wrap: Option<LogLevel>, level: LogLevel)
    requires ErrorToTrack(event, wrap).Some?
    requires level.Ordinal() >= event.level.Ordinal()
    ensures ErrorToTrack(event.(level := level), wrap).Some?
  {
    if event.exception.None? {
      assert WrapsMessage(event, wrap);
      assert WrapsMessage(event.(level := level), wrap);
    }
  }

  /** With WrapExceptionFromLevel unset, only events carrying an exception are reported. */
  lemma NoWrapLevelNoWrapping(env: Environment, event: LogEvent, rendering: Rendering, flushTimeout: Option<int>)
    ensures WriteCalls(CrashesConfig(None, flushTimeout), env, event, rendering) != [] <==> event.exception.Some?
  {
  }

  /**
   * An Error event carrying an exception, written to a target with no app
   * secret, no context properties and no attachments directory, on an
   * unconfigured SDK whose Crashes service is disabled: the SDK sees the
   * Configured read, IsEnabled, SetEnabled(true) and TrackError of that
   * exception with no properties and no attachments.
   */
  lemma TrackErrorWithoutProperties(services: seq<ServiceType>, env: Environment, e: Exception)
    ensures var settings := InitSettings("", [], "", "", "", "");
      var event := LogEvent(Error, "Test message", Some(e));
      var rendering := Rendering("Test message", false, [], [], "", "");
      InitCalls(Initialization.CrashesTarget, settings, services, false, {}, {})
        + WriteCalls(CrashesConfig(None, None), env, event, rendering)
      == [ReadConfigured, Call.IsEnabled(Crashes), Call.SetEnabled(Crashes, true), Call.TrackError(e, [], [])]
  {
    InitWithoutSecret(Initialization.CrashesTarget, services);
  }

  /**
   * As above, with context properties exception.Type and exception.Message
   * rendering the exception's full type name and message: the report carries
   * exactly those two entries.
   */
  lemma TrackErrorWithProperties(env: Environment, e: Exception)
    requires e.fullTypeName != [] && e.message != []
    ensures var event := LogEvent(Error, "Test message", Some(e));
      var rendering := Rendering("Test message", false, [],
        [ContextProperty("exception.Type", e.fullTypeName, false), ContextProperty("exception.Message", e.message, false)], "", "");
      WriteCalls(CrashesConfig(None, None), env, event, rendering)
      == [Call.TrackError(e, [Entry("exception.Type", e.fullTypeName), Entry("exception.Message", e.message)], [])]
  {
    TwoPropertiesTwoEntries(e.fullTypeName, e.message);
  }
}
