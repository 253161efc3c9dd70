/**
 * What the host logging framework hands to a target: log levels, the event,
 * its exception, and the framework's renderings of the target's layouts for
 * that event. Layout rendering belongs to the framework; the model takes its
 * results as values.
 */
module Logging {
  import opened Wrappers

  /** NLog's levels in their order; Off is above every level an event can have. */
  datatype LogLevel = Trace | Debug | Info | Warn | Error | Fatal | Off
  {
    function Ordinal(): nat
    {
      match this
      case Trace => 0
      case Debug => 1
      case Info => 2
      case Warn => 3
      case Error => 4
      case Fatal => 5
      case Off => 6
    }
  }

  /**
   * A .NET exception: GetType().Name, GetType().FullName and Message.
   * Its ToString is modelled by Describe, without a stack trace: the full
   * type name, then ": " and the message unless the message is empty.
   */
  datatype Exception = Exception(typeName: string, fullTypeName: string, message: string)

  function Describe(e: Exception): string
  {
    e.fullTypeName + MessageSuffix(e.message)
  }

  /** What ToString puts after the type name: ": " and the message, or nothing when the message is empty. */
  function MessageSuffix(message: string): string
  {
    if |message| == 0 then "" else ": " + message
  }

  /** new Exception(message). */
  function WrapMessage(message: string): Exception
  {
    Exception("Exception", "System.Exception", message)
  }

  /** One log event: its level, its raw message and the exception it carries, if any. */
  datatype LogEvent = LogEvent(level: LogLevel, message: string, exception: Option<Exception>)

  /** A name-value pair of a string dictionary. */
  datatype Entry = Entry(key: string, value: string)

  /**
   * One configured context property of a target (TargetPropertyWithContext):
   * its name, the rendering of its layout for the event at hand, and whether
   * an empty rendering is still to be included.
   */
  datatype ContextProperty = ContextProperty(name: string, value: string, includeEmptyValue: bool)

  /**
   * The framework's answers for one event and one target: the rendered Layout,
   * ShouldIncludeProperties and GetAllProperties (values already formatted),
   * the target's context properties with their renderings, and the rendered
   * attachment directory and file pattern (used by the crashes target only).
   */
  datatype Rendering = Rendering(
    layout: string,
    includeAllProperties: bool,
    allProperties: seq<Entry>,
    contextProperties: seq<ContextProperty>,
    attachmentsDirectory: string,
    attachmentsFilePattern: string)
}
