/**
 * The part of a log4j `LoggingEvent` that the layouts and the appender read.
 */
module Events {
  import opened Wrappers

  /** A log4j level: its printed name (`Level.toString`) and its numeric priority. */
  datatype Level = Level(name: string, priority: int)
  {
    /** `Priority.isGreaterOrEqual`. */
    predicate IsGreaterOrEqual(other: Level)
    {
      priority >= other.priority
    }
  }

  /**
   * What `getMessage()` returns, as far as org.json can tell: a value it accepts
   * (rendered as the text of the message), or a non-finite number, the one kind
   * of value `JSONObject.put` refuses with a `JSONException`.
   */
  datatype Message = Text(text: string) | NonFiniteNumber

  /** One `StackTraceElement`. */
  datatype StackFrame = StackFrame(className: string, methodName: string, lineNumber: int, fileName: string)

  /** The throwable carried by the event's `ThrowableInformation`. */
  datatype ThrowableInfo = ThrowableInfo(message: string, className: string, stackTrace: seq<StackFrame>)

  datatype LoggingEvent = LoggingEvent(
    threadName: string,
    level: Level,
    timeStamp: int,
    message: Message,
    loggerName: string,
    throwable: Option<ThrowableInfo>)
}
