/**
 * The SLF4J backend the adapters write to, reduced to what the facade can
 * observe: whether the backend itself accepts a level for a named logger (its
 * own threshold configuration, fixed for the run) and the sequence of records
 * it has accepted. Message interpolation and appenders are not modelled.
 */
module Slf4j {
  import opened LogLevels

  /** A throwable handed to warn/error, reduced to its class name and message. */
  datatype Throwable = Throwable(className: string, message: string)

  /** What accompanies a message: nothing, positional arguments (in their printed form), or a throwable. */
  datatype Payload = NoArgs | Args(values: seq<string>) | Thrown(throwable: Throwable)

  /** One record accepted by the backend. */
  datatype Record = Record(logger: string, level: LogLevel, message: string, payload: Payload)

  class Backend {
    /** The backend's own per-logger, per-level enablement (isTraceEnabled() ... isErrorEnabled()). */
    const enabledFor: (string, LogLevel) -> bool
    /** Every record accepted so far, oldest first. */
    var records: seq<Record>

    constructor (enabledFor: (string, LogLevel) -> bool)
      ensures this.enabledFor == enabledFor && records == []
    {
      this.enabledFor := enabledFor;
      records := [];
    }

    /**
     * logger.trace/debug/info/warn/error(...): the backend checks its own
     * threshold again and accepts exactly one record when it passes.
     */
    method Log(logger: string, level: LogLevel, message: string, payload: Payload)
      modifies this
      ensures records == old(records) +
        (if enabledFor(logger, level) then [Record(logger, level, message, payload)] else [])
    {
      if enabledFor(logger, level) {
        records := records + [Record(logger, level, message, payload)];
      }
    }
  }
}
