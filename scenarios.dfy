/**
 * Clients of the facade that replay the repository's logging tests: what a
 * caller can conclude from the contracts alone.
 */
module Scenarios {
  import opened LogLevels
  import opened Slf4j
  import opened LoggerManagement
  import opened DomainFactory
  import opened ModelFactory
  import opened LoggingConfiguration
  import HelperFactory

  const TestClass := JavaClass("co.com.pragma.logger.LoggerTest")
  const StringClass := JavaClass("java.lang.String")

  /** Two getInstance() calls give the same registry. */
  method SingletonScenario(holder: LoggerManagerHolder) returns (first: LoggerManager, second: LoggerManager)
    requires holder.Valid()
    modifies holder
    ensures first == second == holder.instance
  {
    first := holder.GetInstance();
    second := holder.GetInstance();
  }

  /**
   * After clearing the cache: the same class twice gives the same logger, a
   * different class a different one.
   */
  method CachedLoggerScenario(holder: LoggerManagerHolder)
    returns (logger1: Slf4jLoggerAdapter, logger2: Slf4jLoggerAdapter, logger3: Slf4jLoggerAdapter)
    requires holder.Valid()
    modifies holder, holder.instance
    ensures logger1 == logger3 && logger1 != logger2
  {
    var m := holder.GetInstance();
    m.ClearLoggers();
    logger1 := HelperFactory.GetLoggerForClass(holder, TestClass);
    logger2 := HelperFactory.GetLoggerForClass(holder, StringClass);
    logger3 := HelperFactory.GetLoggerForClass(holder, TestClass);
  }

  /** clearLoggers() makes the next request for a name return a new logger. */
  method ClearGivesFreshLogger(holder: LoggerManagerHolder, name: string)
    returns (before: Slf4jLoggerAdapter, after: Slf4jLoggerAdapter)
    requires holder.Valid()
    modifies holder, holder.instance
    ensures before != after && before.name == after.name == name
  {
    before := HelperFactory.GetLogger(holder, name);
    var m := holder.GetInstance();
    m.ClearLoggers();
    after := HelperFactory.GetLogger(holder, name);
  }

  /**
   * The minimum is read live: once it is set to WARN, a logger obtained
   * earlier reports TRACE, DEBUG and INFO disabled whatever its backend says,
   * while WARN and ERROR are left to the backend.
   */
  method LiveThresholdScenario(holder: LoggerManagerHolder, logger: Slf4jLoggerAdapter)
    requires holder.Valid() && logger.loggerManager == holder.instance
    modifies holder, holder.instance
    ensures holder.instance == logger.loggerManager
    ensures !logger.IsTraceEnabled() && !logger.IsDebugEnabled() && !logger.IsInfoEnabled()
    ensures logger.IsWarnEnabled() == logger.backend.enabledFor(logger.name, WARN)
    ensures logger.IsErrorEnabled() == logger.backend.enabledFor(logger.name, ERROR)
  {
    HelperFactory.SetMinimumLogLevel(holder, WARN);
  }

  /**
   * Emitting under the default minimum INFO with a backend that accepts every
   * level: DEBUG is dropped, INFO and ERROR produce one record each, and the
   * throwable reaches the backend unchanged.
   */
  method EmitScenario(failure: Throwable) returns (records: seq<Record>)
    ensures records == [
      Record("svc", INFO, "started", Args(["user"])),
      Record("svc", ERROR, "failed", Thrown(failure))]
  {
    var backend := new Backend((name: string, level: LogLevel) => true);
    var holder := new LoggerManagerHolder(backend);
    var logger := HelperFactory.GetLogger(holder, "svc");
    logger.Debug("ignored");
    logger.InfoArgs("started", ["user"]);
    logger.ErrorThrowable("failed", failure);
    records := backend.records;
  }

  /** Before any provider is installed, getLoggerFor fails with IllegalStateException. */
  method UninitialisedProviderScenario() returns (r: Result<Slf4jLoggerAdapter>)
    ensures r == Failure(IllegalStateException(NotInitializedMessage))
  {
    var slot := new LoggerFactorySlot();
    r := slot.GetLoggerFor("co.com.pragma.service.TestService");
  }

  /**
   * Start-up with the application level set to "debug": afterwards the
   * provider is installed, loggers can be requested through it, and the
   * minimum is DEBUG. Installing null afterwards empties the slot again.
   */
  method StartupScenario(backend: Backend)
    returns (minimum: LogLevel, installed: Result<DomainLoggerFactory>, reset: Result<DomainLoggerFactory>)
    ensures minimum == DEBUG
    ensures installed.Success? && reset.Failure?
  {
    var holder := new LoggerManagerHolder(backend);
    var slot := new LoggerFactorySlot();
    var config := new LoggingConfig(map[RootLevelKey := "INFO", ApplicationLevelKey := "debug"]);
    config.ConfigureLogging(holder, slot);
    installed := slot.GetInstance();
    ParseIgnoresCase("debug", DEBUG);
    minimum := installed.value.GetMinimumLogLevel();
    slot.SetInstance(null);
    reset := slot.GetInstance();
  }
}
