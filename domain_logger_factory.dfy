/**
 * DomainLoggerFactory: the concrete provider the domain layer's factory slot
 * is given. It binds itself to the registry singleton when constructed and
 * forwards every call to that registry.
 */
module DomainFactory {
  import opened LogLevels
  import opened LoggerManagement

  class DomainLoggerFactory {
    const loggerManager: LoggerManager

    /** The constructor fetches (and if need be creates) the registry singleton. */
    constructor (holder: LoggerManagerHolder)
      requires holder.Valid()
      modifies holder
      ensures holder.Valid() && loggerManager == holder.instance
      ensures old(holder.instance) != null ==> loggerManager == old(holder.instance)
      ensures old(holder.instance) == null ==> fresh(loggerManager)
      ensures holder.Cache() == old(holder.Cache())
      ensures holder.MinimumLogLevel() == old(holder.MinimumLogLevel())
    {
      var m := holder.GetInstance();
      loggerManager := m;
    }

    method GetLoggerForClass(clazz: JavaClass) returns (r: Slf4jLoggerAdapter)
      requires loggerManager.Valid()
      modifies loggerManager`loggers
      ensures loggerManager.Valid()
      ensures r.name == clazz.name && r.loggerManager == loggerManager
      ensures clazz.name in old(loggerManager.loggers) ==>
        r == old(loggerManager.loggers)[clazz.name] && loggerManager.loggers == old(loggerManager.loggers)
      ensures clazz.name !in old(loggerManager.loggers) ==>
        fresh(r) && loggerManager.loggers == old(loggerManager.loggers)[clazz.name := r]
    {
      r := loggerManager.GetLoggerForClass(clazz);
    }

    method GetLogger(name: string) returns (r: Slf4jLoggerAdapter)
      requires loggerManager.Valid()
      modifies loggerManager`loggers
      ensures loggerManager.Valid()
      ensures r.name == name && r.loggerManager == loggerManager
      ensures name in old(loggerManager.loggers) ==>
        r == old(loggerManager.loggers)[name] && loggerManager.loggers == old(loggerManager.loggers)
      ensures name !in old(loggerManager.loggers) ==>
        fresh(r) && loggerManager.loggers == old(loggerManager.loggers)[name := r]
    {
      r := loggerManager.GetLogger(name);
    }

    method SetMinimumLogLevel(level: LogLevel)
      requires loggerManager.Valid()
      modifies loggerManager`minimumLogLevel
      ensures loggerManager.Valid() && loggerManager.minimumLogLevel == level
    {
      loggerManager.SetMinimumLogLevel(level);
    }

    method GetMinimumLogLevel() returns (level: LogLevel)
      ensures level == loggerManager.minimumLogLevel
    {
      level := loggerManager.GetMinimumLogLevel();
    }
  }
}
