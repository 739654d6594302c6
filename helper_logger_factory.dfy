/**
 * The infrastructure helpers' static LoggerFactory API: every call fetches the
 * registry singleton (creating it on first use) and forwards to it.
 */
module HelperFactory {
  import opened LogLevels
  import opened LoggerManagement

  /** getLogger(name): LoggerManager.getInstance().getLogger(name). */
  method GetLogger(holder: LoggerManagerHolder, name: string) returns (r: Slf4jLoggerAdapter)
    requires holder.Valid()
    modifies holder, holder.instance
    ensures holder.Valid() && holder.instance != null
    ensures old(holder.instance) != null ==> holder.instance == old(holder.instance)
    ensures r.name == name && r.loggerManager == holder.instance
    ensures name in old(holder.Cache()) ==> r == old(holder.Cache())[name] && holder.Cache() == old(holder.Cache())
    ensures name !in old(holder.Cache()) ==> fresh(r) && holder.Cache() == old(holder.Cache())[name := r]
    ensures holder.MinimumLogLevel() == old(holder.MinimumLogLevel())
  {
    var m := holder.GetInstance();
    r := m.GetLogger(name);
  }

  /** getLogger(clazz): LoggerManager.getInstance().getLogger(clazz). */
  method GetLoggerForClass(holder: LoggerManagerHolder, clazz: JavaClass) returns (r: Slf4jLoggerAdapter)
    requires holder.Valid()
    modifies holder, holder.instance
    ensures holder.Valid() && holder.instance != null
    ensures old(holder.instance) != null ==> holder.instance == old(holder.instance)
    ensures r.name == clazz.name && r.loggerManager == holder.instance
    ensures clazz.name in old(holder.Cache()) ==>
      r == old(holder.Cache())[clazz.name] && holder.Cache() == old(holder.Cache())
    ensures clazz.name !in old(holder.Cache()) ==>
      fresh(r) && holder.Cache() == old(holder.Cache())[clazz.name := r]
    ensures holder.MinimumLogLevel() == old(holder.MinimumLogLevel())
  {
    var m := holder.GetInstance();
    r := m.GetLoggerForClass(clazz);
  }

  /** setMinimumLogLevel(level): LoggerManager.getInstance().setMinimumLogLevel(level). */
  method SetMinimumLogLevel(holder: LoggerManagerHolder, level: LogLevel)
    requires holder.Valid()
    modifies holder, holder.instance
    ensures holder.Valid() && holder.instance != null
    ensures old(holder.instance) != null ==> holder.instance == old(holder.instance)
    ensures holder.MinimumLogLevel() == level
    ensures holder.Cache() == old(holder.Cache())
  {
    var m := holder.GetInstance();
    m.SetMinimumLogLevel(level);
  }

  /** getMinimumLogLevel(): LoggerManager.getInstance().getMinimumLogLevel(). */
  method GetMinimumLogLevel(holder: LoggerManagerHolder) returns (level: LogLevel)
    requires holder.Valid()
    modifies holder
    ensures holder.Valid() && holder.instance != null
    ensures old(holder.instance) != null ==> holder.instance == old(holder.instance)
    ensures level == old(holder.MinimumLogLevel())
    ensures holder.MinimumLogLevel() == level && holder.Cache() == old(holder.Cache())
  {
    var m := holder.GetInstance();
    level := m.GetMinimumLogLevel();
  }
}
