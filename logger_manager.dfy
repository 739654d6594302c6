/**
 * The logger registry and the per-name adapter it hands out. They share a
 * module because each refers to the other: the registry caches adapters, and
 * every adapter reads the registry's minimum level live on each call.
 *
 * Java's static state becomes an explicit holder object: LoggerManagerHolder
 * is the static `instance` field of LoggerManager with its getInstance().
 */
module LoggerManagement {
  import opened LogLevels
  import opened Slf4j

  /** A Java class object, reduced to what the facade reads from it: getName(). */
  datatype JavaClass = JavaClass(name: string)

  /**
   * Slf4jLoggerAdapter: the facade's Logger for one name. The pair (name,
   * backend) stands for the SLF4J logger obtained for that name.
   */
  class Slf4jLoggerAdapter {
    const name: string
    const backend: Backend
    const loggerManager: LoggerManager

    constructor (name: string, backend: Backend, loggerManager: LoggerManager)
      ensures this.name == name && this.backend == backend && this.loggerManager == loggerManager
    {
      this.name := name;
      this.backend := backend;
      this.loggerManager := loggerManager;
    }

    /** The double gate shared by the five isXEnabled() methods. */
    function IsLevelEnabled(level: LogLevel): bool
      reads loggerManager
    {
      IsEnabled(level, loggerManager.minimumLogLevel) && backend.enabledFor(name, level)
    }

    /**
     * What one emit call at `level` appends to the backend: a single record
     * of that level, carrying the message and payload unchanged, exactly when
     * both gates pass, and nothing otherwise.
     */
    function Emitted(level: LogLevel, message: string, payload: Payload): (r: seq<Record>)
      reads loggerManager
      ensures |r| <= 1
      ensures |r| == 1 <==> IsLevelEnabled(level)
      ensures forall rec :: rec in r ==>
        rec.logger == name && rec.level == level && rec.message == message && rec.payload == payload
    {
      if IsLevelEnabled(level) then [Record(name, level, message, payload)] else []
    }

    /** TRACE passes the facade gate only when the minimum is TRACE itself. */
    function IsTraceEnabled(): (r: bool)
      reads loggerManager
      ensures r <==> loggerManager.minimumLogLevel == TRACE && backend.enabledFor(name, TRACE)
    {
      IsLevelEnabled(TRACE)
    }

    function IsDebugEnabled(): (r: bool)
      reads loggerManager
      ensures r <==> loggerManager.minimumLogLevel in {TRACE, DEBUG} && backend.enabledFor(name, DEBUG)
    {
      IsLevelEnabled(DEBUG)
    }

    function IsInfoEnabled(): (r: bool)
      reads loggerManager
      ensures r <==> loggerManager.minimumLogLevel in {TRACE, DEBUG, INFO} && backend.enabledFor(name, INFO)
    {
      IsLevelEnabled(INFO)
    }

    function IsWarnEnabled(): (r: bool)
      reads loggerManager
      ensures r <==> loggerManager.minimumLogLevel != ERROR && backend.enabledFor(name, WARN)
    {
      IsLevelEnabled(WARN)
    }

    /** ERROR passes the facade gate under every minimum; only the backend can refuse it. */
    function IsErrorEnabled(): (r: bool)
      reads loggerManager
      ensures r <==> backend.enabledFor(name, ERROR)
    {
      IsLevelEnabled(ERROR)
    }

    method Trace(message: string)
      modifies backend
      ensures backend.records == old(backend.records) + Emitted(TRACE, message, NoArgs)
    {
      if IsTraceEnabled() {
        backend.Log(name, TRACE, message, NoArgs);
      }
    }

    method TraceArgs(message: string, args: seq<string>)
      modifies backend
      ensures backend.records == old(backend.records) + Emitted(TRACE, message, Args(args))
    {
      if IsTraceEnabled() {
        backend.Log(name, TRACE, message, Args(args));
      }
    }

    method Debug(message: string)
      modifies backend
      ensures backend.records == old(backend.records) + Emitted(DEBUG, message, NoArgs)
    {
      if IsDebugEnabled() {
        backend.Log(name, DEBUG, message, NoArgs);
      }
    }

    method DebugArgs(message: string, args: seq<string>)
      modifies backend
      ensures backend.records == old(backend.records) + Emitted(DEBUG, message, Args(args))
    {
      if IsDebugEnabled() {
        backend.Log(name, DEBUG, message, Args(args));
      }
    }

    method Info(message: string)
      modifies backend
      ensures backend.records == old(backend.records) + Emitted(INFO, message, NoArgs)
    {
      if IsInfoEnabled() {
        backend.Log(name, INFO, message, NoArgs);
      }
    }

    method InfoArgs(message: string, args: seq<string>)
      modifies backend
      ensures backend.records == old(backend.records) + Emitted(INFO, message, Args(args))
    {
      if IsInfoEnabled() {
        backend.Log(name, INFO, message, Args(args));
      }
    }

    method Warn(message: string)
      modifies backend
      ensures backend.records == old(backend.records) + Emitted(WARN, message, NoArgs)
    {
      if IsWarnEnabled() {
        backend.Log(name, WARN, message, NoArgs);
      }
    }

    method WarnArgs(message: string, args: seq<string>)
      modifies backend
      ensures backend.records == old(backend.records) + Emitted(WARN, message, Args(args))
    {
      if IsWarnEnabled() {
        backend.Log(name, WARN, message, Args(args));
      }
    }

    method WarnThrowable(message: string, throwable: Throwable)
      modifies backend
      ensures backend.records == old(backend.records) + Emitted(WARN, message, Thrown(throwable))
    {
      if IsWarnEnabled() {
        backend.Log(name, WARN, message, Thrown(throwable));
      }
    }

    method Error(message: string)
      modifies backend
      ensures backend.records == old(backend.records) + Emitted(ERROR, message, NoArgs)
    {
      if IsErrorEnabled() {
        backend.Log(name, ERROR, message, NoArgs);
      }
    }

    method ErrorArgs(message: string, args: seq<string>)
      modifies backend
      ensures backend.records == old(backend.records) + Emitted(ERROR, message, Args(args))
    {
      if IsErrorEnabled() {
        backend.Log(name, ERROR, message, Args(args));
      }
    }

    method ErrorThrowable(message: string, throwable: Throwable)
      modifies backend
      ensures backend.records == old(backend.records) + Emitted(ERROR, message, Thrown(throwable))
    {
      if IsErrorEnabled() {
        backend.Log(name, ERROR, message, Thrown(throwable));
      }
    }
  }

  /**
   * Raising the registry's minimum never enables, on an adapter already handed
   * out, a level that was disabled before.
   */
  twostate lemma RaisingMinimumNeverEnables(a: Slf4jLoggerAdapter, level: LogLevel)
    requires IsEnabled(a.loggerManager.minimumLogLevel, old(a.loggerManager.minimumLogLevel))
    ensures a.IsLevelEnabled(level) ==> old(a.IsLevelEnabled(level))
  {
    IsEnabledMonotone(level, old(a.loggerManager.minimumLogLevel), a.loggerManager.minimumLogLevel);
  }

  /**
   * LoggerManager: the registry of named loggers and the one shared minimum
   * level. Each cached adapter carries the name it is cached under and reads
   * this registry, so distinct cached names never share an adapter.
   */
  class LoggerManager {
    /** The SLF4J backend that org.slf4j.LoggerFactory.getLogger(name) binds new adapters to. */
    const backend: Backend
    var loggers: map<string, Slf4jLoggerAdapter>
    var minimumLogLevel: LogLevel

    ghost predicate Valid()
      reads this
    {
      forall n :: n in loggers ==>
        loggers[n].name == n && loggers[n].loggerManager == this && loggers[n].backend == backend
    }

    constructor (backend: Backend)
      ensures Valid() && this.backend == backend
      ensures loggers == map[] && minimumLogLevel == INFO
    {
      this.backend := backend;
      loggers := map[];
      minimumLogLevel := INFO;
    }

    /**
     * getLogger(name): the cached adapter for `name`, or a fresh one bound to
     * this registry, which is then cached. No other entry and not the
     * minimum level change.
     */
    method GetLogger(name: string) returns (r: Slf4jLoggerAdapter)
      requires Valid()
      modifies this`loggers
      ensures Valid()
      ensures r.name == name && r.loggerManager == this && r.backend == backend
      ensures name in old(loggers) ==> r == old(loggers)[name] && loggers == old(loggers)
      ensures name !in old(loggers) ==> fresh(r) && loggers == old(loggers)[name := r]
    {
      if name in loggers {
        r := loggers[name];
      } else {
        r := CreateLogger(name);
        loggers := loggers[name := r];
      }
    }

    /** getLogger(clazz): the logger cached under the class's name. */
    method GetLoggerForClass(clazz: JavaClass) returns (r: Slf4jLoggerAdapter)
      requires Valid()
      modifies this`loggers
      ensures Valid()
      ensures r.name == clazz.name && r.loggerManager == this && r.backend == backend
      ensures clazz.name in old(loggers) ==> r == old(loggers)[clazz.name] && loggers == old(loggers)
      ensures clazz.name !in old(loggers) ==> fresh(r) && loggers == old(loggers)[clazz.name := r]
    {
      r := GetLogger(clazz.name);
    }

    method SetMinimumLogLevel(level: LogLevel)
      requires Valid()
      modifies this`minimumLogLevel
      ensures Valid() && minimumLogLevel == level
    {
      minimumLogLevel := level;
    }

    method GetMinimumLogLevel() returns (level: LogLevel)
      ensures level == minimumLogLevel
    {
      level := minimumLogLevel;
    }

    /** createLogger(name): a new adapter for `name`, bound to this registry and its backend. */
    method CreateLogger(name: string) returns (r: Slf4jLoggerAdapter)
      ensures fresh(r)
      ensures r.name == name && r.loggerManager == this && r.backend == backend
    {
      r := new Slf4jLoggerAdapter(name, backend, this);
    }

    /** clearLoggers(): drops every cached adapter; the minimum level stays. */
    method ClearLoggers()
      modifies this`loggers
      ensures Valid() && loggers == map[]
    {
      loggers := map[];
    }
  }

  /** In a valid registry, distinct cached names hold distinct adapters. */
  lemma DistinctNamesDistinctLoggers(m: LoggerManager, x: string, y: string)
    requires m.Valid() && x in m.loggers && y in m.loggers && x != y
    ensures m.loggers[x] != m.loggers[y]
  {
  }

  /**
   * LoggerManager's static `instance` field and its getInstance(): the registry
   * is created on first use and the same one is returned ever after.
   */
  class LoggerManagerHolder {
    /** The process-wide SLF4J backend. */
    const backend: Backend
    var instance: LoggerManager?

    ghost predicate Valid()
      reads this, instance
    {
      instance != null ==> instance.backend == backend && instance.Valid()
    }

    /** The cache as callers of the static API see it: empty before the registry exists. */
    ghost function Cache(): map<string, Slf4jLoggerAdapter>
      reads this, instance
    {
      if instance == null then map[] else instance.loggers
    }

    /** The minimum level as callers see it: INFO, the registry's default, before it exists. */
    ghost function MinimumLogLevel(): LogLevel
      reads this, instance
    {
      if instance == null then INFO else instance.minimumLogLevel
    }

    constructor (backend: Backend)
      ensures Valid() && this.backend == backend && instance == null
    {
      this.backend := backend;
      instance := null;
    }

    method GetInstance() returns (m: LoggerManager)
      requires Valid()
      modifies this
      ensures Valid() && instance == m && m.backend == backend
      ensures old(instance) != null ==> m == old(instance)
      ensures old(instance) == null ==> fresh(m) && m.loggers == map[] && m.minimumLogLevel == INFO
      ensures Cache() == old(Cache()) && MinimumLogLevel() == old(MinimumLogLevel())
    {
      if instance == null {
        instance := new LoggerManager(backend);
      }
      m := instance;
    }
  }
}
