# Logging facade of the users service, modelled in Dafny

The service's domain layer logs through its own small facade instead of
depending on SLF4J directly. This project models that facade and proves what
it promises:

- **LogLevel** (`log_level.dfy`, module `LogLevels`): five severities TRACE < DEBUG < INFO < WARN < ERROR
  with levels 0..4 and upper-case names. `isEnabled(minimum)` is a total order,
  monotone in the minimum, and the enum's `valueOf` inverts `getName`.
- **LoggerManager and Slf4jLoggerAdapter** (`logger_manager.dfy`, module `LoggerManagement`):
  - The registry is a class. It holds a `map` from name to adapter, used as a
    get-or-create cache, and one mutable minimum level that defaults to INFO.
  - `GetLogger` returns the cached adapter, or a `fresh` one that it then caches.
    It changes no other entry and never the level.
  - `ClearLoggers` empties the cache and keeps the level.
  - The `Valid` invariant says that each cached adapter carries its own name and
    points back at the registry. So distinct cached names never share an adapter.
    The "one logger per name" rule holds for the cache only: after `ClearLoggers`
    a name gets a new adapter while callers may still hold the old one.
  - Each adapter's five `isXEnabled` functions apply a double gate. The registry's
    minimum is read live on every call, and the backend has its own per-level
    enablement.
  - Each of the twelve emit methods appends at most one backend record. That
    record has the method's own level and carries the message and the arguments
    or throwable unchanged. The method appends it exactly when both gates pass.
- **The SLF4J backend** (`slf4j.dfy`, module `Slf4j`): an opaque per-(logger name, level)
  enablement function plus the sequence of records it accepted.
- **Static state**: Java's static fields become explicit holder objects that
  callers pass in.
  - `LoggerManagerHolder` is `LoggerManager.instance` together with `getInstance()`.
  - `LoggerFactorySlot` is the domain `LoggerFactory.instance` together with
    `setInstance`, `getInstance` and `getLoggerFor`. `getInstance` fails with
    `IllegalStateException` while the slot is empty. This failure is modelled
    as a `Result`.
- **Forwarders**: `DomainLoggerFactory` (`domain_logger_factory.dfy`) and the helpers' static
  `LoggerFactory` API (`helper_logger_factory.dfy`, module `HelperFactory`) forward to the registry.
  Their contracts carry the registry's cache and level guarantees through.
- **LoggingConfig** (`logging_config.dfy`, module `LoggingConfiguration`):
  - `parseLogLevel` upper-cases its input and looks the result up. When no
    level has that name it falls back to INFO. The model proves that parsing
    ignores case and that every level's name parses back to that level.
  - `configureLogging` installs a fresh provider bound to the registry and sets
    the minimum to the parsed application level. It does not consult the root level.
- **Scenarios** (`scenarios.dfy`): clients that replay the repository's logger tests from the
  contracts alone. They cover the singleton identity, cached and distinct loggers,
  a fresh logger after a clear, the live threshold, emission, the uninitialised
  provider and start-up.

## Model

| member | source | states |
|---|---|---|
| `LogLevels.Level` | domain/model/src/main/java/co/com/pragma/model/common/LogLevel.java:8-24 | each constant's level is its position in declaration order (0..4) |
| `LogLevels.Name` | domain/model/src/main/java/co/com/pragma/model/common/LogLevel.java:8-28 | getName() is a non-empty string of upper-case ASCII letters |
| `LogLevels.IsEnabled` | domain/model/src/main/java/co/com/pragma/model/common/LogLevel.java:35-37 | a level passes a minimum exactly when it is declared at or after that minimum |
| `LogLevels.ValueOf` | domain/model/src/main/java/co/com/pragma/model/common/LogLevel.java:7-12 | valueOf returns the constant whose name is the string, and fails (None) exactly when no constant has that name |
| `LogLevels.LevelsStrictlyIncrease` | domain/model/src/main/java/co/com/pragma/model/common/LogLevel.java:8-12 | levels strictly increase along declaration order |
| `LogLevels.LevelInjective` | domain/model/src/main/java/co/com/pragma/model/common/LogLevel.java:8-12 | distinct constants have distinct levels |
| `LogLevels.IsEnabledReflexive` | domain/model/src/main/java/co/com/pragma/model/common/LogLevel.java:35-37 | every level is enabled under itself |
| `LogLevels.IsEnabledAntisymmetric` | domain/model/src/main/java/co/com/pragma/model/common/LogLevel.java:35-37 | two levels each enabled under the other are equal |
| `LogLevels.IsEnabledTotal` | domain/model/src/main/java/co/com/pragma/model/common/LogLevel.java:35-37 | any two levels are comparable |
| `LogLevels.IsEnabledMonotone` | domain/model/src/main/java/co/com/pragma/model/common/LogLevel.java:35-37 | enabled under a higher minimum implies enabled under a lower one, so raising the minimum never enables a level |
| `LogLevels.EnabledUnderInfo` | infrastructure/helpers/src/test/java/co/com/pragma/logger/LoggerTest.java:68-74 | under INFO, ERROR/WARN/INFO pass and DEBUG/TRACE do not |
| `LogLevels.ErrorAlwaysEnabled` | domain/model/src/main/java/co/com/pragma/model/common/LogLevel.java:8-37 | ERROR passes every minimum |
| `LogLevels.TraceOnlyUnderTrace` | domain/model/src/main/java/co/com/pragma/model/common/LogLevel.java:8-37 | TRACE passes exactly when the minimum is TRACE |
| `LogLevels.NameInjective` | domain/model/src/main/java/co/com/pragma/model/common/LogLevel.java:8-28 | names identify constants |
| `LogLevels.ValueOfName` | domain/model/src/main/java/co/com/pragma/model/common/LogLevel.java:8-28 | valueOf(getName(l)) is l |
| `Slf4j.Backend.Log` | infrastructure/helpers/src/main/java/co/com/pragma/logger/Slf4jLoggerAdapter.java:23-23 | the backend accepts one record exactly when its own threshold admits the level |
| `LoggerManagement.Slf4jLoggerAdapter.constructor` | infrastructure/helpers/src/main/java/co/com/pragma/logger/Slf4jLoggerAdapter.java:15-18 | the adapter is bound to its SLF4J logger and to the registry |
| `LoggerManagement.Slf4jLoggerAdapter.Emitted` | infrastructure/helpers/src/main/java/co/com/pragma/logger/Slf4jLoggerAdapter.java:20-102 | one emit call yields at most one record, exactly one iff both gates pass, of the call's own level, message and payload |
| `LoggerManagement.Slf4jLoggerAdapter.IsTraceEnabled` | infrastructure/helpers/src/main/java/co/com/pragma/logger/Slf4jLoggerAdapter.java:104-107 | true iff the live minimum is TRACE and the backend enables TRACE |
| `LoggerManagement.Slf4jLoggerAdapter.IsDebugEnabled` | infrastructure/helpers/src/main/java/co/com/pragma/logger/Slf4jLoggerAdapter.java:109-112 | true iff the live minimum is TRACE or DEBUG and the backend enables DEBUG |
| `LoggerManagement.Slf4jLoggerAdapter.IsInfoEnabled` | infrastructure/helpers/src/main/java/co/com/pragma/logger/Slf4jLoggerAdapter.java:114-117 | true iff the live minimum is at most INFO and the backend enables INFO |
| `LoggerManagement.Slf4jLoggerAdapter.IsWarnEnabled` | infrastructure/helpers/src/main/java/co/com/pragma/logger/Slf4jLoggerAdapter.java:119-122 | true iff the live minimum is not ERROR and the backend enables WARN |
| `LoggerManagement.Slf4jLoggerAdapter.IsErrorEnabled` | infrastructure/helpers/src/main/java/co/com/pragma/logger/Slf4jLoggerAdapter.java:124-127 | true iff the backend enables ERROR, whatever the minimum |
| `LoggerManagement.Slf4jLoggerAdapter.Trace` | infrastructure/helpers/src/main/java/co/com/pragma/logger/Slf4jLoggerAdapter.java:20-25 | appends one TRACE record with the message iff TRACE is enabled; only the backend changes |
| `LoggerManagement.Slf4jLoggerAdapter.TraceArgs` | infrastructure/helpers/src/main/java/co/com/pragma/logger/Slf4jLoggerAdapter.java:27-32 | appends one TRACE record with message and arguments iff TRACE is enabled |
| `LoggerManagement.Slf4jLoggerAdapter.Debug` | infrastructure/helpers/src/main/java/co/com/pragma/logger/Slf4jLoggerAdapter.java:34-39 | appends one DEBUG record iff DEBUG is enabled |
| `LoggerManagement.Slf4jLoggerAdapter.DebugArgs` | infrastructure/helpers/src/main/java/co/com/pragma/logger/Slf4jLoggerAdapter.java:41-46 | appends one DEBUG record with the arguments iff DEBUG is enabled |
| `LoggerManagement.Slf4jLoggerAdapter.Info` | infrastructure/helpers/src/main/java/co/com/pragma/logger/Slf4jLoggerAdapter.java:48-53 | appends one INFO record iff INFO is enabled |
| `LoggerManagement.Slf4jLoggerAdapter.InfoArgs` | infrastructure/helpers/src/main/java/co/com/pragma/logger/Slf4jLoggerAdapter.java:55-60 | appends one INFO record with the arguments iff INFO is enabled |
| `LoggerManagement.Slf4jLoggerAdapter.Warn` | infrastructure/helpers/src/main/java/co/com/pragma/logger/Slf4jLoggerAdapter.java:62-67 | appends one WARN record iff WARN is enabled |
| `LoggerManagement.Slf4jLoggerAdapter.WarnArgs` | infrastructure/helpers/src/main/java/co/com/pragma/logger/Slf4jLoggerAdapter.java:69-74 | appends one WARN record with the arguments iff WARN is enabled |
| `LoggerManagement.Slf4jLoggerAdapter.WarnThrowable` | infrastructure/helpers/src/main/java/co/com/pragma/logger/Slf4jLoggerAdapter.java:76-81 | appends one WARN record carrying the throwable unchanged iff WARN is enabled |
| `LoggerManagement.Slf4jLoggerAdapter.Error` | infrastructure/helpers/src/main/java/co/com/pragma/logger/Slf4jLoggerAdapter.java:83-88 | appends one ERROR record iff ERROR is enabled |
| `LoggerManagement.Slf4jLoggerAdapter.ErrorArgs` | infrastructure/helpers/src/main/java/co/com/pragma/logger/Slf4jLoggerAdapter.java:90-95 | appends one ERROR record with the arguments iff ERROR is enabled |
| `LoggerManagement.Slf4jLoggerAdapter.ErrorThrowable` | infrastructure/helpers/src/main/java/co/com/pragma/logger/Slf4jLoggerAdapter.java:97-102 | appends one ERROR record carrying the throwable unchanged iff ERROR is enabled |
| `LoggerManagement.RaisingMinimumNeverEnables` | infrastructure/helpers/src/main/java/co/com/pragma/logger/Slf4jLoggerAdapter.java:104-127 | after the registry's minimum is raised, no level of an existing adapter goes from disabled to enabled |
| `LoggerManagement.LoggerManager.constructor` | infrastructure/helpers/src/main/java/co/com/pragma/logger/LoggerManager.java:21-24 | a new registry has an empty cache and minimum INFO |
| `LoggerManagement.LoggerManager.GetLogger` | infrastructure/helpers/src/main/java/co/com/pragma/logger/LoggerManager.java:55-57 | a cache hit returns the cached adapter and changes nothing; a miss returns a fresh adapter for the name, bound to this registry, and adds exactly that entry |
| `LoggerManagement.LoggerManager.GetLoggerForClass` | infrastructure/helpers/src/main/java/co/com/pragma/logger/LoggerManager.java:46-48 | behaves as GetLogger on the class's name |
| `LoggerManagement.LoggerManager.SetMinimumLogLevel` | infrastructure/helpers/src/main/java/co/com/pragma/logger/LoggerManager.java:63-65 | the minimum becomes the given level; the cache is untouched |
| `LoggerManagement.LoggerManager.GetMinimumLogLevel` | infrastructure/helpers/src/main/java/co/com/pragma/logger/LoggerManager.java:71-73 | returns the current minimum, so a set followed by a get returns the level set |
| `LoggerManagement.LoggerManager.CreateLogger` | infrastructure/helpers/src/main/java/co/com/pragma/logger/LoggerManager.java:80-82 | a new adapter for the name, bound to this registry and its backend |
| `LoggerManagement.LoggerManager.ClearLoggers` | infrastructure/helpers/src/main/java/co/com/pragma/logger/LoggerManager.java:87-89 | the cache becomes empty; the minimum is untouched |
| `LoggerManagement.DistinctNamesDistinctLoggers` | infrastructure/helpers/src/main/java/co/com/pragma/logger/LoggerManager.java:55-82 | distinct cached names never share an adapter |
| `LoggerManagement.LoggerManagerHolder.constructor` | infrastructure/helpers/src/main/java/co/com/pragma/logger/LoggerManager.java:17-17 | no registry exists before first use |
| `LoggerManagement.LoggerManagerHolder.GetInstance` | infrastructure/helpers/src/main/java/co/com/pragma/logger/LoggerManager.java:30-39 | the first call creates a fresh registry (empty cache, INFO); every later call returns that same registry; cache and level are unchanged |
| `DomainFactory.DomainLoggerFactory.constructor` | infrastructure/helpers/src/main/java/co/com/pragma/logger/DomainLoggerFactory.java:15-17 | the provider is bound to the registry singleton |
| `DomainFactory.DomainLoggerFactory.GetLoggerForClass` | infrastructure/helpers/src/main/java/co/com/pragma/logger/DomainLoggerFactory.java:19-22 | same cache behaviour as the registry's getLogger(clazz) |
| `DomainFactory.DomainLoggerFactory.GetLogger` | infrastructure/helpers/src/main/java/co/com/pragma/logger/DomainLoggerFactory.java:24-27 | same cache behaviour as the registry's getLogger(name) |
| `DomainFactory.DomainLoggerFactory.SetMinimumLogLevel` | infrastructure/helpers/src/main/java/co/com/pragma/logger/DomainLoggerFactory.java:29-32 | sets the bound registry's minimum |
| `DomainFactory.DomainLoggerFactory.GetMinimumLogLevel` | infrastructure/helpers/src/main/java/co/com/pragma/logger/DomainLoggerFactory.java:34-37 | returns the bound registry's minimum |
| `ModelFactory.LoggerFactorySlot.constructor` | domain/model/src/main/java/co/com/pragma/model/common/LoggerFactory.java:10-10 | the slot starts empty |
| `ModelFactory.LoggerFactorySlot.SetInstance` | domain/model/src/main/java/co/com/pragma/model/common/LoggerFactory.java:16-18 | the last call wins; null empties the slot |
| `ModelFactory.LoggerFactorySlot.GetInstance` | domain/model/src/main/java/co/com/pragma/model/common/LoggerFactory.java:24-29 | fails with IllegalStateException iff the slot is empty, otherwise returns the installed provider |
| `ModelFactory.LoggerFactorySlot.GetLoggerFor` | domain/model/src/main/java/co/com/pragma/model/common/LoggerFactory.java:71-73 | fails iff the slot is empty; otherwise the provider's registry cache behaviour for the name, with the minimum level unchanged |
| `ModelFactory.LoggerFactorySlot.GetLoggerForClass` | domain/model/src/main/java/co/com/pragma/model/common/LoggerFactory.java:62-64 | fails iff the slot is empty; otherwise the provider's cache behaviour for the class's name, with the minimum level unchanged |
| `HelperFactory.GetLogger` | infrastructure/helpers/src/main/java/co/com/pragma/logger/LoggerFactory.java:30-32 | the singleton registry's cache behaviour for the name; the level is untouched |
| `HelperFactory.GetLoggerForClass` | infrastructure/helpers/src/main/java/co/com/pragma/logger/LoggerFactory.java:21-23 | the singleton registry's cache behaviour for the class's name |
| `HelperFactory.SetMinimumLogLevel` | infrastructure/helpers/src/main/java/co/com/pragma/logger/LoggerFactory.java:38-40 | the singleton's minimum becomes the level; the cache is untouched |
| `HelperFactory.GetMinimumLogLevel` | infrastructure/helpers/src/main/java/co/com/pragma/logger/LoggerFactory.java:46-48 | returns the singleton's minimum (INFO if it did not exist yet) |
| `LoggingConfiguration.ToUpperCase` | applications/app-service/src/main/java/co/com/pragma/config/LoggingConfig.java:55-55 | same length, each character upper-cased |
| `LoggingConfiguration.ParseLogLevel` | applications/app-service/src/main/java/co/com/pragma/config/LoggingConfig.java:53-60 | the level named by the upper-cased string when there is one, INFO when there is none |
| `LoggingConfiguration.UpperCaseKeepsUpper` | applications/app-service/src/main/java/co/com/pragma/config/LoggingConfig.java:55-55 | upper-casing fixes strings with no lower-case letters |
| `LoggingConfiguration.ParseRoundTrip` | applications/app-service/src/main/java/co/com/pragma/config/LoggingConfig.java:55-55 | parseLogLevel(getName(l)) is l for every level |
| `LoggingConfiguration.ParseIgnoresCase` | applications/app-service/src/main/java/co/com/pragma/config/LoggingConfig.java:55-55 | every casing of a level's name parses to that level |
| `LoggingConfiguration.ParseWarnSpellings` | applications/app-service/src/main/java/co/com/pragma/config/LoggingConfig.java:55-55 | "warn", "Warn" and "WARN" all give WARN |
| `LoggingConfiguration.ParseUnknownIsInfo` | applications/app-service/src/main/java/co/com/pragma/config/LoggingConfig.java:56-59 | the empty string and "verbose" give INFO |
| `LoggingConfiguration.LoggingConfig.constructor` | applications/app-service/src/main/java/co/com/pragma/config/LoggingConfig.java:20-24 | each level property is its configured value, or "INFO" when unset |
| `LoggingConfiguration.LoggingConfig.ConfigureLogging` | applications/app-service/src/main/java/co/com/pragma/config/LoggingConfig.java:30-37 | afterwards a fresh provider bound to the singleton is installed, the minimum is the parsed application level, the cache is unchanged |
| `LoggingConfiguration.LoggingConfig.LoggerManagerBean` | applications/app-service/src/main/java/co/com/pragma/config/LoggingConfig.java:43-46 | the bean is the registry singleton: created fresh (empty cache, INFO) on first use, the same registry afterwards; cache and level unchanged |
| `Scenarios.SingletonScenario` | infrastructure/helpers/src/test/java/co/com/pragma/logger/LoggerTest.java:28-33 | two getInstance() calls give the same registry |
| `Scenarios.CachedLoggerScenario` | infrastructure/helpers/src/test/java/co/com/pragma/logger/LoggerTest.java:37-45 | after a clear, the same class gives the same logger and another class a different one |
| `Scenarios.ClearGivesFreshLogger` | infrastructure/helpers/src/main/java/co/com/pragma/logger/LoggerManager.java:55-89 | after clearLoggers a name gets a new logger |
| `Scenarios.LiveThresholdScenario` | infrastructure/helpers/src/test/java/co/com/pragma/logger/LoggerTest.java:50-57 | after the minimum is set to WARN an existing logger reports TRACE, DEBUG, INFO disabled |
| `Scenarios.EmitScenario` | infrastructure/helpers/src/main/java/co/com/pragma/logger/Slf4jLoggerAdapter.java:34-102 | under INFO, debug is dropped and info/error each record once, with arguments and throwable intact |
| `Scenarios.UninitialisedProviderScenario` | domain/model/src/main/java/co/com/pragma/model/common/LoggerFactory.java:24-73 | getLoggerFor before setInstance fails with IllegalStateException |
| `Scenarios.StartupScenario` | applications/app-service/src/main/java/co/com/pragma/config/LoggingConfig.java:30-37 | after start-up with level "debug" the provider is installed and the minimum is DEBUG; setInstance(null) makes getInstance fail again |

## Left out

- Concurrency: the double-checked locking in `LoggerManager.getInstance`, the atomicity of
  `ConcurrentHashMap.computeIfAbsent` and `volatile` visibility. The model is sequential.
  "At most one cached logger per name" is what the cache, a map, gives. `Valid` adds that
  distinct cached names hold distinct adapters.
- SLF4J internals: `{}` placeholder interpolation, the treatment of a trailing throwable among
  varargs, and how the backend's thresholds are configured. The backend is an opaque enablement
  function plus a record sequence. Arguments are kept in their printed form.
- The "logging never throws" guarantees depend on SLF4J. They are not stated.
- Java statics: the static `instance` fields become holder objects passed as parameters. The
  SLF4J backend is the holder's constant instead of `org.slf4j.LoggerFactory`'s global state.
- The domain `LoggerFactory` is abstract. Dafny traits are not used here, so its slot holds a
  `DomainLoggerFactory`, the only subclass in the repository. Its abstract methods are the
  methods of that class.
- `Logger.java` is a pure interface. Its shape is the adapter's.
- The HTTP layer, the use case, the DTOs, the entities and the repositories are not part of
  this model. They are I/O and data holders without logic of their own.
- LoggingConfiguration.ToUpperCase: upper-cases ASCII letters only. `String.toUpperCase()` is
  locale- and Unicode-aware, for example it turns a dotless i into I and ß into SS.
- LoggingConfiguration.ParseLogLevel: a null string (a `NullPointerException` in Java) cannot
  occur, because strings are values here. Spring's `:INFO` defaults make it unreachable in the
  source as well.
- LoggerManagement.LoggerManager.SetMinimumLogLevel, LoggerManagement.LoggerManager.GetLogger and
  their forwarders (`DomainLoggerFactory`, `HelperFactory`, `LoggerFactorySlot.GetLoggerFor`): null
  levels and null names are not represented, because levels and strings are values here. In Java,
  `setMinimumLogLevel(null)` is accepted. After it, every `isXEnabled` call and every emit method
  throws `NullPointerException` when `isEnabled` reads the null minimum's level. So in the facade
  itself, not in SLF4J, a log call can throw. `getLogger(null)` also throws `NullPointerException`,
  from the concurrent map.
- LoggerManagement.Slf4jLoggerAdapter.Trace (and the other eleven emit methods): a throwable
  is reduced to its class name and message, and `null` arguments are not represented.
