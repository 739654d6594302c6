/**
 * LoggingConfig: the application's start-up wiring. It reads two level
 * properties, installs the domain provider and sets the registry's minimum
 * level from a lenient, case-insensitive parse of the application property.
 */
module LoggingConfiguration {
  import opened LogLevels
  import opened LoggerManagement
  import opened DomainFactory
  import opened ModelFactory

  /** Upper-casing of one character, ASCII letters only. */
  function UpperChar(c: char): char
  {
    if 'a' <= c <= 'z' then (c as int - 32) as char else c
  }

  /** String.toUpperCase(), restricted to ASCII: same length, every character upper-cased. */
  function ToUpperCase(s: string): (r: string)
    ensures |r| == |s|
    ensures forall i :: 0 <= i < |s| ==> r[i] == UpperChar(s[i])
  {
    if s == [] then [] else [UpperChar(s[0])] + ToUpperCase(s[1..])
  }

  /**
   * parseLogLevel(levelString): the level named by the upper-cased string,
   * and INFO (instead of the IllegalArgumentException valueOf throws) when
   * it names none.
   */
  function ParseLogLevel(levelString: string): (r: LogLevel)
    ensures (exists l :: Name(l) == ToUpperCase(levelString)) ==> Name(r) == ToUpperCase(levelString)
    ensures (forall l :: Name(l) != ToUpperCase(levelString)) ==> r == INFO
  {
    match ValueOf(ToUpperCase(levelString))
    case Some(l) => l
    case None => INFO
  }

  /** Upper-casing leaves a string without lower-case letters as it is. */
  lemma UpperCaseKeepsUpper(s: string)
    requires forall i :: 0 <= i < |s| ==> !('a' <= s[i] <= 'z')
    ensures ToUpperCase(s) == s
  {
  }

  /** Round trip: every level's name parses back to that level. */
  lemma ParseRoundTrip(l: LogLevel)
    ensures ParseLogLevel(Name(l)) == l
  {
  }

  /** Parsing ignores case: any spelling that upper-cases to a level's name gives that level. */
  lemma ParseIgnoresCase(s: string, l: LogLevel)
    requires |s| == |Name(l)|
    requires forall i :: 0 <= i < |s| ==> UpperChar(s[i]) == Name(l)[i]
    ensures ParseLogLevel(s) == l
  {
    assert ToUpperCase(s) == Name(l);
    ValueOfName(l);
  }

  lemma ParseWarnSpellings()
    ensures ParseLogLevel("warn") == WARN
    ensures ParseLogLevel("Warn") == WARN
    ensures ParseLogLevel("WARN") == WARN
  {
    ParseIgnoresCase("warn", WARN);
    ParseIgnoresCase("Warn", WARN);
    ParseIgnoresCase("WARN", WARN);
  }

  /** Strings that name no level fall back to INFO. */
  lemma ParseUnknownIsInfo()
    ensures ParseLogLevel("") == INFO
    ensures ParseLogLevel("verbose") == INFO
  {
    assert ToUpperCase("verbose")[0] == 'V';
  }

  /** A Spring `${key:default}` placeholder: the property if it is set, the default otherwise. */
  function PropertyOr(properties: map<string, string>, key: string, default: string): string
  {
    if key in properties then properties[key] else default
  }

  const RootLevelKey := "logging.level.root"
  const ApplicationLevelKey := "logging.level.co.com.pragma"

  class LoggingConfig {
    /** Injected but never consulted by configureLogging. */
    const rootLogLevel: string
    const applicationLogLevel: string

    constructor (properties: map<string, string>)
      ensures rootLogLevel == PropertyOr(properties, RootLevelKey, "INFO")
      ensures applicationLogLevel == PropertyOr(properties, ApplicationLevelKey, "INFO")
    {
      rootLogLevel := PropertyOr(properties, RootLevelKey, "INFO");
      applicationLogLevel := PropertyOr(properties, ApplicationLevelKey, "INFO");
    }

    /**
     * configureLogging(): installs a fresh DomainLoggerFactory bound to the
     * registry singleton, then sets the registry's minimum to the parsed
     * application level. The logger cache is left as it was.
     */
    method ConfigureLogging(holder: LoggerManagerHolder, slot: LoggerFactorySlot)
      requires holder.Valid()
      modifies holder, holder.instance, slot
      ensures holder.Valid() && holder.instance != null
      ensures old(holder.instance) != null ==> holder.instance == old(holder.instance)
      ensures slot.instance != null && fresh(slot.instance) && slot.instance.loggerManager == holder.instance
      ensures holder.instance.minimumLogLevel == ParseLogLevel(applicationLogLevel)
      ensures holder.Cache() == old(holder.Cache())
    {
      var factory := new DomainLoggerFactory(holder);
      slot.SetInstance(factory);
      var level := ParseLogLevel(applicationLogLevel);
      var m := holder.GetInstance();
      m.SetMinimumLogLevel(level);
    }

    /** loggerManager(): the bean is the registry singleton. */
    method LoggerManagerBean(holder: LoggerManagerHolder) returns (m: LoggerManager)
      requires holder.Valid()
      modifies holder
      ensures holder.Valid() && m == holder.instance
      ensures old(holder.instance) != null ==> m == old(holder.instance)
      ensures old(holder.instance) == null ==> fresh(m)
      ensures holder.Cache() == old(holder.Cache())
      ensures holder.MinimumLogLevel() == old(holder.MinimumLogLevel())
    {
      m := holder.GetInstance();
    }
  }
}
