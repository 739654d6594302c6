/**
 * The severity scale of the logging facade: five constants declared from the
 * most verbose (TRACE) to the least verbose (ERROR), each carrying an integer
 * level and a display name, and the comparison that filters records by a
 * minimum severity.
 */
module LogLevels {

  datatype Option<T> = None | Some(value: T)

  datatype LogLevel = TRACE | DEBUG | INFO | WARN | ERROR

  /** The constants in declaration order. */
  const Declared: seq<LogLevel> := [TRACE, DEBUG, INFO, WARN, ERROR]

  /** getLevel(): the integer a constant is declared with, which is its position in declaration order. */
  function Level(l: LogLevel): (r: nat)
    ensures r < |Declared| && Declared[r] == l
  {
    match l
    case TRACE => 0
    case DEBUG => 1
    case INFO => 2
    case WARN => 3
    case ERROR => 4
  }

  /** getName(): the name field, a non-empty upper-case spelling of the constant. */
  function Name(l: LogLevel): (r: string)
    ensures |r| > 0
    ensures forall i :: 0 <= i < |r| ==> 'A' <= r[i] <= 'Z'
  {
    match l
    case TRACE => "TRACE"
    case DEBUG => "DEBUG"
    case INFO => "INFO"
    case WARN => "WARN"
    case ERROR => "ERROR"
  }

  /**
   * isEnabled(minimum): a record at level `a` passes a filter set to `minimum`
   * exactly when `a` is declared at or after `minimum`.
   */
  function IsEnabled(a: LogLevel, minimum: LogLevel): (r: bool)
    ensures r <==> a in Declared[Level(minimum)..]
  {
    Level(a) >= Level(minimum)
  }

  /**
   * The enum's implicit valueOf(s): the constant whose identifier is exactly `s`;
   * None stands for the IllegalArgumentException thrown for any other string.
   */
  function ValueOf(s: string): (r: Option<LogLevel>)
    ensures r.Some? ==> Name(r.value) == s
    ensures r.None? ==> forall l :: Name(l) != s
  {
    if s == "TRACE" then Some(TRACE)
    else if s == "DEBUG" then Some(DEBUG)
    else if s == "INFO" then Some(INFO)
    else if s == "WARN" then Some(WARN)
    else if s == "ERROR" then Some(ERROR)
    else None
  }

  /** The declared levels strictly increase along the declaration order. */
  lemma LevelsStrictlyIncrease(i: nat, j: nat)
    requires i < j < |Declared|
    ensures Level(Declared[i]) < Level(Declared[j])
  {
  }

  /** Distinct constants have distinct levels, so the order on levels is an order on constants. */
  lemma LevelInjective(a: LogLevel, b: LogLevel)
    requires Level(a) == Level(b)
    ensures a == b
  {
  }

  /** Every level is enabled under itself as the minimum. */
  lemma IsEnabledReflexive(a: LogLevel)
    ensures IsEnabled(a, a)
  {
  }

  lemma IsEnabledAntisymmetric(a: LogLevel, b: LogLevel)
    requires IsEnabled(a, b) && IsEnabled(b, a)
    ensures a == b
  {
  }

  /** Any two levels are comparable: the order is total. */
  lemma IsEnabledTotal(a: LogLevel, b: LogLevel)
    ensures IsEnabled(a, b) || IsEnabled(b, a)
  {
  }

  /**
   * Transitivity, read as monotonicity in the minimum: a level that passes under
   * `higher` also passes under any `lower` minimum; equivalently, raising the
   * minimum never enables a level that was disabled.
   */
  lemma IsEnabledMonotone(a: LogLevel, lower: LogLevel, higher: LogLevel)
    requires IsEnabled(higher, lower)
    ensures IsEnabled(a, higher) ==> IsEnabled(a, lower)
    ensures !IsEnabled(a, lower) ==> !IsEnabled(a, higher)
  {
  }

  /** With the default minimum INFO, ERROR, WARN and INFO pass and DEBUG and TRACE do not. */
  lemma EnabledUnderInfo()
    ensures IsEnabled(ERROR, INFO) && IsEnabled(WARN, INFO) && IsEnabled(INFO, INFO)
    ensures !IsEnabled(DEBUG, INFO) && !IsEnabled(TRACE, INFO)
  {
  }

  lemma ErrorAlwaysEnabled(minimum: LogLevel)
    ensures IsEnabled(ERROR, minimum)
  {
  }

  lemma TraceOnlyUnderTrace(minimum: LogLevel)
    ensures IsEnabled(TRACE, minimum) <==> minimum == TRACE
  {
  }

  /** Names identify constants, and valueOf inverts getName. */
  lemma NameInjective(a: LogLevel, b: LogLevel)
    requires Name(a) == Name(b)
    ensures a == b
  {
  }

  lemma ValueOfName(l: LogLevel)
    ensures ValueOf(Name(l)) == Some(l)
  {
  }
}
