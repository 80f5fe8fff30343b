/**
  Severity levels: their numeric order, their names, the clamping applied
  when the minimum level is configured, and the gate every leveled call
  passes before a record is built.
 */
module Levels {

  /** Lower value means higher severity. Any integer is a `LogLevel`; only
      0..4 have a name. */
  type LogLevel = int

  const LevelFatal: LogLevel := 0
  const LevelError: LogLevel := 1
  const LevelWarning: LogLevel := 2
  const LevelInfo: LogLevel := 3
  const LevelDebug: LogLevel := 4

  /** The canonical lower-case name of a level; the empty string for a value
      outside the enumeration. */
  function Name(level: LogLevel): (name: string)
    ensures name != "" <==> LevelFatal <= level <= LevelDebug
    ensures level == LevelFatal ==> name == "fatal"
    ensures level == LevelError ==> name == "error"
    ensures level == LevelWarning ==> name == "warning"
    ensures level == LevelInfo ==> name == "info"
    ensures level == LevelDebug ==> name == "debug"
  {
    match level
    case 0 => "fatal"
    case 1 => "error"
    case 2 => "warning"
    case 3 => "info"
    case 4 => "debug"
    case _ => ""
  }

  /** Distinct levels have distinct names, so a name in a record identifies
      the level it was logged at. */
  lemma NamesDistinct(a: LogLevel, b: LogLevel)
    requires Name(a) == Name(b) && Name(a) != ""
    ensures a == b
  {
  }

  /** The level actually stored when `level` is configured: the nearest
      boundary for an out-of-range value, the value itself otherwise. */
  function Clamp(level: LogLevel): (stored: LogLevel)
    ensures LevelFatal <= stored <= LevelDebug
    ensures LevelFatal <= level <= LevelDebug ==> stored == level
    ensures level < LevelFatal ==> stored == LevelFatal
    ensures level > LevelDebug ==> stored == LevelDebug
  {
    if level <= LevelFatal then LevelFatal
    else if level >= LevelDebug then LevelDebug
    else level
  }

  /** Re-configuring the stored level changes nothing. */
  lemma ClampIdempotent(level: LogLevel)
    ensures Clamp(Clamp(level)) == Clamp(level)
  {
  }

  /** Whether a call at `level` is passed on to record assembly when the
      configured minimum is `configured`: fatal is never filtered, every other
      level passes iff the configured value is at least its own. */
  predicate Emits(configured: LogLevel, level: LogLevel)
  {
    level == LevelFatal || configured >= level
  }

  /** With any stored (clamped) configuration, a named level is emitted iff
      it is at least as severe as the configured one: FATAL lets only fatal
      through, DEBUG lets everything through. */
  lemma EmitsAfterClamp(requested: LogLevel, level: LogLevel)
    requires LevelFatal <= level <= LevelDebug
    ensures Emits(Clamp(requested), level) <==> level <= Clamp(requested)
    ensures requested <= LevelFatal ==> (Emits(Clamp(requested), level) <==> level == LevelFatal)
    ensures requested >= LevelDebug ==> Emits(Clamp(requested), level)
  {
  }
}
