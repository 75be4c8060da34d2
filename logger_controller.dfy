/**
 * The logging controller (pkg/logger/controller.go): one slot holding the
 * live logger handle, replaced as a unit by level changes and full swaps,
 * and read by the log forwarders.
 */
module Controller {
  import opened Wrappers
  import Zap

  /** The `logger` struct: a built zap engine and the config it was built from. */
  datatype Handle = Handle(engine: Zap.Engine, config: Zap.Config)

  /** The severities the forwarders log at. */
  datatype Severity = Debug | Info | Warn | Error

  /** What a forwarder hands to the live engine: `Info(args...)` or `Infof(format, args...)`. */
  datatype Entry = Entry(engine: Zap.Engine, severity: Severity, format: Option<string>, args: seq<string>)

  /** ASCII lower-casing of one character. */
  function LowerChar(c: char): char
  {
    if 'A' <= c <= 'Z' then (c as int - 'A' as int + 'a' as int) as char else c
  }

  /** ASCII lower-casing of a string (strings.ToLower restricted to ASCII). */
  function ToLower(s: string): (r: string)
    ensures |r| == |s|
    ensures forall i :: 0 <= i < |s| ==> r[i] == LowerChar(s[i])
  {
    if s == [] then [] else [LowerChar(s[0])] + ToLower(s[1..])
  }

  /** The lower-case name zap gives each level. */
  function LevelName(l: Zap.Level): string
  {
    match l
    case DebugLevel => "debug"
    case InfoLevel => "info"
    case WarnLevel => "warn"
    case ErrorLevel => "error"
    case DPanicLevel => "dpanic"
    case PanicLevel => "panic"
    case FatalLevel => "fatal"
  }

  /** The six levels `parseLevel` accepts: every zap level except dpanic. */
  predicate Settable(l: Zap.Level)
  {
    l != Zap.DPanicLevel
  }

  /**
   * `(*controller).parseLevel`: the level whose name equals the input
   * under ASCII case folding, among debug/info/warn/error/panic/fatal;
   * nil for every other string.
   */
  function ParseLevel(level: string): (r: Option<Zap.Level>)
    ensures r.Some? ==> Settable(r.value) && LevelName(r.value) == ToLower(level)
    ensures r.None? ==> forall l: Zap.Level :: Settable(l) ==> LevelName(l) != ToLower(level)
  {
    match ToLower(level)
    case "debug" => Some(Zap.DebugLevel)
    case "info" => Some(Zap.InfoLevel)
    case "warn" => Some(Zap.WarnLevel)
    case "error" => Some(Zap.ErrorLevel)
    case "panic" => Some(Zap.PanicLevel)
    case "fatal" => Some(Zap.FatalLevel)
    case _ => None
  }

  /** Lower-casing twice is lower-casing once. */
  lemma {:induction false} ToLowerIdempotent(s: string)
    ensures ToLower(ToLower(s)) == ToLower(s)
  {
    if s != [] {
      ToLowerIdempotent(s[1..]);
    }
  }

  /** `parseLevel` ignores case: it sees only the lower-cased input. */
  lemma ParseLevelIgnoresCase(level: string)
    ensures ParseLevel(ToLower(level)) == ParseLevel(level)
  {
    ToLowerIdempotent(level);
  }

  /** Every settable level is recognised from its own lower-case name. */
  lemma ParseLevelRecognisesNames(l: Zap.Level)
    requires Settable(l)
    ensures ParseLevel(LevelName(l)) == Some(l)
  {
    assert ToLower(LevelName(l)) == LevelName(l);
  }

  /** The handle `setLoggerLevel` installs: the same config with only the level replaced, rebuilt without options. */
  function WithLevel(h: Handle, l: Zap.Level): Handle
  {
    var config := h.config.(level := Zap.LevelAt(l));
    Handle(Zap.Build(config, 0), config)
  }

  /** The controller: the single live logger slot. */
  class Controller {
    var logger: Handle

    constructor (initial: Handle)
      ensures logger == initial
    {
      logger := initial;
    }

    /**
     * `setLoggerLevel`: an unrecognised name changes nothing and reports
     * false; a recognised one replaces the handle by the old config with
     * only its level replaced, and reports true.
     */
    method SetLoggerLevel(level: string) returns (ok: bool)
      modifies this
      ensures ok <==> ParseLevel(level).Some?
      ensures !ok ==> logger == old(logger)
      ensures ok ==> logger.config == old(logger.config).(level := Zap.LevelAt(ParseLevel(level).value))
      ensures ok ==> logger.engine == Zap.Build(logger.config, 0)
    {
      var lvl := ParseLevel(level);
      if lvl.None? {
        return false;
      }
      logger := WithLevel(logger, lvl.value);
      return true;
    }

    /** `updateLogger`: the slot holds exactly the given handle afterwards. */
    method UpdateLogger(l: Handle)
      modifies this
      ensures logger == l
    {
      logger := l;
    }

    /** `debug`, `info`, `warn`, `error`: hand the arguments to the live engine; the slot is only read. */
    method Print(severity: Severity, args: seq<string>) returns (e: Entry)
      ensures e.engine == logger.engine && e.severity == severity
      ensures e.format.None? && e.args == args
    {
      e := Entry(logger.engine, severity, None, args);
    }

    /** `debugf`, `infof`, `warnf`, `errorf`: as Print, with a format string. */
    method Printf(severity: Severity, format: string, args: seq<string>) returns (e: Entry)
      ensures e.engine == logger.engine && e.severity == severity
      ensures e.format == Some(format) && e.args == args
    {
      e := Entry(logger.engine, severity, Some(format), args);
    }
  }

  /** The level names of the unit tests are accepted in any mix of cases. */
  lemma ParseLevelAcceptsMixedCase()
    ensures ParseLevel("INFO") == Some(Zap.InfoLevel)
    ensures ParseLevel("DEbug") == Some(Zap.DebugLevel)
    ensures ParseLevel("ErRor") == Some(Zap.ErrorLevel)
    ensures ParseLevel("WaRN") == Some(Zap.WarnLevel)
  {
    LowerOf("INFO", "info");
    LowerOf("DEbug", "debug");
    LowerOf("ErRor", "error");
    LowerOf("WaRN", "warn");
  }

  /** The empty name, a prefix of a name, and zap's sixth level name are refused. */
  lemma ParseLevelRejects()
    ensures ParseLevel("") == None
    ensures ParseLevel("i") == None
    ensures ParseLevel("dpanic") == None
  {
    LowerOf("dpanic", "dpanic");
  }

  /** A pointwise check that `t` is the lower-cased `s`. */
  lemma LowerOf(s: string, t: string)
    requires |s| == |t| && forall i :: 0 <= i < |s| ==> LowerChar(s[i]) == t[i]
    ensures ToLower(s) == t
  {
  }

}
