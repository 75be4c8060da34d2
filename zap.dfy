/**
 * The parts of the zap logging library (go.uber.org/zap, zapcore) that the
 * core touches, as opaque values: encoder strategies are enum tags, a level
 * is a tag, and a built logger is an abstract value made from its config.
 */
module Zap {
  import opened Wrappers

  /** zapcore.Level */
  datatype Level = DebugLevel | InfoLevel | WarnLevel | ErrorLevel | DPanicLevel | PanicLevel | FatalLevel

  /**
   * zap.AtomicLevel: either created at a known level (zap.NewAtomicLevelAt)
   * or the outcome of zap.ParseAtomicLevel on a text, which is kept opaque.
   */
  datatype AtomicLevel = LevelAt(level: Level) | ParsedFrom(text: string)

  /** zapcore.LevelEncoder strategies */
  datatype LevelEncoder =
    | LowercaseLevelEncoder | CapitalLevelEncoder
    | CapitalColorLevelEncoder | LowercaseColorLevelEncoder

  /** zapcore.TimeEncoder strategies */
  datatype TimeEncoder =
    | EpochTimeEncoder | EpochMillisTimeEncoder | EpochNanosTimeEncoder
    | ISO8601TimeEncoder | RFC3339TimeEncoder | RFC3339NanoTimeEncoder

  /** zapcore.DurationEncoder strategies */
  datatype DurationEncoder =
    | SecondsDurationEncoder | NanosDurationEncoder
    | MillisDurationEncoder | StringDurationEncoder

  /** zapcore.CallerEncoder strategies */
  datatype CallerEncoder = ShortCallerEncoder | FullCallerEncoder

  /** zapcore.NameEncoder strategies (zapcore offers only the full form) */
  datatype NameEncoder = FullNameEncoder

  /** zapcore.EncoderConfig; an encoder field left nil is None. */
  datatype EncoderConfig = EncoderConfig(
    messageKey: string,
    levelKey: string,
    timeKey: string,
    nameKey: string,
    callerKey: string,
    functionKey: string,
    stacktraceKey: string,
    skipLineEnding: bool,
    lineEnding: string,
    encodeLevel: Option<LevelEncoder>,
    encodeTime: Option<TimeEncoder>,
    encodeDuration: Option<DurationEncoder>,
    encodeCaller: Option<CallerEncoder>,
    encodeName: Option<NameEncoder>,
    consoleSeparator: string)

  /** The zero value `zapcore.EncoderConfig{}`. */
  const ZeroEncoderConfig := EncoderConfig("", "", "", "", "", "", "", false, "", None, None, None, None, None, "")

  /** zap.SamplingConfig (its Hook is never set by this core). */
  datatype SamplingConfig = SamplingConfig(initial: int, thereafter: int)

  /** A value of an entry in InitialFields (Go's interface{}), kept opaque. */
  datatype FieldValue = FieldValue(repr: string)

  /** zap.Config; Sampling is a pointer, so it may be absent. */
  datatype Config = Config(
    level: AtomicLevel,
    development: bool,
    disableCaller: bool,
    disableStacktrace: bool,
    sampling: Option<SamplingConfig>,
    encoding: string,
    encoderConfig: EncoderConfig,
    outputPaths: seq<string>,
    errorOutputPaths: seq<string>,
    initialFields: map<string, FieldValue>)

  /**
   * A sugared zap logger as built by `Config.Build`: it is determined by the
   * configuration it was built from and the caller-skip option passed to it.
   */
  datatype Engine = Engine(source: Config, callerSkip: nat)

  /** `Config.Build(zap.AddCallerSkip(callerSkip))` followed by `.Sugar()`. */
  function Build(c: Config, callerSkip: nat): Engine
  {
    Engine(c, callerSkip)
  }
}
