/**
 * The declarative logging section of the bootstrap configuration
 * (pkg/model/log.go) and its translation into a zap configuration.
 */
module Model {
  import opened Wrappers
  import Zap

  /** A sampling hook (a Go func value), known only by its identity. */
  datatype Hook = Hook(id: nat)

  /** model.SamplingConfig */
  datatype SamplingConfig = SamplingConfig(initial: int, thereafter: int, hook: Option<Hook>)

  /** model.EncoderConfig: key names, line ending and encoder selectors, all as text. */
  datatype EncoderConfig = EncoderConfig(
    messageKey: string,
    levelKey: string,
    timeKey: string,
    nameKey: string,
    callerKey: string,
    functionKey: string,
    stacktraceKey: string,
    skipLineEnding: bool,
    lineEnding: string,
    encodeLevel: string,
    encodeTime: string,
    encodeDuration: string,
    encodeCaller: string,
    encodeName: string,
    consoleSeparator: string)

  /** model.Log, the logging section of a bootstrap snapshot. */
  datatype Log = Log(
    level: string,
    development: bool,
    disableCaller: bool,
    disableStacktrace: bool,
    sampling: SamplingConfig,
    encoding: string,
    encoderConfig: EncoderConfig,
    outputPaths: seq<string>,
    errorOutputPaths: seq<string>,
    initialFields: map<string, Zap.FieldValue>)

  /** One Nacos server address of the bootstrap's Nacos section. */
  datatype ServerConfig = ServerConfig(ipAddr: string, port: nat)

  /** The Nacos section of the bootstrap snapshot (only the server list is read by the core). */
  datatype Nacos = Nacos(serverConfigs: seq<ServerConfig>)

  /**
   * model.Bootstrap, reduced to the sections the core reads: the logging
   * section is a pointer (absent when nil), the Nacos section a value.
   */
  datatype Bootstrap = Bootstrap(log: Option<Log>, nacos: Nacos)

  /** The outcome of `(*Log).Build`: the receiver as it is afterwards, and the zap config. */
  datatype Built = Built(receiver: Log, config: Zap.Config)

  /** The level text `Build` falls back to when the section leaves it empty. */
  const DefaultLevel := "info"

  const LevelEncoderNames: set<string> := {"capital", "capitalColor", "color"}
  const TimeEncoderNames: set<string> :=
    {"rfc3339nano", "RFC3339Nano", "rfc3339", "RFC3339", "iso8601", "ISO8601", "millis", "nanos"}
  const DurationEncoderNames: set<string> := {"string", "nanos", "ms"}

  /** `(*EncoderConfig).unmarshalLevelEncoder`: case-sensitive, lower case on a miss. */
  function LevelEncoderOf(name: string): (e: Zap.LevelEncoder)
    ensures e == Zap.CapitalLevelEncoder <==> name == "capital"
    ensures e == Zap.CapitalColorLevelEncoder <==> name == "capitalColor"
    ensures e == Zap.LowercaseColorLevelEncoder <==> name == "color"
    ensures e == Zap.LowercaseLevelEncoder <==> name !in LevelEncoderNames
  {
    match name
    case "capital" => Zap.CapitalLevelEncoder
    case "capitalColor" => Zap.CapitalColorLevelEncoder
    case "color" => Zap.LowercaseColorLevelEncoder
    case _ => Zap.LowercaseLevelEncoder
  }

  /** `(*EncoderConfig).unmarshalTimeEncoder`: only the exact spellings, raw epoch on a miss. */
  function TimeEncoderOf(name: string): (e: Zap.TimeEncoder)
    ensures e == Zap.RFC3339NanoTimeEncoder <==> name in {"rfc3339nano", "RFC3339Nano"}
    ensures e == Zap.RFC3339TimeEncoder <==> name in {"rfc3339", "RFC3339"}
    ensures e == Zap.ISO8601TimeEncoder <==> name in {"iso8601", "ISO8601"}
    ensures e == Zap.EpochMillisTimeEncoder <==> name == "millis"
    ensures e == Zap.EpochNanosTimeEncoder <==> name == "nanos"
    ensures e == Zap.EpochTimeEncoder <==> name !in TimeEncoderNames
  {
    match name
    case "rfc3339nano" => Zap.RFC3339NanoTimeEncoder
    case "RFC3339Nano" => Zap.RFC3339NanoTimeEncoder
    case "rfc3339" => Zap.RFC3339TimeEncoder
    case "RFC3339" => Zap.RFC3339TimeEncoder
    case "iso8601" => Zap.ISO8601TimeEncoder
    case "ISO8601" => Zap.ISO8601TimeEncoder
    case "millis" => Zap.EpochMillisTimeEncoder
    case "nanos" => Zap.EpochNanosTimeEncoder
    case _ => Zap.EpochTimeEncoder
  }

  /** `(*EncoderConfig).unmarshalDurationEncoder`: seconds on a miss. */
  function DurationEncoderOf(name: string): (e: Zap.DurationEncoder)
    ensures e == Zap.StringDurationEncoder <==> name == "string"
    ensures e == Zap.NanosDurationEncoder <==> name == "nanos"
    ensures e == Zap.MillisDurationEncoder <==> name == "ms"
    ensures e == Zap.SecondsDurationEncoder <==> name !in DurationEncoderNames
  {
    match name
    case "string" => Zap.StringDurationEncoder
    case "nanos" => Zap.NanosDurationEncoder
    case "ms" => Zap.MillisDurationEncoder
    case _ => Zap.SecondsDurationEncoder
  }

  /** `(*EncoderConfig).unmarshalCallerEncoder`: short form on a miss. */
  function CallerEncoderOf(name: string): (e: Zap.CallerEncoder)
    ensures e == Zap.FullCallerEncoder <==> name == "full"
  {
    match name
    case "full" => Zap.FullCallerEncoder
    case _ => Zap.ShortCallerEncoder
  }

  /** `(*EncoderConfig).unmarshalNameEncoder`: both of its branches pick the full form. */
  function NameEncoderOf(name: string): (e: Zap.NameEncoder)
    ensures e == Zap.FullNameEncoder
  {
    match name
    case "full" => Zap.FullNameEncoder
    case _ => Zap.FullNameEncoder
  }

  /** `(*SamplingConfig).build`; a nil receiver is None. */
  function BuildSampling(s: Option<SamplingConfig>): (z: Zap.SamplingConfig)
    ensures s.None? ==> z == Zap.SamplingConfig(0, 0)
    ensures s.Some? ==> z.initial == s.value.initial && z.thereafter == s.value.thereafter
  {
    match s
    case None => Zap.SamplingConfig(0, 0)
    case Some(c) => Zap.SamplingConfig(c.initial, c.thereafter)
  }

  /** The key names and verbatim text fields of `e` reappear unchanged in `z`. */
  predicate TextFieldsCopied(e: EncoderConfig, z: Zap.EncoderConfig)
  {
    && z.messageKey == e.messageKey
    && z.levelKey == e.levelKey
    && z.timeKey == e.timeKey
    && z.nameKey == e.nameKey
    && z.callerKey == e.callerKey
    && z.functionKey == e.functionKey
    && z.stacktraceKey == e.stacktraceKey
    && z.skipLineEnding == e.skipLineEnding
    && z.lineEnding == e.lineEnding
    && z.consoleSeparator == e.consoleSeparator
  }

  /**
   * `(*EncoderConfig).build`; a nil receiver is None. Every selector of a
   * non-nil receiver is resolved: building never leaves an encoder unset.
   */
  function BuildEncoder(e: Option<EncoderConfig>): (z: Zap.EncoderConfig)
    ensures e.None? ==> z == Zap.ZeroEncoderConfig
    ensures e.Some? ==> TextFieldsCopied(e.value, z)
    ensures e.Some? ==> z.encodeLevel == Some(LevelEncoderOf(e.value.encodeLevel))
    ensures e.Some? ==> z.encodeTime == Some(TimeEncoderOf(e.value.encodeTime))
    ensures e.Some? ==> z.encodeDuration == Some(DurationEncoderOf(e.value.encodeDuration))
    ensures e.Some? ==> z.encodeCaller == Some(CallerEncoderOf(e.value.encodeCaller))
    ensures e.Some? ==> z.encodeName == Some(Zap.FullNameEncoder)
  {
    match e
    case None => Zap.ZeroEncoderConfig
    case Some(c) =>
      Zap.EncoderConfig(
        c.messageKey, c.levelKey, c.timeKey, c.nameKey, c.callerKey,
        c.functionKey, c.stacktraceKey, c.skipLineEnding, c.lineEnding,
        Some(LevelEncoderOf(c.encodeLevel)),
        Some(TimeEncoderOf(c.encodeTime)),
        Some(DurationEncoderOf(c.encodeDuration)),
        Some(CallerEncoderOf(c.encodeCaller)),
        Some(NameEncoderOf(c.encodeName)),
        c.consoleSeparator)
  }

  /**
   * `(*Log).Build`. An empty level is written back into the receiver as
   * "info" (a non-empty one is left alone); the level text goes through
   * zap.ParseAtomicLevel, and every other field is copied or translated.
   */
  function Build(l: Log): (r: Built)
    ensures l.level == "" ==> r.receiver == l.(level := DefaultLevel)
    ensures l.level != "" ==> r.receiver == l
    ensures r.config.level == Zap.ParsedFrom(r.receiver.level)
    ensures r.config.development == l.development
    ensures r.config.disableCaller == l.disableCaller
    ensures r.config.disableStacktrace == l.disableStacktrace
    ensures r.config.sampling == Some(BuildSampling(Some(l.sampling)))
    ensures r.config.encoding == l.encoding
    ensures r.config.encoderConfig == BuildEncoder(Some(l.encoderConfig))
    ensures r.config.outputPaths == l.outputPaths
    ensures r.config.errorOutputPaths == l.errorOutputPaths
    ensures r.config.initialFields == l.initialFields
  {
    var receiver := if l.level == "" then l.(level := DefaultLevel) else l;
    Built(
      receiver,
      Zap.Config(
        Zap.ParsedFrom(receiver.level),
        receiver.development,
        receiver.disableCaller,
        receiver.disableStacktrace,
        Some(BuildSampling(Some(receiver.sampling))),
        receiver.encoding,
        BuildEncoder(Some(receiver.encoderConfig)),
        receiver.outputPaths,
        receiver.errorOutputPaths,
        receiver.initialFields))
  }

  /** Building twice changes nothing more: the second call sees a non-empty level. */
  lemma BuildIdempotent(l: Log)
    ensures Build(l).receiver.level != ""
    ensures Build(Build(l).receiver) == Build(l)
  {
  }

  /** Two sections that differ only in their level text build the same config when one is empty and the other "info". */
  lemma EmptyLevelMeansInfo(l: Log)
    requires l.level == ""
    ensures Build(l).config == Build(l.(level := DefaultLevel)).config
  {
  }

  /** The sampling hook plays no part in the built sampling config. */
  lemma BuildSamplingIgnoresHook(s: SamplingConfig, h: Option<Hook>)
    ensures BuildSampling(Some(s.(hook := h))) == BuildSampling(Some(s))
  {
  }

  /** Unknown selectors degrade to the documented defaults, and selectors are case-sensitive. */
  lemma SelectorDefaults()
    ensures BuildEncoder(Some(EncoderConfig("", "", "", "", "", "", "", false, "", "", "", "", "", "", ""))).encodeTime
            == Some(Zap.EpochTimeEncoder)
    ensures TimeEncoderOf("Rfc3339") == Zap.EpochTimeEncoder
    ensures LevelEncoderOf("Capital") == Zap.LowercaseLevelEncoder
    ensures DurationEncoderOf("MS") == Zap.SecondsDurationEncoder
    ensures CallerEncoderOf("Full") == Zap.ShortCallerEncoder
  {
  }
}
