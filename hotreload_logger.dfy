/**
 * The logger reloader (pkg/hotreload/logger.go): change detection over the
 * logging sections of two bootstrap snapshots, and the reload that
 * installs a logger built from the new section.
 */
module LoggerReload {
  import opened Wrappers
  import Zap
  import opened Model
  import Controller
  import Logger

  /** `checkSampling`: equal initial and thereafter counts; the hook is not looked at. */
  function CheckSampling(oldSampling: SamplingConfig, newSampling: SamplingConfig): (r: bool)
    ensures r <==> oldSampling.(hook := newSampling.hook) == newSampling
  {
    oldSampling.initial == newSampling.initial && oldSampling.thereafter == newSampling.thereafter
  }

  /** `checkEncoderConfig`: all fifteen fields are equal. */
  function CheckEncoderConfig(oldEncoder: EncoderConfig, newEncoder: EncoderConfig): (r: bool)
    ensures r <==> oldEncoder == newEncoder
  {
    && oldEncoder.messageKey == newEncoder.messageKey
    && oldEncoder.levelKey == newEncoder.levelKey
    && oldEncoder.timeKey == newEncoder.timeKey
    && oldEncoder.nameKey == newEncoder.nameKey
    && oldEncoder.callerKey == newEncoder.callerKey
    && oldEncoder.functionKey == newEncoder.functionKey
    && oldEncoder.stacktraceKey == newEncoder.stacktraceKey
    && oldEncoder.skipLineEnding == newEncoder.skipLineEnding
    && oldEncoder.lineEnding == newEncoder.lineEnding
    && oldEncoder.encodeLevel == newEncoder.encodeLevel
    && oldEncoder.encodeTime == newEncoder.encodeTime
    && oldEncoder.encodeDuration == newEncoder.encodeDuration
    && oldEncoder.encodeCaller == newEncoder.encodeCaller
    && oldEncoder.encodeName == newEncoder.encodeName
    && oldEncoder.consoleSeparator == newEncoder.consoleSeparator
  }

  /**
   * The part of a log section the comparison looks at: everything except
   * the error output paths, the initial fields and the sampling hook.
   */
  function Compared(l: Log): Log
  {
    l.(sampling := l.sampling.(hook := None), errorOutputPaths := [], initialFields := map[])
  }

  /**
   * `(*LoggerReloader).CheckUpdate`, as written. A section that appears
   * reports true and one that disappears reports false; with both present
   * the result is true exactly when every compared field is EQUAL, the
   * opposite of what its doc comment describes. Both sections absent is a
   * nil dereference in the source, hence the precondition. The output
   * paths are compared with `equal`, which Coordinator.Equal shows to be
   * sequence equality.
   */
  function CheckUpdate(oldConfig: Bootstrap, newConfig: Bootstrap): (r: bool)
    requires oldConfig.log.Some? || newConfig.log.Some?
    ensures oldConfig.log.None? ==> r
    ensures newConfig.log.None? ==> !r
    ensures oldConfig.log.Some? && newConfig.log.Some? ==>
              (r <==> Compared(oldConfig.log.value) == Compared(newConfig.log.value))
  {
    var oc := oldConfig.log;
    var nc := newConfig.log;
    if oc.None? && nc.Some? then true
    else if oc.Some? && nc.None? then false
    else if oc.value.level != nc.value.level
         || oc.value.development != nc.value.development
         || oc.value.disableCaller != nc.value.disableCaller
         || oc.value.disableStacktrace != nc.value.disableStacktrace
         || oc.value.encoding != nc.value.encoding then false
    else if !CheckSampling(oc.value.sampling, nc.value.sampling) then false
    else if !CheckEncoderConfig(oc.value.encoderConfig, nc.value.encoderConfig) then false
    else if oc.value.outputPaths != nc.value.outputPaths then false
    else true
  }

  /** With both sections present, comparing a snapshot with itself reports true. */
  lemma CheckUpdateReflexive(b: Bootstrap)
    requires b.log.Some?
    ensures CheckUpdate(b, b)
  {
  }

  /** With both sections present, the order of the two snapshots does not matter. */
  lemma CheckUpdateSymmetric(oldConfig: Bootstrap, newConfig: Bootstrap)
    requires oldConfig.log.Some? && newConfig.log.Some?
    ensures CheckUpdate(oldConfig, newConfig) == CheckUpdate(newConfig, oldConfig)
  {
  }

  /** Changing only the error output paths or the initial fields of the new section never changes the result. */
  lemma CheckUpdateIgnoresUncomparedFields(
    oldConfig: Bootstrap, newConfig: Bootstrap,
    errorOutputPaths: seq<string>, initialFields: map<string, Zap.FieldValue>)
    requires oldConfig.log.Some? && newConfig.log.Some?
    ensures
      var changed := newConfig.log.value.(errorOutputPaths := errorOutputPaths, initialFields := initialFields);
      CheckUpdate(oldConfig, newConfig.(log := Some(changed))) == CheckUpdate(oldConfig, newConfig)
  {
    var changed := newConfig.log.value.(errorOutputPaths := errorOutputPaths, initialFields := initialFields);
    assert Compared(changed) == Compared(newConfig.log.value);
  }

  /** A change of the level alone, or of the output paths alone, makes the comparison report false. */
  lemma SingleFieldChangeReportsFalse(b: Bootstrap, level: string, outputPaths: seq<string>)
    requires b.log.Some?
    ensures level != b.log.value.level ==>
              !CheckUpdate(b, b.(log := Some(b.log.value.(level := level))))
    ensures outputPaths != b.log.value.outputPaths ==>
              !CheckUpdate(b, b.(log := Some(b.log.value.(outputPaths := outputPaths))))
  {
    var l := b.log.value;
    if level != l.level {
      assert Compared(l.(level := level)).level != Compared(l).level;
    }
    if outputPaths != l.outputPaths {
      assert Compared(l.(outputPaths := outputPaths)).outputPaths != Compared(l).outputPaths;
    }
  }

  /**
   * The corrected change detection: reload exactly when the new section is
   * present and either the old one is absent or some compared field
   * differs.
   */
  function NeedsReload(oldConfig: Bootstrap, newConfig: Bootstrap): (r: bool)
    ensures r <==> newConfig.log.Some? &&
                   (oldConfig.log.None? || Compared(oldConfig.log.value) != Compared(newConfig.log.value))
  {
    match (oldConfig.log, newConfig.log)
    case (_, None) => false
    case (None, Some(_)) => true
    case (Some(oc), Some(nc)) =>
      || oc.level != nc.level
      || oc.development != nc.development
      || oc.disableCaller != nc.disableCaller
      || oc.disableStacktrace != nc.disableStacktrace
      || oc.encoding != nc.encoding
      || !CheckSampling(oc.sampling, nc.sampling)
      || !CheckEncoderConfig(oc.encoderConfig, nc.encoderConfig)
      || oc.outputPaths != nc.outputPaths
  }

  /** With both sections present, the code as written answers the negation of the corrected question. */
  lemma CheckUpdateIsNegatedNeedsReload(oldConfig: Bootstrap, newConfig: Bootstrap)
    requires oldConfig.log.Some? && newConfig.log.Some?
    ensures CheckUpdate(oldConfig, newConfig) == !NeedsReload(oldConfig, newConfig)
  {
  }

  /**
   * The inversion on a concrete transition: the level goes from "info" to
   * "debug" with everything else equal. The code as written reports no
   * change, the corrected predicate reports one; for an unchanged snapshot
   * it is the other way round.
   */
  lemma LevelChangeIsNotReloaded(b: Bootstrap)
    requires b.log.Some? && b.log.value.level == "info"
    ensures var debug := b.(log := Some(b.log.value.(level := "debug")));
            !CheckUpdate(b, debug) && NeedsReload(b, debug)
    ensures CheckUpdate(b, b) && !NeedsReload(b, b)
  {
    SingleFieldChangeReportsFalse(b, "debug", []);
  }

  /** The corrected predicate is defined without any logging section, and asks for no reload then. */
  lemma NeedsReloadWithoutSections(oldConfig: Bootstrap, newConfig: Bootstrap)
    requires oldConfig.log.None? && newConfig.log.None?
    ensures !NeedsReload(oldConfig, newConfig)
  {
  }

  /**
   * `(*LoggerReloader).HotReload`: build a zap config from the new logging
   * section and hand it to the logger package's HotReload, which never
   * fails. The new section must be present: the source dereferences it.
   */
  method ReloadLogger(control: Controller.Controller, oldConfig: Bootstrap, newConfig: Bootstrap)
    returns (err: Option<string>)
    requires newConfig.log.Some?
    modifies control
    ensures err == None
    ensures control.logger == Logger.Installed(Some(Build(newConfig.log.value).config))
  {
    var built := Build(newConfig.log.value);
    err := Logger.HotReload(control, Some(built.config));
    if err.Some? {
      return err;
    }
    return None;
  }
}
