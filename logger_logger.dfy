/**
 * Initialisation and reconfiguration of the process-wide logging controller
 * (pkg/logger/logger.go). The global `control` is passed in explicitly.
 */
module Logger {
  import opened Wrappers
  import Zap
  import opened Controller

  /** The caller skip `InitLogger` passes to zap's Build. */
  const InitCallerSkip: nat := 2

  /** The encoder config `InitLogger(nil)` installs over zap's development preset. */
  const DefaultEncoderConfig := Zap.EncoderConfig(
    messageKey := "message",
    levelKey := "level",
    timeKey := "time",
    nameKey := "logger",
    callerKey := "caller",
    functionKey := "",
    stacktraceKey := "stacktrace",
    skipLineEnding := false,
    lineEnding := "",
    encodeLevel := Some(Zap.CapitalColorLevelEncoder),
    encodeTime := Some(Zap.ISO8601TimeEncoder),
    encodeDuration := Some(Zap.SecondsDurationEncoder),
    encodeCaller := Some(Zap.ShortCallerEncoder),
    encodeName := None,
    consoleSeparator := "")

  /**
   * `zap.NewDevelopmentConfig()` with its encoder config replaced by
   * DefaultEncoderConfig: the configuration of the default logger.
   */
  const DefaultConfig := Zap.Config(
    level := Zap.LevelAt(Zap.DebugLevel),
    development := true,
    disableCaller := false,
    disableStacktrace := false,
    sampling := None,
    encoding := "console",
    encoderConfig := DefaultEncoderConfig,
    outputPaths := ["stderr"],
    errorOutputPaths := ["stderr"],
    initialFields := map[])

  const NilNameMessage := "log configure file name is nil"

  /** The error text for a file name whose extension is not ".yml". */
  function SuffixMessage(fileName: string): string
  {
    "log configure file name " + fileName + " suffix must be .yml"
  }

  /**
   * The handle `InitLogger(conf)` installs: built with caller skip 2 from
   * the fixed default config when `conf` is nil, and from a copy of `*conf`
   * otherwise.
   */
  function Installed(conf: Option<Zap.Config>): (h: Handle)
    ensures conf.None? ==> h.config == DefaultConfig
    ensures conf.Some? ==> h.config == conf.value
    ensures h.engine == Zap.Build(h.config, InitCallerSkip)
  {
    var config := if conf.None? then DefaultConfig else conf.value;
    Handle(Zap.Build(config, InitCallerSkip), config)
  }

  /** `r` is a suffix of `s`. */
  predicate IsSuffix(r: string, s: string)
  {
    |r| <= |s| && s[|s| - |r|..] == r
  }

  /**
   * Go's `path.Ext`: the suffix of `path` from the final '.' of its final
   * '/'-separated element, or "" when that element has no '.'.
   */
  function Ext(path: string): (r: string)
    ensures IsSuffix(r, path)
    ensures r != [] ==> r[0] == '.' && forall i :: 1 <= i < |r| ==> r[i] != '.' && r[i] != '/'
    ensures r == [] ==> forall i :: 0 <= i < |path| && path[i] == '.' ==> '/' in path[i + 1..]
  {
    if path == [] || path[|path| - 1] == '/' then []
    else if path[|path| - 1] == '.' then "."
    else
      var e := Ext(path[..|path| - 1]);
      if e == [] then [] else e + [path[|path| - 1]]
  }

  /** A name is accepted exactly when its extension is ".yml", i.e. when it ends in ".yml". */
  lemma {:induction false} ExtIsYmlIffEndsWithYml(path: string)
    ensures Ext(path) == ".yml" <==> IsSuffix(".yml", path)
  {
    if IsSuffix(".yml", path) {
      var n := |path|;
      var p3, p2, p1 := path[..n - 3], path[..n - 2], path[..n - 1];
      assert p3[|p3| - 1] == '.';
      assert Ext(p3) == ".";
      assert p2[..|p2| - 1] == p3 && p2[|p2| - 1] == 'y';
      assert Ext(p2) == ".y";
      assert p1[..|p1| - 1] == p2 && p1[|p1| - 1] == 'm';
      assert Ext(p1) == ".ym";
      assert path[..n - 1] == p1 && path[n - 1] == 'l';
    }
  }

  /** The two file-name checks of `InitLog`, in their order: empty first, then the extension. */
  function CheckLogFileName(fileName: string): (err: Option<string>)
    ensures fileName == "" ==> err == Some(NilNameMessage)
    ensures fileName != "" ==> (err.None? <==> IsSuffix(".yml", fileName))
    ensures fileName != "" && err.Some? ==> err == Some(SuffixMessage(fileName))
  {
    ExtIsYmlIffEndsWithYml(fileName);
    if fileName == "" then Some(NilNameMessage)
    else if Ext(fileName) != ".yml" then Some(SuffixMessage(fileName))
    else None
  }

  /** The file names of the unit tests, and near misses of ".yml". */
  lemma CheckLogFileNameExamples()
    ensures CheckLogFileName("/work/log.xml") == Some(SuffixMessage("/work/log.xml"))
    ensures CheckLogFileName("conf.yaml").Some?
    ensures CheckLogFileName("a.yml/log").Some?
    ensures CheckLogFileName("./log.yml") == None
    ensures CheckLogFileName("/work/logger.yml") == None
  {
    assert !IsSuffix(".yml", "/work/log.xml");
    assert !IsSuffix(".yml", "conf.yaml");
    assert !IsSuffix(".yml", "a.yml/log");
    assert IsSuffix(".yml", "./log.yml");
    assert IsSuffix(".yml", "/work/logger.yml");
  }

  /** The package's `init`: a fresh controller holding the default logger. */
  method Init() returns (control: Controller)
    ensures fresh(control)
    ensures control.logger == Installed(None)
  {
    control := new Controller(Installed(None));
  }

  /** `InitLogger`: install the handle built from `conf`, or from the default config when it is nil. */
  method InitLogger(control: Controller, conf: Option<Zap.Config>)
    modifies control
    ensures control.logger == Installed(conf)
  {
    control.UpdateLogger(Installed(conf));
  }

  /**
   * `InitLog`: validate the file name, read the file, unmarshal it, and
   * install the result. Reading and unmarshalling are the parameters
   * `readFile` and `unmarshal`; each failing step installs the default
   * logger and reports its own error text.
   */
  method InitLog(
    control: Controller,
    fileName: string,
    readFile: string -> Result<string, string>,
    unmarshal: string -> Result<Zap.Config, string>)
    returns (err: Option<string>)
    modifies control
    ensures CheckLogFileName(fileName).Some? ==> err == CheckLogFileName(fileName)
    ensures CheckLogFileName(fileName).None? && readFile(fileName).Failure? ==>
              err == Some("os.ReadFile file:" + fileName + ", error:" + readFile(fileName).error)
    ensures CheckLogFileName(fileName).None? && readFile(fileName).Success? &&
            unmarshal(readFile(fileName).value).Failure? ==>
              err == Some("[Unmarshal]init logger error: " + unmarshal(readFile(fileName).value).error)
    ensures CheckLogFileName(fileName).None? && readFile(fileName).Success? &&
            unmarshal(readFile(fileName).value).Success? ==>
              err.None?
    ensures err.Some? ==> control.logger == Installed(None)
    ensures err.None? ==>
              && CheckLogFileName(fileName).None?
              && readFile(fileName).Success?
              && unmarshal(readFile(fileName).value).Success?
              && control.logger == Installed(Some(unmarshal(readFile(fileName).value).value))
  {
    err := CheckLogFileName(fileName);
    if err.Some? {
      InitLogger(control, None);
      return;
    }
    var stream := readFile(fileName);
    if stream.Failure? {
      InitLogger(control, None);
      return Some("os.ReadFile file:" + fileName + ", error:" + stream.error);
    }
    var conf := unmarshal(stream.value);
    if conf.Failure? {
      InitLogger(control, None);
      return Some("[Unmarshal]init logger error: " + conf.error);
    }
    InitLogger(control, Some(conf.value));
  }

  /** `SetLoggerLevel`: the controller's level change on the global controller. */
  method SetLoggerLevel(control: Controller, level: string) returns (ok: bool)
    modifies control
    ensures ok <==> ParseLevel(level).Some?
    ensures !ok ==> control.logger == old(control.logger)
    ensures ok ==> control.logger == WithLevel(old(control.logger), ParseLevel(level).value)
  {
    ok := control.SetLoggerLevel(level);
  }

  /** `HotReload`: exactly `InitLogger(conf)`, and never an error. */
  method HotReload(control: Controller, conf: Option<Zap.Config>) returns (err: Option<string>)
    modifies control
    ensures err == None
    ensures control.logger == Installed(conf)
  {
    InitLogger(control, conf);
    return None;
  }
}
