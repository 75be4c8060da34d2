# Hot reload and logging control of the Pixiu gateway, in Dafny

This project models the hot-reload and logging control path of the Pixiu
gateway (dubbo-go-pixiu). It covers five pieces:

- **Log-section translation** (`Model`, pkg/model/log.go). The declarative
  `log` section of a bootstrap snapshot becomes a zap configuration. An
  empty level is written back as "info". Each encoder selector is a
  case-sensitive string switch with a fallback.
- **Logger change detection and reload** (`LoggerReload`,
  pkg/hotreload/logger.go). It compares the old and new logging sections
  field by field. The code returns `true` when every compared field is
  equal and `false` as soon as one differs. That is the opposite of its doc
  comment. The model keeps the code as written and proves the inversion.
- **Reload coordinator** (`Coordinator`, pkg/hotreload/hotreload.go). One
  evaluation cycle asks every registered reloader, dispatches the affected
  ones and commits the new snapshot as the baseline iff one was
  dispatched. The goroutine fan-out is joined by a WaitGroup before the
  commit, so one cycle is a sequential loop here.
- **Logging controller** (`Controller`, pkg/logger/controller.go, and
  `Logger`, pkg/logger/logger.go). A class holds the single live logger
  slot: a zap engine plus its config. Level changes, full swaps,
  initialisation and file-name validation all act on that slot. The
  process-wide `control` variable is passed in as an explicit object.
- **Remote-config slot** (`ConfigCenter`, configcenter/nacos_load.go).
  `onChange` replaces the stored snapshot only for data that is non-empty
  and parses. The module also covers the empty-server guard and the
  request-parameter defaults.

zap is represented by enum tags and opaque values (`Zap`). Building a zap
logger is the total constructor `Zap.Build(config, callerSkip)`; the source
discards build errors. `InitLogger` builds with caller skip 2, but
`setLoggerLevel` rebuilds with no options, so after a level change the
engine has caller skip 0. `Controller.Controller.SetLoggerLevel` states this.

I/O and foreign calls are parameters:
- `InitLog` takes the file read (`readFile`) and the YAML unmarshal
  (`unmarshal`).
- `onChange` takes the ".yml" parser (`parse`).
- `NewNacosConfig` takes the SDK client constructor (`connect`).
- The coordinator's tick takes the snapshot that `ViewRemoteConfig`
  returned.

## Model

| member | source | states |
|---|---|---|
| `Model.LevelEncoderOf` | pkg/model/log.go:122-133 | "capital", "capitalColor" and "color" select the capital, capital-colour and lowercase-colour encoders; every other string, and only those, selects lowercase |
| `Model.TimeEncoderOf` | pkg/model/log.go:135-150 | each time encoder is chosen exactly by its listed spellings; every unlisted string, and only those, selects raw epoch |
| `Model.DurationEncoderOf` | pkg/model/log.go:152-163 | "string", "nanos" and "ms" select their encoders; every other string, and only those, selects seconds |
| `Model.CallerEncoderOf` | pkg/model/log.go:165-172 | the full caller encoder is chosen iff the selector is exactly "full"; otherwise short |
| `Model.NameEncoderOf` | pkg/model/log.go:174-181 | both branches of the name-encoder switch pick the full name encoder, whatever the selector |
| `Model.BuildSampling` | pkg/model/log.go:69-78 | a nil receiver yields the zero sampling config; otherwise initial and thereafter are copied exactly |
| `Model.BuildEncoder` | pkg/model/log.go:98-120 | a nil receiver yields the zero encoder config; otherwise every key name, skipLineEnding, lineEnding and consoleSeparator are copied, each selector is resolved and set, and the name encoder is always full |
| `Model.Build` | pkg/model/log.go:39-61 | an empty level is replaced by "info" in the receiver and a non-empty one is left alone; the parsed level text is the receiver's; development, the two disable flags, encoding, both path lists and initial fields are copied; sampling and encoder config come from their builders |
| `Model.BuildIdempotent` | pkg/model/log.go:39-42 | after Build the receiver's level is non-empty, and building the updated receiver again gives the same result |
| `Model.EmptyLevelMeansInfo` | pkg/model/log.go:40-44 | a section with an empty level builds the same zap config as the same section with level "info" |
| `Model.BuildSamplingIgnoresHook` | pkg/model/log.go:63-78 | the sampling hook has no influence on the built sampling config |
| `Model.SelectorDefaults` | pkg/model/log.go:122-181 | all-empty selectors give the raw-epoch time encoder; "Rfc3339", "Capital", "MS" and "Full" are not recognised and fall back to their defaults |
| `Controller.ToLower` | pkg/logger/controller.go:105 | ASCII lower-casing keeps the length and lowers each character |
| `Controller.ParseLevel` | pkg/logger/controller.go:103-124 | the result is a level iff the lower-cased input is the name of one of debug, info, warn, error, panic, fatal, and it is that level; otherwise nil |
| `Controller.ToLowerIdempotent` | pkg/logger/controller.go:105 | lower-casing twice equals lower-casing once |
| `Controller.ParseLevelIgnoresCase` | pkg/logger/controller.go:105-120 | parsing the lower-cased input gives the same result as parsing the input |
| `Controller.ParseLevelRecognisesNames` | pkg/logger/controller.go:106-117 | each of the six settable levels is parsed from its own lower-case name |
| `Controller.ParseLevelAcceptsMixedCase` | pkg/logger/logger_test.go:72-79 | "INFO", "DEbug", "ErRor" and "WaRN" parse to info, debug, error and warn |
| `Controller.ParseLevelRejects` | pkg/logger/controller.go:118-119 | "", "i" and "dpanic" are refused |
| `Controller.Controller.constructor` | pkg/logger/logger.go:44-50 | the new controller holds the given handle |
| `Controller.Controller.SetLoggerLevel` | pkg/logger/controller.go:35-47 | returns true iff the name parses; on false the slot is unchanged; on true the new config is the old one with only the level replaced, and the engine is rebuilt from it without the caller-skip option |
| `Controller.Controller.UpdateLogger` | pkg/logger/controller.go:49-53 | afterwards the slot holds exactly the given handle |
| `Controller.Controller.Print` | pkg/logger/controller.go:55-77 | debug/info/warn/error hand their arguments to the live engine at that severity; the slot is only read (no modifies clause) |
| `Controller.Controller.Printf` | pkg/logger/controller.go:79-101 | the formatted variants hand format and arguments to the live engine; the slot is only read |
| `Logger.Installed` | pkg/logger/logger.go:81-106 | with no config the handle carries the fixed default config, otherwise a copy of the given one; the engine is built from that config with caller skip 2 |
| `Logger.Ext` | pkg/logger/logger.go:58 | the extension is a suffix of the path; a non-empty one starts with '.' and holds no other '.' and no '/'; an empty one means every '.' of the path is followed by a '/' |
| `Logger.ExtIsYmlIffEndsWithYml` | pkg/logger/logger.go:58-61 | the extension is ".yml" iff the name ends in ".yml" |
| `Logger.CheckLogFileName` | pkg/logger/logger.go:54-61 | the empty name gives "log configure file name is nil"; any other name passes iff it ends in ".yml" and otherwise gets the suffix error naming it |
| `Logger.CheckLogFileNameExamples` | pkg/logger/logger_test.go:37-43 | "/work/log.xml" gets the suffix error, "conf.yaml" and "a.yml/log" are refused, "./log.yml" and "/work/logger.yml" pass |
| `Logger.Init` | pkg/logger/logger.go:44-50 | the package's controller starts out holding the default logger |
| `Logger.InitLogger` | pkg/logger/logger.go:81-106 | the slot afterwards holds the default handle for nil and the handle built from a copy of the config otherwise |
| `Logger.InitLog` | pkg/logger/logger.go:53-79 | the name checks come first and their error is returned; then a failed read, then a failed unmarshal, each with its own text; every failure installs the default logger; a valid name, a successful read and a successful unmarshal return no error, and no error means all three succeeded and the unmarshalled config is installed |
| `Logger.SetLoggerLevel` | pkg/logger/logger.go:109-111 | the controller's level change on the process-wide controller |
| `Logger.HotReload` | pkg/logger/logger.go:113-116 | has exactly the effect of InitLogger and never returns an error |
| `LoggerReload.CheckSampling` | pkg/hotreload/logger.go:78-80 | true iff the two sampling configs are equal once the hook is disregarded |
| `LoggerReload.CheckEncoderConfig` | pkg/hotreload/logger.go:83-99 | true iff the two encoder configs are equal in all fifteen fields |
| `LoggerReload.CheckUpdate` | pkg/hotreload/logger.go:29-66 | old absent gives true; new absent gives false (so true implies the new section is present); with both present, true iff the sections agree on every field except error output paths, initial fields and the sampling hook |
| `LoggerReload.CheckUpdateReflexive` | pkg/hotreload/logger.go:42-65 | a present section compared with itself gives true |
| `LoggerReload.CheckUpdateSymmetric` | pkg/hotreload/logger.go:42-65 | with both sections present, swapping them does not change the result |
| `LoggerReload.CheckUpdateIgnoresUncomparedFields` | pkg/hotreload/logger.go:41-65 | changing only the error output paths or initial fields of the new section never changes the result |
| `LoggerReload.SingleFieldChangeReportsFalse` | pkg/hotreload/logger.go:42-63 | a change of the level alone, or of the output paths alone, gives false |
| `LoggerReload.NeedsReload` | pkg/hotreload/logger.go:28-66 | corrected detection: true iff the new section is present and the old one is absent or differs in a compared field |
| `LoggerReload.CheckUpdateIsNegatedNeedsReload` | pkg/hotreload/logger.go:28-66 | with both sections present, the code as written returns the negation of the corrected predicate |
| `LoggerReload.LevelChangeIsNotReloaded` | pkg/hotreload/logger.go:42-48 | level "info" to "debug": the code as written reports false and the corrected predicate true; for an unchanged snapshot it is the reverse |
| `LoggerReload.NeedsReloadWithoutSections` | pkg/hotreload/logger.go:29-42 | the corrected predicate is defined when neither snapshot has a logging section, and asks for no reload |
| `LoggerReload.ReloadLogger` | pkg/hotreload/logger.go:69-75 | never returns an error; the slot afterwards holds the handle built from the zap config that Build makes of the new section |
| `Coordinator.CheckUpdate` | pkg/hotreload/hotreload.go:32-35 | the HotReloader interface's change question, dispatched on the implementation: the logger reloader answers with its own CheckUpdate, any other implementation with its own change predicate |
| `Coordinator.Outcome` | pkg/hotreload/hotreload.go:36-38 | the error an implementation's HotReload returns: the logger reloader never fails, any other implementation returns its own error |
| `Coordinator.Affected` | pkg/hotreload/hotreload.go:83-94 | the dispatched indices are exactly the reloaders whose CheckUpdate holds, each once, in registration order |
| `Coordinator.HandleAfter` | pkg/hotreload/hotreload.go:83-96 | after the dispatches, the slot holds the handle built from the new section if a logger reloader was dispatched, and is unchanged otherwise |
| `Coordinator.AnyChangedIffDispatched` | pkg/hotreload/hotreload.go:84-98 | the commit flag is set iff at least one reloader was dispatched |
| `Coordinator.OutcomesDoNotSteerCycle` | pkg/hotreload/hotreload.go:87-98 | changing the error another reloader's HotReload returns changes neither the dispatched set nor whether the cycle commits |
| `Coordinator.LoggerDispatchNeedsSection` | pkg/hotreload/logger.go:69-70 | a logger reloader is dispatched only when the new snapshot has a logging section, so HotReload's dereference is safe |
| `Coordinator.DefaultCycleReloadsUnchangedSnapshot` | pkg/hotreload/hotreload.go:79-99 | with the shipped reloader list and an unchanged snapshot, the logger reloader is dispatched |
| `Coordinator.DefaultCycleIgnoresLevelChange` | pkg/hotreload/hotreload.go:79-99 | with the shipped reloader list, a level change from "info" to "debug" dispatches nothing and does not commit |
| `Coordinator.MissingLogSectionIsUncheckable` | pkg/hotreload/logger.go:29-42 | with the shipped reloader list, a baseline and snapshot without logging sections cannot be checked: the logger reloader's CheckUpdate would dereference the absent section |
| `Coordinator.Equal` | pkg/hotreload/hotreload.go:103-113 | `equal` returns true iff the two slices are equal as sequences |
| `Coordinator.Trace.Receive` | pkg/hotreload/hotreload.go:36-38 | an implementation receiving HotReload(old, new) appends exactly that one invocation to the record of invocations |
| `Coordinator.Dispatch` | pkg/hotreload/hotreload.go:86-92 | the reloader at the given index receives exactly one HotReload invocation with the two snapshots; returns that reloader's own outcome; a logger reloader installs the handle built from the new section, any other leaves the logging slot alone |
| `Coordinator.Coordinator.Default` | pkg/hotreload/hotreload.go:49 | the shipped coordinator has exactly one reloader, the logger reloader, and is not started |
| `Coordinator.Coordinator.StartHotReload` | pkg/hotreload/hotreload.go:53-62 | a nil manager or nil snapshot leaves the coordinator unchanged; otherwise both are recorded |
| `Coordinator.Coordinator.HotReloadCycle` | pkg/hotreload/hotreload.go:79-100 | the invocations the reloaders receive during the cycle are exactly one per reloader whose CheckUpdate holds, in registration order, each with the pre-cycle baseline and the new snapshot, whatever errors earlier ones returned; the baseline becomes the new snapshot iff some reloader reported a change, and is unchanged otherwise; the logger slot is as HandleAfter says |
| `Coordinator.Coordinator.Tick` | pkg/hotreload/hotreload.go:65-76 | a tick with no remote snapshot dispatches nothing and changes nothing; otherwise it has exactly the effect of one cycle on that snapshot (invocations, commit, logging slot) |
| `ConfigCenter.GetOrDefault` | configcenter/nacos_load.go:115-120 | the result is the target when it is non-empty and the fallback when it is empty |
| `ConfigCenter.GetOrDefaultIdempotent` | configcenter/nacos_load.go:115-120 | defaulting twice equals defaulting once |
| `ConfigCenter.RequestParam` | configcenter/nacos_load.go:107-128 | dataId and group are the given values, or "pixiu.yaml" and "DEFAULT_GROUP" when these are empty, so they are never empty |
| `ConfigCenter.NacosConfig.constructor` | configcenter/nacos_load.go:74-76 | a new client has an empty remote-config slot |
| `ConfigCenter.NacosConfig.OnChange` | configcenter/nacos_load.go:132-148 | empty data or data that fails to parse leaves the slot unchanged; parsed data replaces it |
| `ConfigCenter.NacosConfig.ViewConfig` | configcenter/nacos_load.go:151-155 | returns the current slot without changing it |
| `ConfigCenter.NewNacosConfig` | configcenter/nacos_load.go:64-77 | an empty server list fails with "no Nacos server configured" without consulting the client constructor; otherwise a constructor failure is passed on, and a connected client starts with an empty slot |

## Findings

| source | as written | input that shows it | evidently intended | confidence | as-written member | corrected member |
|---|---|---|---|---|---|---|
| pkg/hotreload/logger.go:42-65 | with both sections present, returns false as soon as a compared field differs and true only when all are equal | old level "info", new level "debug", everything else equal: returns false, so the coordinator never applies the change; an unchanged snapshot returns true and is reloaded on every tick | returns true iff a compared field differs, which is what deciding "if a reload is needed" (doc comment, line 28) requires; the presence cases are kept from lines 33-39, since HotReload dereferences the new section (line 70), so an absent new section still gives false | high (not executed) | `LoggerReload.LevelChangeIsNotReloaded` | `LoggerReload.NeedsReload` |
| pkg/hotreload/logger.go:29-42 | when neither section is present, neither early return applies and line 42 dereferences the absent old section | a baseline and a remote snapshot that both lack a `log` section: the polling goroutine panics on its first tick | treat two absent sections as "no reload needed" | high (not executed) | `Coordinator.MissingLogSectionIsUncheckable` | `LoggerReload.NeedsReloadWithoutSections` |

The coordinator model keeps the predicate as written in both rows, because it describes
what the shipped loop does. `Coordinator.DefaultCycleIgnoresLevelChange`
and `Coordinator.DefaultCycleReloadsUnchangedSnapshot` show the effect on
one cycle. `LoggerReload.CheckUpdateIsNegatedNeedsReload` relates the two
predicates.

## Left out

- Goroutines, the WaitGroup, the mutexes and the polling sleep are not modelled. One cycle is a sequential loop, because the join comes before the commit. `Coordinator.Coordinator.Tick` is one iteration of the endless loop. Starting that goroutine is not modelled.
- Model.Build: the level written back into the receiver is returned as a value. In the source the receiver is the snapshot's own log section, which becomes the committed baseline. `LoggerReload.ReloadLogger` discards the updated receiver, so that aliasing is not captured.
- Controller.Controller.SetLoggerLevel: the source changes the level inside the config object that the old handle shares. Only the new handle's value is modelled, not the sharing.
- Model.Build: zap.ParseAtomicLevel is not modelled. The built level is the opaque `ParsedFrom(text)`, and logging a parse failure is left out.
- Building a zap logger is a total abstract constructor. `Sugar()`, the encoder functions, level filtering and all log output are not modelled. In the source a failed build is not reported: its error is discarded and `Sugar()` is called on the nil logger (pkg/logger/logger.go:102-103, pkg/logger/controller.go:44-45), so the process panics. The model has no failing build and so no such path.
- Logger.Installed: the default config starts from zap.NewDevelopmentConfig. Its values (debug level, development mode, "console" encoding, "stderr" for both path lists, no sampling) are taken from zap's documented preset, because zap's own source is not part of this model; the encoder config written over it comes from pkg/logger/logger.go:86-98.
- `log.Println("yes start")` in InitLogger is not modelled.
- File reading and YAML unmarshalling in InitLog, and the ".yml" parser in onChange, are function parameters.
- The Nacos SDK is not modelled: getNacosConfigClient, GetConfig and ListenConfig (configcenter/nacos_load.go:80-104, 107-129). Only the request parameters those calls receive are modelled. The error logging in onChange is left out.
- The config manager (pkg/config) is not part of this model. The coordinator holds only its identity, and a tick receives the snapshot its ViewRemoteConfig returned.
- Coordinator.Dispatch: a reloader other than the logger reloader is given only by its change predicate, its returned error and the invocation it receives. Its effect on its own subsystem is not modelled, and it is assumed to leave the logging slot alone; `Coordinator.HandleAfter`'s "unchanged otherwise" rests on that assumption.
- LoggerReload.CheckUpdate: when both logging sections are absent the source dereferences nil and panics. The model requires at least one section to be present; the second Findings row exhibits the case.
- Model.Bootstrap keeps only the logging section and the Nacos server list. The other sections of the snapshot are not part of this model.
- configcenter/load.go, pkg/adapter/dubboregistry/registry/zookeeper/registry.go, pkg/logger/output.go and pkg/logger/triple.go are not part of this model. The first two are config-center orchestration and ZooKeeper network plumbing. The last two only forward to the controller's read methods.
- Controller.ToLower: Go's strings.ToLower is Unicode-aware. The model lowers ASCII letters only.
