/**
 * The hot-reload coordinator (pkg/hotreload/hotreload.go): the reloader
 * contract, one evaluation cycle over the registered reloaders, the tick
 * of the polling loop, and the start-up guard. The concurrent dispatch is
 * joined before the commit, so one cycle is modelled as a sequential loop.
 */
module Coordinator {
  import opened Wrappers
  import opened Model
  import LoggerReload
  import Controller
  import Logger

  /**
   * An implementation of the HotReloader interface. LoggerReloader is the
   * one the source ships; External stands for any other implementation,
   * given by its change predicate and the error its HotReload returns.
   */
  datatype Reloader =
    | LoggerReloader
    | External(name: string, detect: (Bootstrap, Bootstrap) -> bool, failure: Option<string>)

  /** The identity of the config manager that supplies remote snapshots (pkg/config is not part of this model). */
  datatype ConfigManager = ConfigManager(id: nat)

  /** One dispatched HotReload call: which reloader, and the two snapshots it received. */
  datatype Call = Call(reloader: nat, oldConfig: Bootstrap, newConfig: Bootstrap)

  /** CheckUpdate can be asked without a nil dereference. */
  predicate CanCheck(r: Reloader, oldConfig: Bootstrap, newConfig: Bootstrap)
  {
    r.LoggerReloader? ==> oldConfig.log.Some? || newConfig.log.Some?
  }

  predicate AllCheckable(rs: seq<Reloader>, oldConfig: Bootstrap, newConfig: Bootstrap)
  {
    forall i :: 0 <= i < |rs| ==> CanCheck(rs[i], oldConfig, newConfig)
  }

  /** `HotReloader.CheckUpdate`, dispatched on the implementation. */
  function CheckUpdate(r: Reloader, oldConfig: Bootstrap, newConfig: Bootstrap): (changed: bool)
    requires CanCheck(r, oldConfig, newConfig)
    ensures r.LoggerReloader? ==> (changed <==> LoggerReload.CheckUpdate(oldConfig, newConfig))
    ensures r.External? ==> (changed <==> r.detect(oldConfig, newConfig))
  {
    match r
    case LoggerReloader => LoggerReload.CheckUpdate(oldConfig, newConfig)
    case External(_, detect, _) => detect(oldConfig, newConfig)
  }

  /** The error `HotReload` returns: the logger reloader never fails. */
  function Outcome(r: Reloader): (err: Option<string>)
    ensures r.LoggerReloader? ==> err.None?
    ensures r.External? ==> err == r.failure
  {
    match r
    case LoggerReloader => None
    case External(_, _, failure) => failure
  }

  /**
   * The indices below `upTo` of the reloaders whose CheckUpdate holds: each
   * such index exactly once, in registration order, and no other.
   */
  function Affected(rs: seq<Reloader>, upTo: nat, oldConfig: Bootstrap, newConfig: Bootstrap): (ix: seq<nat>)
    requires upTo <= |rs| && AllCheckable(rs, oldConfig, newConfig)
    ensures forall k :: 0 <= k < |ix| ==> ix[k] < upTo && CheckUpdate(rs[ix[k]], oldConfig, newConfig)
    ensures forall i :: 0 <= i < upTo && CheckUpdate(rs[i], oldConfig, newConfig) ==> i in ix
    ensures forall k, m :: 0 <= k < m < |ix| ==> ix[k] < ix[m]
  {
    if upTo == 0 then []
    else
      Affected(rs, upTo - 1, oldConfig, newConfig)
        + (if CheckUpdate(rs[upTo - 1], oldConfig, newConfig) then [upTo - 1] else [])
  }

  /** Some reloader below `upTo` reports a change. */
  predicate AnyChanged(rs: seq<Reloader>, upTo: nat, oldConfig: Bootstrap, newConfig: Bootstrap)
    requires upTo <= |rs| && AllCheckable(rs, oldConfig, newConfig)
  {
    exists i :: 0 <= i < upTo && CheckUpdate(rs[i], oldConfig, newConfig)
  }

  /** Some logger reloader below `upTo` reports a change. */
  predicate LoggerDispatched(rs: seq<Reloader>, upTo: nat, oldConfig: Bootstrap, newConfig: Bootstrap)
    requires upTo <= |rs| && AllCheckable(rs, oldConfig, newConfig)
  {
    exists i :: 0 <= i < upTo && rs[i].LoggerReloader? && CheckUpdate(rs[i], oldConfig, newConfig)
  }

  /** The handle a logger reload of `newConfig` installs. */
  function ReloadedHandle(newConfig: Bootstrap): Controller.Handle
    requires newConfig.log.Some?
  {
    Logger.Installed(Some(Build(newConfig.log.value).config))
  }

  /**
   * The live logger handle after the reloaders below `upTo` have been
   * dispatched, starting from `h`: each dispatched logger reloader installs
   * the handle built from the new section.
   */
  function HandleAfter(rs: seq<Reloader>, upTo: nat, oldConfig: Bootstrap, newConfig: Bootstrap, h: Controller.Handle)
    : (r: Controller.Handle)
    requires upTo <= |rs| && AllCheckable(rs, oldConfig, newConfig)
    ensures LoggerDispatched(rs, upTo, oldConfig, newConfig) ==> newConfig.log.Some? && r == ReloadedHandle(newConfig)
    ensures !LoggerDispatched(rs, upTo, oldConfig, newConfig) ==> r == h
  {
    if upTo == 0 then h
    else if rs[upTo - 1].LoggerReloader? && CheckUpdate(rs[upTo - 1], oldConfig, newConfig) then ReloadedHandle(newConfig)
    else HandleAfter(rs, upTo - 1, oldConfig, newConfig, h)
  }

  /** The calls made for the affected indices `ix`, all with the same two snapshots. */
  ghost function CallsOf(ix: seq<nat>, oldConfig: Bootstrap, newConfig: Bootstrap): seq<Call>
  {
    seq(|ix|, k requires 0 <= k < |ix| => Call(ix[k], oldConfig, newConfig))
  }

  /** How the cycle's running facts grow when reloader `i` is examined. */
  lemma CycleStep(rs: seq<Reloader>, i: nat, oldConfig: Bootstrap, newConfig: Bootstrap)
    requires i < |rs| && AllCheckable(rs, oldConfig, newConfig)
    ensures AnyChanged(rs, i + 1, oldConfig, newConfig)
            == (AnyChanged(rs, i, oldConfig, newConfig) || CheckUpdate(rs[i], oldConfig, newConfig))
    ensures Affected(rs, i + 1, oldConfig, newConfig)
            == Affected(rs, i, oldConfig, newConfig) + (if CheckUpdate(rs[i], oldConfig, newConfig) then [i] else [])
  {
  }

  /** Recording one more call. */
  lemma CallsOfAppend(ix: seq<nat>, j: nat, oldConfig: Bootstrap, newConfig: Bootstrap)
    ensures CallsOf(ix + [j], oldConfig, newConfig) == CallsOf(ix, oldConfig, newConfig) + [Call(j, oldConfig, newConfig)]
  {
  }

  /** A cycle commits exactly when at least one reloader was dispatched. */
  lemma {:induction false} AnyChangedIffDispatched(rs: seq<Reloader>, oldConfig: Bootstrap, newConfig: Bootstrap)
    requires AllCheckable(rs, oldConfig, newConfig)
    ensures AnyChanged(rs, |rs|, oldConfig, newConfig) <==> |Affected(rs, |rs|, oldConfig, newConfig)| > 0
  {
    var ix := Affected(rs, |rs|, oldConfig, newConfig);
    if |ix| > 0 {
      assert CheckUpdate(rs[ix[0]], oldConfig, newConfig);
    }
  }

  /**
   * What a reloader's HotReload returns does not steer the cycle: giving
   * another implementation a different outcome (an error or none) changes
   * neither which reloaders are dispatched nor whether the cycle commits.
   */
  lemma {:induction false} OutcomesDoNotSteerCycle(
    rs: seq<Reloader>, i: nat, failure: Option<string>, upTo: nat, oldConfig: Bootstrap, newConfig: Bootstrap)
    requires i < |rs| && rs[i].External? && upTo <= |rs| && AllCheckable(rs, oldConfig, newConfig)
    ensures AllCheckable(rs[i := rs[i].(failure := failure)], oldConfig, newConfig)
    ensures Affected(rs[i := rs[i].(failure := failure)], upTo, oldConfig, newConfig)
            == Affected(rs, upTo, oldConfig, newConfig)
    ensures AnyChanged(rs[i := rs[i].(failure := failure)], upTo, oldConfig, newConfig)
            == AnyChanged(rs, upTo, oldConfig, newConfig)
  {
    var rs' := rs[i := rs[i].(failure := failure)];
    assert forall j :: 0 <= j < |rs| ==> CheckUpdate(rs'[j], oldConfig, newConfig) == CheckUpdate(rs[j], oldConfig, newConfig);
    if upTo > 0 {
      OutcomesDoNotSteerCycle(rs, i, failure, upTo - 1, oldConfig, newConfig);
    }
  }

  /** A logger reloader is only dispatched when the new snapshot has a logging section. */
  lemma LoggerDispatchNeedsSection(rs: seq<Reloader>, oldConfig: Bootstrap, newConfig: Bootstrap)
    requires AllCheckable(rs, oldConfig, newConfig)
    requires LoggerDispatched(rs, |rs|, oldConfig, newConfig)
    ensures newConfig.log.Some?
  {
  }

  /**
   * The shipped coordinator, as written, on an unchanged snapshot with a
   * logging section: the logger reloader is dispatched on every tick.
   */
  lemma DefaultCycleReloadsUnchangedSnapshot(b: Bootstrap)
    requires b.log.Some?
    ensures Affected([LoggerReloader], 1, b, b) == [0]
  {
    LoggerReload.CheckUpdateReflexive(b);
  }

  /**
   * The shipped coordinator, as written, when only the level changes from
   * "info" to "debug": nothing is dispatched and the baseline stays.
   */
  lemma DefaultCycleIgnoresLevelChange(b: Bootstrap)
    requires b.log.Some? && b.log.value.level == "info"
    ensures var debug := b.(log := Some(b.log.value.(level := "debug")));
            Affected([LoggerReloader], 1, b, debug) == [] && !AnyChanged([LoggerReloader], 1, b, debug)
  {
    var debug := b.(log := Some(b.log.value.(level := "debug")));
    LoggerReload.LevelChangeIsNotReloaded(b);
    assert !CheckUpdate(LoggerReloader, b, debug);
  }

  /**
   * The shipped coordinator, as written, when neither the baseline nor the
   * remote snapshot has a logging section: the logger reloader cannot be
   * asked (its CheckUpdate dereferences the absent section), so no cycle
   * on such a pair is defined.
   */
  lemma MissingLogSectionIsUncheckable(b: Bootstrap)
    requires b.log.None?
    ensures !AllCheckable([LoggerReloader], b, b)
  {
    assert !CanCheck([LoggerReloader][0], b, b);
  }

  /** `equal`: an index loop over two string slices; it is sequence equality. */
  method Equal(s1: seq<string>, s2: seq<string>) returns (r: bool)
    ensures r <==> s1 == s2
  {
    if |s1| != |s2| {
      return false;
    }
    for i := 0 to |s1|
      invariant s1[..i] == s2[..i]
    {
      if s1[i] != s2[i] {
        return false;
      }
      assert s1[..i + 1] == s1[..i] + [s1[i]];
      assert s2[..i + 1] == s2[..i] + [s2[i]];
    }
    assert s1 == s1[..|s1|] && s2 == s2[..|s2|];
    return true;
  }

  /**
   * The HotReload invocations the registered implementations have received,
   * in order: the observable side of every dispatch, whatever the
   * implementation then does to its own subsystem.
   */
  class Trace {
    var calls: seq<Call>

    constructor ()
      ensures calls == []
    {
      calls := [];
    }

    /** Implementation `reloader` receives HotReload(oldConfig, newConfig). */
    method Receive(reloader: nat, oldConfig: Bootstrap, newConfig: Bootstrap)
      modifies this
      ensures calls == old(calls) + [Call(reloader, oldConfig, newConfig)]
    {
      calls := calls + [Call(reloader, oldConfig, newConfig)];
    }
  }

  /**
   * `HotReloader.HotReload` on the reloader registered at index `i`: the
   * invocation reaches that implementation, which records it in `trace`.
   * The logger reloader then installs a logger built from the new section;
   * what another implementation does to its own subsystem is outside this
   * model.
   */
  method Dispatch(r: Reloader, i: nat, control: Controller.Controller, trace: Trace, oldConfig: Bootstrap, newConfig: Bootstrap)
    returns (err: Option<string>)
    requires r.LoggerReloader? ==> newConfig.log.Some?
    modifies control, trace
    ensures trace.calls == old(trace.calls) + [Call(i, oldConfig, newConfig)]
    ensures err == Outcome(r)
    ensures r.LoggerReloader? ==> control.logger == ReloadedHandle(newConfig)
    ensures r.External? ==> control.logger == old(control.logger)
  {
    trace.Receive(i, oldConfig, newConfig);
    match r
    case LoggerReloader =>
      err := LoggerReload.ReloadLogger(control, oldConfig, newConfig);
    case External(_, _, failure) =>
      err := failure;
  }

  class Coordinator {
    var reloaders: seq<Reloader>
    var boot: Option<Bootstrap>
    var manager: Option<ConfigManager>

    /** The package-level `coordinator`: one logger reloader, not started. */
    constructor Default()
      ensures reloaders == [LoggerReloader]
      ensures boot == None && manager == None
    {
      reloaders := [LoggerReloader];
      boot := None;
      manager := None;
    }

    /** The polling loop runs only after StartHotReload has set both fields. */
    predicate Started()
      reads this
    {
      manager.Some? && boot.Some?
    }

    /**
     * `StartHotReload`: with a nil manager or a nil snapshot nothing
     * changes; otherwise both are recorded. (Launching the polling
     * goroutine is outside this model; Tick is one of its iterations.)
     */
    method StartHotReload(newManager: Option<ConfigManager>, newBoot: Option<Bootstrap>)
      modifies this
      ensures reloaders == old(reloaders)
      ensures newManager.None? || newBoot.None? ==> manager == old(manager) && boot == old(boot)
      ensures newManager.Some? && newBoot.Some? ==> manager == newManager && boot == newBoot
    {
      if newManager.None? || newBoot.None? {
        return;
      }
      manager := newManager;
      boot := newBoot;
    }

    /**
     * `hotReload`: ask every reloader whether `newBoot` changes its slice
     * of the baseline, dispatch HotReload(baseline, newBoot) to each one
     * that says so, whatever the others return, and afterwards commit
     * `newBoot` as the baseline iff at least one was dispatched. Each
     * dispatched implementation records its invocation in `trace`.
     */
    method HotReloadCycle(newBoot: Bootstrap, control: Controller.Controller, trace: Trace)
      requires boot.Some?
      requires AllCheckable(reloaders, boot.value, newBoot)
      modifies this, control, trace
      ensures reloaders == old(reloaders) && manager == old(manager)
      ensures trace.calls == old(trace.calls) + CallsOf(Affected(reloaders, |reloaders|, old(boot).value, newBoot), old(boot).value, newBoot)
      ensures boot == if AnyChanged(reloaders, |reloaders|, old(boot).value, newBoot) then Some(newBoot) else old(boot)
      ensures control.logger == HandleAfter(reloaders, |reloaders|, old(boot).value, newBoot, old(control.logger))
    {
      var baseline := boot.value;
      var changed := false;
      for i := 0 to |reloaders|
        invariant boot == old(boot) && reloaders == old(reloaders) && manager == old(manager)
        invariant changed == AnyChanged(reloaders, i, baseline, newBoot)
        invariant trace.calls == old(trace.calls) + CallsOf(Affected(reloaders, i, baseline, newBoot), baseline, newBoot)
        invariant control.logger == HandleAfter(reloaders, i, baseline, newBoot, old(control.logger))
      {
        var r := reloaders[i];
        CycleStep(reloaders, i, baseline, newBoot);
        if CheckUpdate(r, baseline, newBoot) {
          changed := true;
          // The source only logs the error.
          var _ := Dispatch(r, i, control, trace, baseline, newBoot);
          CallsOfAppend(Affected(reloaders, i, baseline, newBoot), i, baseline, newBoot);
        }
      }
      if changed {
        boot := Some(newBoot);
      }
    }

    /**
     * One iteration of `(*Coordinator).HotReload` after its sleep: `viewed`
     * is what the manager's ViewRemoteConfig returned. No snapshot means
     * no change at all; otherwise one cycle runs.
     */
    method Tick(viewed: Option<Bootstrap>, control: Controller.Controller, trace: Trace)
      requires Started()
      requires viewed.Some? ==> AllCheckable(reloaders, boot.value, viewed.value)
      modifies this, control, trace
      ensures Started() && reloaders == old(reloaders) && manager == old(manager)
      ensures viewed.None? ==> boot == old(boot) && control.logger == old(control.logger) && trace.calls == old(trace.calls)
      ensures viewed.Some? ==>
                && trace.calls == old(trace.calls) + CallsOf(Affected(reloaders, |reloaders|, old(boot).value, viewed.value), old(boot).value, viewed.value)
                && boot == (if AnyChanged(reloaders, |reloaders|, old(boot).value, viewed.value) then viewed else old(boot))
                && control.logger == HandleAfter(reloaders, |reloaders|, old(boot).value, viewed.value, old(control.logger))
    {
      if viewed.None? {
        return;
      }
      HotReloadCycle(viewed.value, control, trace);
    }
  }
}
