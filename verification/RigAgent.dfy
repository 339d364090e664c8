/**
 The rig agent object. Its tasks update its fields and the miner files in place; each is one
 step of AgentState, so what AgentRuns proves about runs of steps holds for runs of calls.
 */
module RigAgent {
  import opened Wrappers
  import opened Faults
  import opened Templates
  import opened StoreState
  import opened BinaryUpdate
  import opened AgentState
  import opened Tuning
  import opened PowerPolicy
  import opened OverclockTransition
  import AgentDuties

  /** What the host and the network do during one synchronisation. */
  datatype Surroundings = Surroundings(
    valid: bool, fansOk: bool, readings: seq<Gpu>, preflightOk: bool, start: Host, again: Host)

  /** The course of the work on the GPUs. */
  datatype Course = Course(enforced: nat, moved: nat, step: Option<Outcome>)

  /** Every reading is true. */
  ghost predicate AllTrue(cards: NvidiaHost, readings: seq<Gpu>)
    requires cards.Valid()
    reads cards
  {
    forall i :: 0 <= i < |readings| && readings[i].index in cards.gpus ==>
      readings[i].powerLimit == cards.registers[(readings[i].index, Power)] as real
  }

  /** How a synchronisation ended, with what became of the files. */
  datatype Ending =
    | Skipped                        // nothing to apply, or refused before any file was touched
    | Unprepared                     // a binary could not be prepared
    | PowerRefused                   // power limits could not be enforced: nothing is undone
    | OverclockRefused
    | StartFailed
    | Adopted

  function Second(next: Config): Package {
    if next.fallback.Some? then next.fallback.value.package else next.primary.package
  }

  /**
   A profile as the controller stores it: one that is absent or not for NVIDIA has no settings here,
   and nothing is negative.
   */
  ghost predicate Sane(p: Profile) {
    WellFormed(p) && NonNegative(p.settings)
  }

  /** Applying the profile sets the limit of every GPU, and no setting of it goes beyond the maximum. */
  ghost predicate LimitsAll(p: Profile, maximum: int) {
    && KeepsTo(p.settings, maximum)
    && forall g, before ::
         Covered(Effective(p), g, Power) && 0 < After(Effective(p), g, Power, before) <= maximum
  }

  /** Where there is a power limit and GPUs were reported, the profile keeps to it. */
  ghost predicate WithinLimit(next: Config, readings: seq<Gpu>) {
    next.maxPowerW > 0 && |readings| > 0 && Sane(next.overclock) ==> LimitsAll(next.overclock, next.maxPowerW)
  }

  function Paths(next: Config): set<Path> {
    {next.primary.package.path, Second(next).path}
  }

  /** The names a synchronisation may touch. */
  function Touchable(next: Config): set<Path> {
    Names(next.primary.package.path) + Names(Second(next).path)
  }

  ghost predicate BothObtainable(files: Files, digest: Content -> string, downloads: (Path, nat) -> Option<Content>,
      from: nat, next: Config)
  {
    Obtainable(files, digest, downloads, from, next.primary.package)
        && Obtainable(files, digest, downloads, from, Second(next))
  }

  predicate Ready(files: Files, digest: Content -> string, pkg: Package) {
    pkg.managed ==> Present(files, digest, pkg)
  }

  /** Both miner paths hold what they held. */
  ghost predicate BothAsBefore(files: Files, was: Files, next: Config) {
    forall p :: p in Paths(next) ==> SameAt(files, was, p)
  }

  /** A binary stays if and only if it was the right one already, or is not managed. */
  ghost predicate UntouchedIffReady(files: Files, was: Files, digest: Content -> string, next: Config) {
    BothAsBefore(files, was, next) <==> Ready(was, digest, next.primary.package) && Ready(was, digest, Second(next))
  }

  /** What the paths of a configuration held is guarded. */
  ghost predicate Guarding(files: Files, guarded: Files, safe: bool, next: Config, was: Files) {
    && safe && Recoverable(files, guarded) && Apart(next.primary.package, Second(next))
    && SameOutside(files, was, Touchable(next))
    && (forall p :: p in guarded <==> (p in Paths(next) && p in was))
    && (forall p :: p in guarded ==> guarded[p] == was[p])
  }

  /** No backup is left of a path whose content changed. */
  ghost predicate Cleaned(files: Files, was: Files, next: Config) {
    forall p :: p in Paths(next) && p in was && !SameAt(files, was, p) ==> Backup(p) !in files
  }

  /** The binary of a package was sound, and is not in the way of the names a synchronisation touches. */
  ghost predicate Intact(pkg: Package, digest: Content -> string, was: Files, next: Config) {
    (pkg.managed ==> Present(was, digest, pkg)) && (pkg.path in Paths(next) || pkg.path !in Touchable(next))
  }

  /**
   What each ending means for the files: `was` before any binary was prepared, `ready` with
   both prepared, `files` in the end; `previous` is the binary of the configuration before, and
   quiet says that no file operation failed.
   */
  ghost predicate FilesAfter(end: Ending, quiet: bool, files: Files, ready: Files, was: Files,
      digest: Content -> string, previous: Package, next: Config)
  {
    match end
    case Skipped => files == was
    case Unprepared => quiet ==> BothAsBefore(files, was, next)
    case PowerRefused => files == ready
    case OverclockRefused => quiet ==> BothAsBefore(files, was, next)
    case StartFailed => quiet && Intact(previous, digest, was, next) ==> BothAsBefore(files, was, next)
    case Adopted =>
      && Ready(files, digest, next.primary.package) && Ready(files, digest, Second(next))
      && (quiet ==> Cleaned(files, was, next))
  }

  /** A replaced binary whose start failed gives way to the previous miner, where there was one. */
  predicate Restartable(before: AgentState.Agent, u: AgentState.Undo) {
    u.replaced && before.config.primary.profile != "" && before.config.primary.package.complete ==>
        RestoresPrimary(before, u)
  }

  /**
   No file operation and no GPU command fails, both binaries can be had, the GPUs allow the change,
   and the miner starts.
   */
  predicate NothingFails(files: bool, commands: bool, binaries: bool, cards: bool, started: bool) {
    files && commands && binaries && cards && started
  }

  /**
   A GPU of a vendor whose limits cannot be set, reporting none: the ceiling of 200 W is refused
   on any hardware, and the new binary stays in place of the old one.
   */
  lemma PowerRefusedKeepsNewBinary(cards: NvidiaHost, digest: Content -> string)
    ensures var next :=
            NO_CONFIG.(maxPowerW := 200, primary := NO_WORK.(package := Package(true, true, "miner", false, "new")));
            var was, ready := map["miner" := [1]], map["miner" := [2], "miner.previous" := [1]];
            && !cards.Enforceable(next.maxPowerW, [Gpu(0, "INTEL", 0.0, 0.0, 0.0)])
            && InPlace(Update("miner", true, false), ready, was)
            && FilesAfter(PowerRefused, true, ready, ready, was, digest, NO_WORK.package, next)
                && !BothAsBefore(ready, was, next)
  {
    var next := NO_CONFIG.(maxPowerW := 200,
        primary := NO_WORK.(package := Package(true, true, "miner", false, "new")));
    var was: Files, ready: Files := map["miner" := [1]], map["miner" := [2], "miner.previous" := [1]];
    assert Backup("miner") == "miner.previous";
    NamesDiffer("miner");
    assert "miner" in Paths(next) && ready["miner"][0] != was["miner"][0];
    assert !SameAt(ready, was, "miner");
    var readings := [Gpu(0, "INTEL", 0.0, 0.0, 0.0)];
    assert readings[0].vendor[0] != "NVIDIA"[0] && !Within(readings[0], 200);
  }

  /**
   Adoption records the new configuration and its revision, runs its primary, and forgets the failover
   and the stop for heat; any other ending keeps configuration, revision, failover and that stop.
   */
  predicate Recorded(end: Ending, before: AgentState.Agent, after: AgentState.Agent, next: Config) {
    && after.lowSince == before.lowSince && after.failures == before.failures
    && if end.Adopted? then
         && after.config == next && after.applied == next.revision
         && after.failover == Failover(false, None, None, Off) && !after.watchdogStopped
         && after.running == (if next.primary.profile != "" then Some(next.primary) else None)
       else SameButRunning(before, after)
  }

  predicate SameButRunning(before: AgentState.Agent, after: AgentState.Agent) {
    after == before.(running := after.running)
  }

  /** Endings that leave the files as they are. */
  lemma EarlyEnding(end: Ending, quiet: bool, files: Files, was: Files, digest: Content -> string, previous: Package,
      next: Config, before: AgentState.Agent, after: AgentState.Agent)
    requires end.PowerRefused? || (end.Unprepared? && (quiet ==> BothAsBefore(files, was, next)))
             || (end.Skipped? && files == was)
    requires SameButRunning(before, after)
    ensures FilesAfter(end, quiet, files, files, was, digest, previous, next) && Recorded(end, before, after, next)
  {
  }

  /** What holds where the later operations did not fail holds where none failed. */
  lemma QuietThroughout(end: Ending, part: bool, whole: bool, files: Files, ready: Files, was: Files,
      digest: Content -> string, previous: Package, next: Config)
    requires FilesAfter(end, part, files, ready, was, digest, previous, next) && (whole ==> part)
    ensures FilesAfter(end, whole, files, ready, was, digest, previous, next)
  {
    hide BothAsBefore, Intact, Cleaned, Ready;
  }

  /** The update made for a package, if one was needed, is in place. */
  ghost predicate Updated(u: Option<Update>, pkg: Package, files: Files, was: Files) {
    if u.Some? then u.value.destination == pkg.path && InPlace(u.value, files, was) && !SameAt(files, was, pkg.path)
    else SameAt(files, was, pkg.path)
  }

  /** The updates made for the two binaries; one path needs at most one. */
  ghost predicate Prepared(next: Config, a: Option<Update>, b: Option<Update>, files: Files, was: Files) {
    && Updated(a, next.primary.package, files, was)
    && (if next.primary.package.path == Second(next).path then b.None? else Updated(b, Second(next), files, was))
  }

  class Agent {
    const fs: FileSystem
    const cards: NvidiaHost
    var configuration: Config
    var appliedRevision: nat
    var failover: Failover
    var watchdogStopped: bool
    var lowHashSince: Option<int>
    var watchdogFailures: nat
    var running: Option<Work>

    ghost function View(): AgentState.Agent
      reads this
    {
      AgentState.Agent(configuration, appliedRevision, failover, watchdogStopped, lowHashSince, watchdogFailures,
          running)
    }

    constructor (fs: FileSystem, cards: NvidiaHost)
      ensures this.fs == fs && this.cards == cards && View() == BOOTED
    {
      this.fs, this.cards := fs, cards;
      configuration := NO_CONFIG;
      appliedRevision := 0;
      failover := RESET;
      watchdogStopped := false;
      lowHashSince := None;
      watchdogFailures := 0;
      running := None;
    }

    // ----- the miner process -----

    method StopMiner(h: Host) returns (ok: bool)
      modifies `running
      ensures Launch(ok, running) == Stop(old(running), h)
    {
      if running.None? { return true; }
      if !h.stopOk { return false; }
      running := None;
      ok := true;
    }

    /** startCPUWorkload, then StartWorkload */
    method StartWorkload(work: Work, maxPowerW: int, h: Host) returns (ok: bool)
      modifies `running
      ensures Launch(ok, running) == Start(old(running), work, maxPowerW, h)
    {
      if maxPowerW > 0 && h.gpus && !h.powerOk {
        var _ := StopMiner(h);
        return false;
      }
      ok := StopMiner(h);
      if !ok || work.profile == "" { return; }
      if !h.startOk { return false; }
      running := Some(work);
    }

    method StartActiveWorkload(h: Host) returns (ok: bool)
      modifies `running
      ensures Launch(ok, running) == StartActive(old(View()), h)
    {
      if failover.active && configuration.fallback.Some? {
        ok := StartWorkload(configuration.fallback.value, configuration.maxPowerW, h);
      } else {
        ok := StartWorkload(configuration.primary, configuration.maxPowerW, h);
      }
    }

    // ----- failover -----

    /** reconcileEpicFailover */
    method ReconcileFailover(p: Probe, now: int, h: Host)
      modifies this
      ensures View() == Reconcile(old(View()), p, now, h)
    {
      hide Fold, Start, Stop, FailoverDelay, FailoverWait;
      if !configuration.primary.epic || configuration.fallback.None? {
        failover := RESET;
        return;
      }
      var primaryAvailable := !p.failed && Fold(p.algorithm) == Fold(configuration.primary.algorithm);
      if !failover.active && p.failed && running.Some? && p.hashrate > 0.0 {
        primaryAvailable := true;
      }
      if primaryAvailable {
        failover := failover.(unavailableSince := None);
        if !failover.active {
          failover := failover.(availableSince := None, phase := OnPrimary);
          return;
        }
        if failover.availableSince.None? {
          failover := failover.(availableSince := Some(now));
        }
        failover := failover.(phase := Returning);
        if now - failover.availableSince.value < FailoverDelay(configuration.returnAfter) || watchdogStopped { return; }
        var ok := StartWorkload(configuration.primary, configuration.maxPowerW, h);
        if !ok { return; }
        failover := failover.(active := false, availableSince := None, phase := OnPrimary);
        lowHashSince := None;
        watchdogFailures := 0;
        return;
      }
      failover := failover.(availableSince := None);
      if failover.unavailableSince.None? {
        failover := failover.(unavailableSince := Some(now));
      }
      if failover.active {
        failover := failover.(phase := OnFallback);
        return;
      }
      failover := failover.(phase := Waiting);
      if now - failover.unavailableSince.value < FailoverWait(configuration.failoverAfter, p.failed) || watchdogStopped
      {
        return;
      }
      var ok := StartWorkload(configuration.fallback.value, configuration.maxPowerW, h);
      if !ok { return; }
      failover := failover.(active := true, phase := OnFallback);
      lowHashSince := None;
      watchdogFailures := 0;
    }

    // ----- watchdog -----

    static method AnyTooHot(m: Metrics, limit: real) returns (hot: bool)
      ensures hot == TooHot(m, limit)
    {
      for i := 0 to |m.temperatures|
        invariant forall j :: 0 <= j < i ==> m.temperatures[j] < limit
      {
        if m.temperatures[i] >= limit { return true; }
      }
      hot := false;
    }

    /** enforceWatchdog */
    method EnforceWatchdog(m: Metrics, now: int, h: Host) returns (reboot: bool)
      modifies this
      ensures View() == Watch(old(View()), m, now, h).agent
      ensures reboot <==> Watch(old(View()), m, now, h).verdict.Rebooted?
    {
      hide TooHot, Start, Stop, RestartDelay;
      var policy := configuration.watchdog;
      reboot := false;
      if !policy.enabled || policy.maxTemperature <= 0.0 { return; }
      var tooHot := AnyTooHot(m, policy.maxTemperature);
      if tooHot && !watchdogStopped {
        var stopped := StopMiner(h);
        if stopped { watchdogStopped := true; }
        return;
      }
      if !tooHot && watchdogStopped {
        var started := StartActiveWorkload(h);
        if !started { return; }
        watchdogStopped := false;
      }
      if watchdogStopped || policy.minHashrate <= 0.0 || !m.minerRunning || m.tuning {
        lowHashSince := None;
        return;
      }
      if m.hashrate >= policy.minHashrate {
        lowHashSince := None;
        watchdogFailures := 0;
        return;
      }
      if lowHashSince.None? {
        lowHashSince := Some(now);
        return;
      }
      if now - lowHashSince.value < RestartDelay(policy) { return; }
      lowHashSince := Some(now);
      watchdogFailures := watchdogFailures + 1;
      if policy.rebootAfter > 0 && watchdogFailures >= policy.rebootAfter { return true; }
      var _ := StartActiveWorkload(h);
    }

    // ----- configuration -----

    /**
     Both binaries made ready; if the fallback's cannot be, the primary's is undone. After a
     failure both paths hold what they held where no operation failed, and the primary's does
     where the operations that undid it did not fail.
     */
    method PrepareBinaries(next: Config) returns (ok: bool, primary: Option<Update>, second: Option<Update>)
      requires Guarding(fs.files, fs.guarded, fs.safe, next, fs.files)
      modifies fs`files, fs`operations, fs`requests, fs`safe
      ensures Guarding(fs.files, fs.guarded, fs.safe, next, old(fs.files)) && fs.operations >= old(fs.operations)
      ensures ok ==> && Ready(fs.files, fs.digest, next.primary.package) && Ready(fs.files, fs.digest, Second(next))
                     && Prepared(next, primary, second, fs.files, old(fs.files))
                     && UntouchedIffReady(fs.files, old(fs.files), fs.digest, next)
      ensures !ok && Quiet(fs.faults, fs.operations - (if primary.None? then 1 else Steps(primary)), fs.operations) ==>
                SameAt(fs.files, old(fs.files), next.primary.package.path)
      ensures !ok && Quiet(fs.faults, old(fs.operations), fs.operations) ==> BothAsBefore(fs.files, old(fs.files), next)
      ensures Quiet(fs.faults, old(fs.operations), fs.operations) ==>
                BothObtainable(old(fs.files), fs.digest, fs.downloads, old(fs.requests), next) ==> ok
    {
      hide Recoverable;
      second := None;
      ok, primary := Ensure(fs, next.primary.package);
      if !ok || next.fallback.None? { return; }
      ok, second := PrepareSecond(next, primary, old(fs.files));
    }

    /** The fallback's binary made ready, or the primary's undone. */
    method PrepareSecond(next: Config, primary: Option<Update>, ghost was: Files)
      returns (ok: bool, second: Option<Update>)
      requires Guarding(fs.files, fs.guarded, fs.safe, next, was) && next.fallback.Some?
      requires Ready(fs.files, fs.digest, next.primary.package) && Updated(primary, next.primary.package, fs.files, was)
      requires primary.Some? ==> next.primary.package.managed
      requires next.primary.package.path != Second(next).path ==> SameAt(fs.files, was, Second(next).path)
      modifies fs`files, fs`operations, fs`requests, fs`safe
      ensures Guarding(fs.files, fs.guarded, fs.safe, next, was) && fs.operations >= old(fs.operations)
      ensures ok ==> && Ready(fs.files, fs.digest, next.primary.package) && Ready(fs.files, fs.digest, Second(next))
                     && Prepared(next, primary, second, fs.files, was)
      ensures ok ==> && (SameAt(fs.files, was, next.primary.package.path) <==>
                           SameAt(old(fs.files), was, next.primary.package.path))
                     && (next.primary.package.path != Second(next).path ==>
                           (SameAt(fs.files, was, Second(next).path) <==> Ready(was, fs.digest, Second(next))))
      ensures !ok && Quiet(fs.faults, fs.operations - Steps(primary), fs.operations) ==>
              SameAt(fs.files, was, next.primary.package.path)
      ensures !ok && Quiet(fs.faults, old(fs.operations), fs.operations) ==> BothAsBefore(fs.files, was, next)
      ensures Quiet(fs.faults, old(fs.operations), fs.operations) ==>
                Obtainable(old(fs.files), fs.digest, fs.downloads, old(fs.requests), Second(next)) ==> ok
    {
      ghost var earlier := fs.files;
      ok, second := Ensure(fs, next.fallback.value.package);
      if next.primary.package.path != Second(next).path {
        Elsewhere(primary, next.primary.package, earlier, fs.files, was, Second(next).path);
      }
      if !ok {
        var _ := UndoOne(next, next.primary.package, primary, was);
      }
    }

    /** What an update of another path put in place is still there. */
    static lemma Elsewhere(u: Option<Update>, pkg: Package, before: Files, after: Files, was: Files, p: Path)
      requires Updated(u, pkg, before, was) && SameOutside(after, before, Names(p)) && Names(p) !! Names(pkg.path)
      ensures Updated(u, pkg, after, was)
    {
    }

    /** One of the two updates undone. */
    method UndoOne(next: Config, pkg: Package, u: Option<Update>, ghost was: Files) returns (ok: bool)
      requires Guarding(fs.files, fs.guarded, fs.safe, next, was) && Updated(u, pkg, fs.files, was)
               && pkg.path in Paths(next)
      modifies fs`files, fs`operations, fs`requests, fs`safe
      ensures Guarding(fs.files, fs.guarded, fs.safe, next, was)
              && SameOutside(fs.files, old(fs.files), Names(pkg.path))
      ensures old(fs.operations) <= fs.operations <= old(fs.operations) + Steps(u)
      ensures ok <==> Quiet(fs.faults, old(fs.operations), fs.operations)
      ensures ok ==> SameAt(fs.files, was, pkg.path)
      ensures u.None? ==> ok
    {
      ok := BinaryUpdate.Undo(fs, u, was);
    }

    /** The two updates undone, the second whatever becomes of the first. */
    method UndoBoth(next: Config, a: Option<Update>, b: Option<Update>, secondFirst: bool, ghost was: Files)
      returns (okA: bool, okB: bool)
      requires Guarding(fs.files, fs.guarded, fs.safe, next, was) && Prepared(next, a, b, fs.files, was)
      modifies fs`files, fs`operations, fs`requests, fs`safe
      ensures Guarding(fs.files, fs.guarded, fs.safe, next, was) && fs.operations >= old(fs.operations)
      ensures okA && okB <==> Quiet(fs.faults, old(fs.operations), fs.operations)
      ensures okA && okB ==> BothAsBefore(fs.files, was, next)
      ensures a.None? ==> okA
    {
      hide Recoverable, InPlace;
      ghost var first, second := next.primary.package, Second(next);
      ghost var earlier := fs.files;
      okB := true;
      if secondFirst && b.Some? {
        okB := UndoOne(next, Second(next), b, was);
        Elsewhere(a, first, earlier, fs.files, was, second.path);
      }
      ghost var middle := fs.files;
      okA := UndoOne(next, next.primary.package, a, was);
      if !secondFirst && b.Some? {
        Elsewhere(b, second, middle, fs.files, was, first.path);
        okB := UndoOne(next, Second(next), b, was);
      }
    }

    /** The backups of updates that came through. Failures are only logged. */
    method CommitBoth(next: Config, a: Option<Update>, b: Option<Update>, ghost was: Files)
      requires Guarding(fs.files, fs.guarded, fs.safe, next, was) && Prepared(next, a, b, fs.files, was)
      requires Ready(fs.files, fs.digest, next.primary.package) && Ready(fs.files, fs.digest, Second(next))
      modifies fs
      ensures fs.safe && fs.operations >= old(fs.operations)
      ensures Ready(fs.files, fs.digest, next.primary.package) && Ready(fs.files, fs.digest, Second(next))
      ensures Quiet(fs.faults, old(fs.operations), fs.operations) ==> Cleaned(fs.files, was, next)
    {
      NamesDiffer(next.primary.package.path);
      NamesDiffer(Second(next).path);
      fs.Release();
      if a.Some? {
        var _ := fs.Commit(a.value);
      }
      if b.Some? {
        var _ := fs.Commit(b.value);
      }
    }

    /** The previous miner's binary is looked at again, and the miner started. */
    method RestartPrevious(again: Host) returns (prepareOk: bool)
      requires fs.Safe() && fs.guarded == map[]
      modifies this`running, fs`files, fs`operations, fs`requests, fs`safe
      ensures fs.safe && fs.operations >= old(fs.operations)
      ensures Ready(old(fs.files), fs.digest, configuration.primary.package) ==> fs.files == old(fs.files)
      ensures Quiet(fs.faults, old(fs.operations), fs.operations) ==>
                var pkg := configuration.primary.package;
                pkg.complete && Ready(old(fs.files), fs.digest, pkg) ==> prepareOk
      ensures running == if prepareOk
                         then Start(old(running), configuration.primary, configuration.maxPowerW, again).running
                         else old(running)
    {
      hide Start, Stop;
      var ok, _ := Ensure(fs, configuration.primary.package);
      prepareOk := ok;
      if prepareOk {
        var _ := StartWorkload(configuration.primary, configuration.maxPowerW, again);
      }
    }

    /** The new primary did not start: binaries back, and with a new primary binary the previous miner again. */
    method RecoverFromFailedStart(next: Config, a: Option<Update>, b: Option<Update>, again: Host, ghost was: Files)
      returns (ghost u: AgentState.Undo)
      requires Guarding(fs.files, fs.guarded, fs.safe, next, was) && Prepared(next, a, b, fs.files, was)
      modifies this`running, fs
      ensures fs.safe && fs.operations >= old(fs.operations)
      ensures u.replaced <==> a.Some?
      ensures Quiet(fs.faults, old(fs.operations), fs.operations) ==>
                Intact(configuration.primary.package, fs.digest, was, next) ==> Restartable(old(View()), u)
      ensures Quiet(fs.faults, old(fs.operations), fs.operations) ==> u.undoOk
      ensures Quiet(fs.faults, old(fs.operations), fs.operations) ==>
                Intact(configuration.primary.package, fs.digest, was, next) ==> BothAsBefore(fs.files, was, next)
      ensures View() == AfterFailedStart(old(View()), u, old(running), again)
    {
      hide Start, Stop, Prepared;
      var okA, okB := UndoBoth(next, a, b, true, was);
      u := AgentState.Undo(a.Some?, okA, false);
      fs.Release();
      if a.None? || !okA || configuration.primary.profile == "" { return; }
      var prepared := RestartPrevious(again);
      u := u.(prepareOk := prepared);
    }

    method Adopt(next: Config)
      modifies `configuration, `failover, `watchdogStopped, `appliedRevision
      ensures View() == old(View()).(config := next, applied := next.revision, failover := RESET,
              watchdogStopped := false)
    {
      configuration := next;
      failover := RESET;
      watchdogStopped := false;
      appliedRevision := next.revision;
    }

    /** The new primary is started; the updates are committed, or undone. */
    method GoLivePrepared(next: Config, a: Option<Update>, b: Option<Update>, start: Host, again: Host,
        ghost was: Files)
      returns (ok: bool, ghost u: AgentState.Undo, ghost end: Ending)
      requires Guarding(fs.files, fs.guarded, fs.safe, next, was) && Prepared(next, a, b, fs.files, was)
      requires Ready(fs.files, fs.digest, next.primary.package) && Ready(fs.files, fs.digest, Second(next))
      modifies this, fs
      ensures View() == GoLive(old(View()), next, start, u, again)
      ensures fs.safe && fs.operations >= old(fs.operations)
      ensures ok <==> end.Adopted?
      ensures end.Adopted? || end.StartFailed?
      ensures end.Adopted? <==> Start(old(running), next.primary, next.maxPowerW, start).ok
      ensures end.StartFailed? ==>
              (u.replaced <==> a.Some?) && (Quiet(fs.faults, old(fs.operations), fs.operations) ==> u.undoOk)
      ensures end.StartFailed? && Quiet(fs.faults, old(fs.operations), fs.operations)
              && old(Intact(configuration.primary.package, fs.digest, was, next)) ==>
                Restartable(old(View()), u)
      ensures Recorded(end, old(View()), View(), next)
      ensures FilesAfter(end, Quiet(fs.faults, old(fs.operations), fs.operations), fs.files, old(fs.files), was,
              fs.digest, old(configuration.primary.package), next)
    {
      hide Guarding, Prepared, Ready, Start, Stop, BothAsBefore, Intact, Cleaned, Quiet;
      var started := StartWorkload(next.primary, next.maxPowerW, start);
      if !started {
        u := RecoverFromFailedStart(next, a, b, again, was);
        return false, u, StartFailed;
      }
      AgentDuties.StartSucceedsIff(old(running), next.primary, next.maxPowerW, start);
      CommitBoth(next, a, b, was);
      Adopt(next);
      return true, AgentState.Undo(false, false, false), Adopted;
    }

    /** What the GPUs must be for the step to the new overclock to be possible at all. */
    ghost predicate StepAllowed(next: Config, preflightOk: bool)
      reads this`configuration
    {
      configuration.overclock == next.overclock ||
      (&& (next.overclock.id != "" && next.overclock.vendor == "NVIDIA" ==> preflightOk)
       && cards.Resettable(Removed(configuration.overclock, next.overclock)) && cards.Applicable(next.overclock))
    }

    /** What they must be for the power limit of a configuration to be possible. */
    predicate LimitAllowed(next: Config, readings: seq<Gpu>) {
      next.maxPowerW > 0 ==> cards.Enforceable(next.maxPowerW, readings)
    }

    ghost predicate CardsAllow(next: Config, readings: seq<Gpu>, preflightOk: bool)
      reads this`configuration
    {
      LimitAllowed(next, readings) && StepAllowed(next, preflightOk)
    }

    /** The limits of a configuration matter, and everything known about the GPUs is in order. */
    ghost predicate LimitsKnown(next: Config, readings: seq<Gpu>)
      requires cards.Valid()
      reads this`configuration, cards
    {
      && next.maxPowerW > 0 && |readings| > 0 && Sane(next.overclock)
      && cards.Truthful(readings, next.maxPowerW)
    }

    /**
     Power limits, then the step from the recorded overclock to the new one; limits once more if
     that fails. The course tells the numbers of the first command after the limits and of the
     first after the step, and how the step ended, if it was tried.
     */
    method PrepareCards(next: Config, readings: seq<Gpu>, preflightOk: bool)
      returns (powerOk: bool, overclockOk: bool, limitsOk: bool, ghost course: Course)
      requires cards.Valid() && WithinLimit(next, readings)
      modifies cards`registers, cards`commands
      ensures cards.Valid() && old(cards.commands) <= course.enforced <= course.moved <= cards.commands
      // when each of the three succeeds
      ensures powerOk <==>
                || next.maxPowerW <= 0
                || (Quiet(cards.faults, old(cards.commands), course.enforced) && LimitAllowed(next, readings))
      ensures overclockOk <==>
                powerOk && Quiet(cards.faults, course.enforced, course.moved) && StepAllowed(next, preflightOk)
      ensures limitsOk <==> && powerOk && !overclockOk && next.maxPowerW > 0
                            && Quiet(cards.faults, course.moved, cards.commands) && LimitAllowed(next, readings)
      ensures powerOk && overclockOk <==>
                CardsAllow(next, readings, preflightOk) && Quiet(cards.faults, old(cards.commands), cards.commands)
      ensures powerOk <==> course.step.Some?
      ensures overclockOk <==> course.step.Some? && (course.step.value.Applied? || course.step.value.Unchanged?)
      // what they leave
      ensures powerOk && overclockOk && Sane(next.overclock) && old(cards.Holds(configuration.overclock)) ==>
                (configuration.overclock == next.overclock ==> old(AllTrue(cards, readings))) ==>
                cards.Holds(next.overclock)
      ensures limitsOk && old(LimitsKnown(next, readings)) ==>
                cards.RefusalLeaves(course.step.value, configuration.overclock, readings, next.maxPowerW)
      ensures powerOk && course.step == Some(RolledBack) && old(cards.Holds(configuration.overclock)) ==>
                cards.ControlsBack(configuration.overclock, next.overclock)
    {
      hide Sane, Effective, After, NvidiaHost.Enforceable, NvidiaHost.Resettable, NvidiaHost.Applicable, Quiet,
           NvidiaHost.Impossible, Covered, OnlyStock, LimitsAll, Lowered, Listed, NvidiaHost.RefusalLeaves,
           NvidiaHost.ControlsBack, NvidiaHost.Truthful;
      powerOk, overclockOk, limitsOk := true, false, false;
      course := Course(cards.commands, cards.commands, None);
      NothingYet(cards.faults, cards.commands);
      NothingToEnforce(next, readings);
      if next.maxPowerW > 0 && |readings| > 0 {
        powerOk := cards.EnforceLimit(next.maxPowerW, readings);
        course := course.(enforced := cards.commands, moved := cards.commands);
        if !powerOk { return; }
      }
      ghost var known := old(LimitsKnown(next, readings));
      ghost var held := old(cards.Holds(configuration.overclock));
      ghost var exact := held && (next.maxPowerW <= 0 || |readings| == 0 ||
                                  (configuration.overclock == next.overclock && Sane(next.overclock)
                                      && old(AllTrue(cards, readings))));
      if exact && next.maxPowerW > 0 && |readings| > 0 {
        NothingLowered(old(cards.registers), next, readings);
      }
      overclockOk, limitsOk, course := StepCards(next, readings, preflightOk, known, held, exact, course);
      QuietBoth(cards.faults, old(cards.commands), course.enforced, cards.commands);
      QuietBoth(cards.faults, course.enforced, course.moved, cards.commands);
    }

    lemma NothingLowered(was: Registers, next: Config, readings: seq<Gpu>)
      requires cards.Valid() && forall g, f: Field :: g in cards.gpus ==> (g, f) in was
      requires forall g, f: Field :: g in cards.gpus ==>
               was[(g, f)] == After(Effective(next.overclock), g, f, cards.Default(g, f))
      requires forall i :: 0 <= i < |readings| && readings[i].index in cards.gpus ==>
                 readings[i].powerLimit == was[(readings[i].index, Power)] as real
      requires LimitsAll(next.overclock, next.maxPowerW)
      ensures forall g :: g in cards.gpus ==> !Lowered(readings, next.maxPowerW, g)
    {
    }

    /**
     The step, from GPUs whose limits may have been set before. held: their other controls hold
     the recorded profile; exact: their limits do, too.
     */
    method StepCards(next: Config, readings: seq<Gpu>, preflightOk: bool, ghost known: bool, ghost held: bool,
        ghost exact: bool, ghost before: Course)
      returns (overclockOk: bool, limitsOk: bool, ghost course: Course)
      requires cards.Valid() && WithinLimit(next, readings) && before.enforced == cards.commands
      requires known ==> next.maxPowerW > 0 && |readings| > 0 && Sane(next.overclock)
      requires known ==> forall g :: g in cards.gpus && Listed(readings, g) ==>
               0 < cards.registers[(g, Power)] <= next.maxPowerW
      requires held ==> forall g, f: Field :: g in cards.gpus && (exact || !f.Power?) ==>
                 cards.registers[(g, f)] == After(Effective(configuration.overclock), g, f, cards.Default(g, f))
      requires held && !exact ==> next.maxPowerW > 0 && |readings| > 0
      modifies cards`registers, cards`commands
      ensures cards.Valid() && course.enforced == before.enforced <= course.moved <= cards.commands && course.step.Some?
      ensures overclockOk <==> Quiet(cards.faults, course.enforced, course.moved) && StepAllowed(next, preflightOk)
      ensures overclockOk <==> course.step.value.Applied? || course.step.value.Unchanged?
      ensures course.step.value.Unchanged? <==> configuration.overclock == next.overclock
      ensures overclockOk ==> course.moved == cards.commands
      ensures limitsOk <==> !overclockOk && next.maxPowerW > 0
                            && Quiet(cards.faults, course.moved, cards.commands) && LimitAllowed(next, readings)
      ensures limitsOk && known ==>
              cards.RefusalLeaves(course.step.value, configuration.overclock, readings, next.maxPowerW)
      ensures held && overclockOk && Sane(next.overclock) && (course.step.value.Unchanged? ==> exact) ==>
              cards.Holds(next.overclock)
      ensures held && course.step.value.RolledBack? ==> cards.ControlsBack(configuration.overclock, next.overclock)
    {
      hide Sane, Effective, After, NvidiaHost.Enforceable, NvidiaHost.Resettable, NvidiaHost.Applicable, Quiet,
           NvidiaHost.Impossible, Covered, OnlyStock, Lowered, Listed, AllTrue, NvidiaHost.Truthful,
           NvidiaHost.Undone, NvidiaHost.Halfway, NvidiaHost.Cleared, KeepsTo, SetsAbove;
      limitsOk := false;
      NothingYet(cards.faults, cards.commands);
      ghost var start := cards.registers;
      ghost var trail;
      var outcome;
      outcome, trail := cards.Transition(configuration.overclock, next.overclock, preflightOk);
      course := before.(moved := cards.commands, step := Some(outcome));
      overclockOk := outcome.Applied? || outcome.Unchanged?;
      if held && outcome.Applied? && Sane(next.overclock) {
        AppliedHolds(configuration.overclock, next.overclock, start, exact, next.maxPowerW);
      }
      if overclockOk || next.maxPowerW <= 0 { return; }
      ghost var moved := cards.registers;
      limitsOk := cards.EnforceLimit(next.maxPowerW, readings);
      if limitsOk && known {
        forall g | g in cards.gpus && Listed(readings, g)
          ensures 0 < moved[(g, Power)]
          ensures moved[(g, Power)] > next.maxPowerW ==>
                    (outcome.RolledBack? || outcome.Broken?)
                        && SetsAbove(Effective(configuration.overclock), g, next.maxPowerW)
          ensures outcome.RolledBack? ==>
                    (moved[(g, Power)] > next.maxPowerW <==>
                     After(Effective(configuration.overclock), g, Power, next.maxPowerW) > next.maxPowerW)
        {
          RefusedLimit(cards, outcome, trail, configuration.overclock, next.overclock, next.maxPowerW, g,
              start[(g, Power)], moved[(g, Power)]);
        }
      }
    }

    /** A clean application, whatever the limits were before where the next profile sets them all. */
    lemma AppliedHolds(previous: Profile, next: Profile, start: Registers, exact: bool, maximum: int)
      requires cards.Valid() && Sane(next) && (!exact ==> LimitsAll(next, maximum))
      requires forall g, f: Field :: g in cards.gpus ==> (g, f) in start
      requires forall g, f: Field :: g in cards.gpus && (exact || !f.Power?) ==>
                 start[(g, f)] == After(Effective(previous), g, f, cards.Default(g, f))
      requires forall g, f: Field :: g in cards.gpus ==>
                 cards.registers[(g, f)] == After(Effective(next), g, f,
                     cards.Cleared(previous, next, g, f, start[(g, f)]))
      ensures cards.Holds(next)
    {
      hide Effective, After, ResetBy, Covered;
      SaneParts(next);
      forall g, f: Field | g in cards.gpus
        ensures cards.registers[(g, f)] == After(Effective(next), g, f, cards.Default(g, f))
      {
        var stock := cards.Default(g, f);
        TransitionExact(previous, next, g, f, stock);
        if !exact && f.Power? {
          assert Covered(Effective(next), g, Power);
          AfterCovered(Effective(next), g, f, cards.Cleared(previous, next, g, f, start[(g, f)]), stock);
        }
      }
    }

    /** Without readings there is nothing to enforce. */
    lemma NothingToEnforce(next: Config, readings: seq<Gpu>)
      ensures readings == [] ==> LimitAllowed(next, readings)
    {
    }

    static lemma SaneParts(p: Profile)
      requires Sane(p)
      ensures WellFormed(p) && NonNegative(p.settings)
    {
    }

    static lemma LimitedUntouched(asked: Config, readings: seq<Gpu>, files: Files, was: Files,
        digest: Content -> string)
      ensures UntouchedIffReady(files, was, digest, Limited(asked, readings))
              <==> UntouchedIffReady(files, was, digest, asked)
    {
      assert Paths(Limited(asked, readings)) == Paths(asked);
    }

    static lemma LimitedIsWithin(asked: Config, readings: seq<Gpu>)
      ensures WithinLimit(Limited(asked, readings), readings)
    {
      hide Clamped, Sane, LimitsAll;
      if asked.maxPowerW > 0 && |readings| > 0 && Sane(Limited(asked, readings).overclock) {
        ClampedLimitsAll(asked.overclock, asked.maxPowerW, readings);
      }
    }

    static lemma ClampedLimitsAll(p: Profile, maximum: int, readings: seq<Gpu>)
      requires maximum > 0 && |readings| > 0 && Sane(Clamped(p, maximum, readings))
      ensures LimitsAll(Clamped(p, maximum, readings), maximum)
    {
      hide Clamped, Sane, After, Covered, Effective;
      forall g, before
        ensures var s := Effective(Clamped(p, maximum, readings));
                Covered(s, g, Power) && 0 < After(s, g, Power, before) <= maximum
      {
        ClampedCovers(p, maximum, readings, g, before);
      }
      ClampedKeepsTo(p, maximum, readings);
    }

    static lemma ClampedKeepsTo(p: Profile, maximum: int, readings: seq<Gpu>)
      requires maximum > 0 && |readings| > 0 && Sane(Clamped(p, maximum, readings))
      ensures KeepsTo(Clamped(p, maximum, readings).settings, maximum)
    {
      var next := Clamped(p, maximum, readings);
      ClampedPowers(p, maximum, readings);
      CoveredByWildcard(p, maximum, readings, 0);
      if HasWildcard(p.settings) {
        var i :| 0 <= i < |p.settings| && p.settings[i].selector == ALL_GPUS;
        assert next.settings[i].selector == "*" && next.settings[i].power > 0;
      } else {
        assert next.settings[0].selector == "*" && next.settings[0].power > 0;
      }
    }

    static lemma ClampedPowers(p: Profile, maximum: int, readings: seq<Gpu>)
      requires maximum > 0 && |readings| > 0 && Sane(Clamped(p, maximum, readings))
      ensures NonNegativePower(p.settings)
    {
      var next := Clamped(p, maximum, readings);
      forall i | 0 <= i < |p.settings| ensures p.settings[i].power >= 0 {
        var j := if HasWildcard(p.settings) then i else i + 1;
        assert next.settings[j] == ClampSetting(p.settings[i], maximum);
      }
    }

    static lemma ClampedCovers(p: Profile, maximum: int, readings: seq<Gpu>, g: int, before: int)
      requires maximum > 0 && |readings| > 0 && Sane(Clamped(p, maximum, readings))
      ensures var next := Clamped(p, maximum, readings);
              Covered(Effective(next), g, Power) && 0 < After(Effective(next), g, Power, before) <= maximum
    {
      ClampedPowers(p, maximum, readings);
      CoveredByWildcard(p, maximum, readings, g);
      CeilingHolds(p, maximum, readings, g, before);
    }

    /** The overclock could not be applied: binaries back, unless not even the limits could be set again. */
    method RefuseOverclock(next: Config, a: Option<Update>, b: Option<Update>, unlimited: bool, start: Host,
        ghost was: Files) returns (ghost end: Ending)
      requires Guarding(fs.files, fs.guarded, fs.safe, next, was) && Prepared(next, a, b, fs.files, was)
      modifies `running, fs`files, fs`operations, fs`requests, fs`safe
      ensures fs.safe && fs.operations >= old(fs.operations)
      ensures unlimited ==>
              end == PowerRefused && running == Stop(old(running), start).running && fs.files == old(fs.files)
      ensures !unlimited ==> end.OverclockRefused? && running == old(running)
      ensures Recorded(end, old(View()), View(), next)
      ensures FilesAfter(end, Quiet(fs.faults, old(fs.operations), fs.operations), fs.files, old(fs.files), was,
              fs.digest, configuration.primary.package, next)
    {
      hide Guarding, Prepared, BothAsBefore, Ready, Intact, Cleaned, Quiet;
      GuardingIsSafe(next, was);
      if unlimited {
        var _ := StopMiner(start);
        return PowerRefused;
      }
      var okA, okB := UndoBoth(next, a, b, false, was);
      GuardingIsSafe(next, was);
      end := OverclockRefused;
    }

    /** What follows from the power limits and the overclock. */
    method FinishInstall(next: Config, a: Option<Update>, b: Option<Update>, readings: seq<Gpu>, c: Cards, start: Host,
        again: Host, ghost was: Files)
      returns (ok: bool, ghost u: AgentState.Undo, ghost end: Ending)
      requires Guarding(fs.files, fs.guarded, fs.safe, next, was) && Prepared(next, a, b, fs.files, was)
      requires Ready(fs.files, fs.digest, next.primary.package) && Ready(fs.files, fs.digest, Second(next))
      modifies this, fs
      ensures View() == Install(old(View()), next, readings, c, start, u, again)
      ensures fs.safe && fs.operations >= old(fs.operations)
      ensures end.StartFailed? ==>
              (u.replaced <==> a.Some?) && (Quiet(fs.faults, old(fs.operations), fs.operations) ==> u.undoOk)
      ensures end.StartFailed? && Quiet(fs.faults, old(fs.operations), fs.operations)
              && old(Intact(configuration.primary.package, fs.digest, was, next)) ==>
                Restartable(old(View()), u)
      ensures ok <==> end.Adopted?
      ensures !end.Skipped? && !end.Unprepared?
      ensures end.PowerRefused?
              <==> next.maxPowerW > 0 && ((|readings| > 0 && !c.powerOk) || (!c.overclockOk && !c.limitsOk))
      ensures end.PowerRefused? ==> fs.files == old(fs.files)
      ensures end.OverclockRefused? <==> && (next.maxPowerW > 0 && |readings| > 0 ==> c.powerOk) && !c.overclockOk
                                         && (next.maxPowerW > 0 ==> c.limitsOk)
      ensures end.Adopted? <==> && (next.maxPowerW > 0 && |readings| > 0 ==> c.powerOk) && c.overclockOk
                                && Start(old(running), next.primary, next.maxPowerW, start).ok
      ensures end.Adopted? || end.StartFailed? ==> (next.maxPowerW > 0 && |readings| > 0 ==> c.powerOk) && c.overclockOk
      ensures Recorded(end, old(View()), View(), next)
      ensures FilesAfter(end, Quiet(fs.faults, old(fs.operations), fs.operations), fs.files, old(fs.files), was,
              fs.digest, old(configuration.primary.package), next)
    {
      hide Guarding, Prepared, Ready, GoLive, Start, Stop, FilesAfter, Recorded, Quiet;
      GuardingIsSafe(next, was);
      u := AgentState.Undo(false, false, false);
      if next.maxPowerW > 0 && |readings| > 0 && !c.powerOk {
        var _ := StopMiner(start);
        EarlyEnding(PowerRefused, Quiet(fs.faults, old(fs.operations), fs.operations), fs.files, was, fs.digest,
            configuration.primary.package, next, old(View()), View());
        return false, u, PowerRefused;
      }
      if !c.overclockOk {
        end := RefuseOverclock(next, a, b, next.maxPowerW > 0 && !c.limitsOk, start, was);
        return false, u, end;
      }
      ok, u, end := GoLivePrepared(next, a, b, start, again, was);
    }

    lemma GuardingIsSafe(next: Config, was: Files)
      requires Guarding(fs.files, fs.guarded, fs.safe, next, was)
      ensures fs.safe
    {
    }

    /**
     A configuration that differs: binaries, GPUs, start. `ready` is what the files were once both
     binaries were prepared.
     */
    method ApplyFetched(asked: Config, env: Surroundings)
      returns (ok: bool, ghost u: AgentState.Undo, ghost c: Cards, ghost end: Ending, ghost ready: Files,
          ghost course: Course)
      requires Apart(asked.primary.package, Second(asked)) && cards.Valid()
      modifies this, fs, cards`registers, cards`commands
      ensures cards.Valid() && fs.safe && !end.Skipped? && (ok <==> end.Adopted?)
      ensures View() == if end.Unprepared? then old(View())
                        else Install(old(View()), Limited(asked, env.readings), env.readings, c, env.start, u,
                                     env.again)
      ensures end.Unprepared? ==> cards.registers == old(cards.registers)
      ensures Recorded(end, old(View()), View(), Limited(asked, env.readings))
      ensures !end.Unprepared? ==> UntouchedIffReady(ready, old(fs.files), fs.digest, asked)
      ensures end.Unprepared? ==>
                !(&& Quiet(fs.faults, old(fs.operations), fs.operations)
                  && old(BothObtainable(fs.files, fs.digest, fs.downloads, fs.requests, asked)))
      ensures !end.Unprepared? && Quiet(cards.faults, old(cards.commands), cards.commands) ==>
                && (end.PowerRefused? <==> !LimitAllowed(asked, env.readings))
                && (end.OverclockRefused? <==>
                      && LimitAllowed(asked, env.readings)
                      && !old(StepAllowed(Limited(asked, env.readings), env.preflightOk)))
      ensures end.PowerRefused? ==> asked.maxPowerW > 0 && fs.files == ready
      ensures end.OverclockRefused? ==> course.step.Some?
      ensures end.OverclockRefused? && old(LimitsKnown(Limited(asked, env.readings), env.readings)) ==>
                cards.RefusalLeaves(course.step.value, old(configuration.overclock), env.readings, asked.maxPowerW)
      ensures end.OverclockRefused? && course.step.value.RolledBack? && old(cards.Holds(configuration.overclock)) ==>
                cards.ControlsBack(old(configuration.overclock), Limited(asked, env.readings).overclock)
      ensures FilesAfter(end, Quiet(fs.faults, old(fs.operations), fs.operations), fs.files, ready, old(fs.files),
              fs.digest, old(configuration.primary.package), Limited(asked, env.readings))
      ensures end.StartFailed? ==> (u.replaced <==> !SameAt(ready, old(fs.files), asked.primary.package.path))
      ensures end.StartFailed? && Quiet(fs.faults, old(fs.operations), fs.operations) ==>
                && u.undoOk
                && (old(Intact(configuration.primary.package, fs.digest, fs.files, Limited(asked, env.readings))) ==>
                      Restartable(old(View()), u))
      ensures NothingFails(Quiet(fs.faults, old(fs.operations), fs.operations),
                           Quiet(cards.faults, old(cards.commands), cards.commands),
                           old(BothObtainable(fs.files, fs.digest, fs.downloads, fs.requests, asked)),
                           old(CardsAllow(Limited(asked, env.readings), env.readings, env.preflightOk)),
                           Start(old(running), asked.primary, asked.maxPowerW, env.start).ok)
              ==> end.Adopted?
      ensures end.Adopted? || end.StartFailed? ==>
                var next := Limited(asked, env.readings).overclock;
                Sane(next) && old(cards.Holds(configuration.overclock)) ==>
                (old(configuration.overclock) == next ==> old(AllTrue(cards, env.readings))) ==> cards.Holds(next)
    {
      hide Guarding, Prepared, Ready, Install, FilesAfter, Recorded, Clamped, Sane, WithinLimit, NvidiaHost.Holds,
           NvidiaHost.Truthful, NvidiaHost.Valid, Quiet, BothAsBefore, Restartable, Intact, NvidiaHost.RefusalLeaves,
           NvidiaHost.ControlsBack, AllTrue, NvidiaHost.Enforceable, NvidiaHost.Resettable, NvidiaHost.Applicable;
      var next := Limited(asked, env.readings);
      LimitedIsWithin(asked, env.readings);
      ghost var was := fs.files;
      fs.Guard(Paths(next));
      GuardStarts(next);
      u, c, course := AgentState.Undo(false, false, false), Cards(false, false, false), Course(0, 0, None);
      var primary, second;
      ok, primary, second := PrepareBinaries(next);
      GuardingIsSafe(next, was);
      ready := fs.files;
      LimitedUntouched(asked, env.readings, ready, was, fs.digest);
      ghost var prepared := fs.operations;
      if !ok {
        EarlyEnding(Unprepared, Quiet(fs.faults, old(fs.operations), fs.operations), fs.files, was, fs.digest,
            configuration.primary.package, next, View(), View());
        end := Unprepared;
        return;
      }
      var powerOk, overclockOk, limitsOk;
      powerOk, overclockOk, limitsOk, course := PrepareCards(next, env.readings, env.preflightOk);
      c := Cards(powerOk, overclockOk, limitsOk);
      QuietBoth(cards.faults, old(cards.commands), course.enforced, cards.commands);
      QuietBoth(cards.faults, course.enforced, course.moved, cards.commands);
      ok, u, end := FinishInstall(next, primary, second, env.readings, Cards(powerOk, overclockOk, limitsOk), env.start,
          env.again, was);
      QuietBoth(fs.faults, old(fs.operations), prepared, fs.operations);
      QuietThroughout(end, Quiet(fs.faults, prepared, fs.operations),
          Quiet(fs.faults, old(fs.operations), fs.operations), fs.files, ready, was, fs.digest,
          old(configuration.primary.package), next);
      if end.StartFailed? { ReplacedIs(next, primary, second, ready, was); }
    }

    /** syncConfiguration. `ready` is what the files were once both binaries were prepared. */
    method SyncConfiguration(tuning: bool, fetched: Option<Config>, env: Surroundings)
      returns (ok: bool, ghost s: Sync, ghost end: Ending, ghost ready: Files, ghost course: Course)
      requires fetched.Some? ==> Apart(fetched.value.primary.package, Second(fetched.value))
      requires cards.Valid()
      modifies this, fs, cards`registers, cards`commands
      ensures s.tuning == tuning && s.fetched == fetched && s.readings == env.readings
      ensures s.valid == env.valid && s.fansOk == env.fansOk
      ensures s.start == env.start && s.again == env.again && (s.binariesOk <==> !end.Skipped? && !end.Unprepared?)
      ensures View() == Synchronize(old(View()), s)
      ensures cards.Valid()
      ensures ok <==> end.Adopted? || tuning || (fetched.Some? && UpToDate(old(View()), fetched.value))
      ensures end.Skipped? <==> tuning || fetched.None? || UpToDate(old(View()), fetched.value) || !env.valid
                                || (old(configuration.autofan.enabled) && !fetched.value.autofan.enabled && !env.fansOk)
      ensures end.Skipped? ==> fs.files == old(fs.files) && View() == old(View())
      ensures !end.Skipped? ==> fetched.Some? && fs.safe
      ensures end.Skipped? || end.Unprepared? ==> cards.registers == old(cards.registers)
      ensures fetched.Some? ==>
                var next := Limited(fetched.value, env.readings);
                && Recorded(end, old(View()), View(), next)
                && FilesAfter(end, Quiet(fs.faults, old(fs.operations), fs.operations), fs.files, ready, old(fs.files),
                    fs.digest, old(configuration.primary.package), next)
      ensures end.Unprepared? ==>
                && fetched.Some?
                && !(&& Quiet(fs.faults, old(fs.operations), fs.operations)
                     && old(BothObtainable(fs.files, fs.digest, fs.downloads, fs.requests, fetched.value)))
      ensures !end.Skipped? && !end.Unprepared? && Quiet(cards.faults, old(cards.commands), cards.commands) ==>
                && (end.PowerRefused? <==> !LimitAllowed(fetched.value, env.readings))
                && (end.OverclockRefused? <==>
                      && LimitAllowed(fetched.value, env.readings)
                      && !old(StepAllowed(Limited(fetched.value, env.readings), env.preflightOk)))
      ensures end.PowerRefused? ==> && fetched.Some? && fetched.value.maxPowerW > 0
                                    && UntouchedIffReady(fs.files, old(fs.files), fs.digest, fetched.value)
      ensures end.OverclockRefused? ==> fetched.Some? && course.step.Some?
      ensures end.OverclockRefused? && old(LimitsKnown(Limited(fetched.value, env.readings), env.readings)) ==>
                cards.RefusalLeaves(course.step.value, old(configuration.overclock), env.readings,
                    fetched.value.maxPowerW)
      ensures end.OverclockRefused? && course.step.value.RolledBack? && old(cards.Holds(configuration.overclock)) ==>
                cards.ControlsBack(old(configuration.overclock), Limited(fetched.value, env.readings).overclock)
      ensures end.StartFailed? ==>
                && fetched.Some?
                && (s.undo.replaced <==> !SameAt(ready, old(fs.files), fetched.value.primary.package.path))
      ensures end.StartFailed? && Quiet(fs.faults, old(fs.operations), fs.operations) ==>
                var next := Limited(fetched.value, env.readings);
                && s.undo.undoOk
                && (old(Intact(configuration.primary.package, fs.digest, fs.files, next)) ==>
                      Restartable(old(View()), s.undo))
      ensures !end.Skipped? ==>
                var asked := fetched.value;
                NothingFails(Quiet(fs.faults, old(fs.operations), fs.operations),
                             Quiet(cards.faults, old(cards.commands), cards.commands),
                             old(BothObtainable(fs.files, fs.digest, fs.downloads, fs.requests, asked)),
                             old(CardsAllow(Limited(asked, env.readings), env.readings, env.preflightOk)),
                             Start(old(running), asked.primary, asked.maxPowerW, env.start).ok)
                ==> end.Adopted?
      ensures end.Adopted? || end.StartFailed? ==>
                var next := Limited(fetched.value, env.readings).overclock;
                Sane(next) && old(cards.Holds(configuration.overclock)) ==>
                (old(configuration.overclock) == next ==> old(AllTrue(cards, env.readings))) ==> cards.Holds(next)
    {
      hide Install, FilesAfter, Recorded, Limited, Sane, NvidiaHost.Holds, NvidiaHost.Truthful, NvidiaHost.Valid,
           Quiet, Restartable, Intact, Start, NothingFails, BothObtainable, CardsAllow, StepAllowed, LimitAllowed,
           LimitsKnown, Apart, AllTrue, UntouchedIffReady, NvidiaHost.RefusalLeaves, NvidiaHost.ControlsBack;
      s := Sync(tuning, fetched, env.valid, env.fansOk, false, env.readings, Cards(false, false, false), env.start,
          AgentState.Undo(false, false, false), env.again);
      end, ready, course := Skipped, fs.files, Course(0, 0, None);
      if fetched.Some? {
        EarlyEnding(Skipped, Quiet(fs.faults, fs.operations, fs.operations), fs.files, fs.files, fs.digest,
            configuration.primary.package, Limited(fetched.value, env.readings), View(), View());
      }
      if tuning { return true, s, end, ready, course; }
      if fetched.None? { return false, s, end, ready, course; }
      if fetched.value.revision <= appliedRevision && fetched.value.maxPowerW == configuration.maxPowerW {
        return true, s, end, ready, course;
      }
      if !env.valid { return false, s, end, ready, course; }
      if configuration.autofan.enabled && !fetched.value.autofan.enabled && !env.fansOk {
        return false, s, end, ready, course;
      }
      ghost var u, c;
      ok, u, c, end, ready, course := ApplyFetched(fetched.value, env);
      s := s.(binariesOk := !end.Unprepared?, cards := c, undo := u);
    }

    static lemma ReplacedIs(next: Config, a: Option<Update>, b: Option<Update>, ready: Files, was: Files)
      requires Prepared(next, a, b, ready, was)
      ensures a.Some? <==> !SameAt(ready, was, next.primary.package.path)
    {
    }

    lemma GuardStarts(next: Config)
      requires fs.Safe() && Apart(next.primary.package, Second(next))
      requires fs.guarded == map p | p in Paths(next) && p in fs.files :: fs.files[p]
      ensures Guarding(fs.files, fs.guarded, fs.safe, next, fs.files)
    {
    }

    /** The start and restart commands: synchronise, then start what ought to run. */
    method ExecuteStart(tuning: bool, fetched: Option<Config>, env: Surroundings, h: Host)
      returns (ok: bool, ghost s: Sync, ghost end: Ending)
      requires fetched.Some? ==> Apart(fetched.value.primary.package, Second(fetched.value))
      requires cards.Valid()
      modifies this, fs, cards`registers, cards`commands
      ensures var synced := end.Adopted? || tuning || (fetched.Some? && UpToDate(old(View()), fetched.value));
              && View() == StartCommand(old(View()), s, synced, h)
              && ok == (synced && StartActive(Synchronize(old(View()), s), h).ok)
      ensures s.tuning == tuning && s.fetched == fetched && s.start == env.start && s.again == env.again
    {
      hide Synchronize, Start, Stop;
      ghost var ready, course;
      ok, s, end, ready, course := SyncConfiguration(tuning, fetched, env);
      if ok {
        ok := StartActiveWorkload(h);
      }
    }
  }
}
