/**
 The rig agent's control state, and what each of its periodic tasks does to it: applying a
 configuration, the Epic failover check, the watchdog, and miner commands. All of them start
 and stop the same miner process.
 */
module AgentState {
  import opened Wrappers
  import opened Tuning
  import opened Templates
  import opened StoreState
  import opened PowerPolicy
  import opened BinaryUpdate

  /** Clock ticks: milliseconds. */
  const SECOND := 1000

  /** A workload as the agent launches it. An empty profile means no miner is assigned. */
  datatype Work = Work(profile: string, epic: bool, algorithm: string, coin: string, arguments: seq<string>,
      package: Package)

  datatype Config = Config(
    revision: nat,
    maxPowerW: int,
    primary: Work,
    fallback: Option<Work>,
    failoverAfter: int,
    returnAfter: int,
    overclock: Profile,
    watchdog: Watchdog,
    autofan: Autofan)

  const NO_WORK := Work("", false, "", "", [], Package(false, false, "", false, ""))
  const NO_CONFIG := Config(0, 0, NO_WORK, None, 0, 0, NO_PROFILE, NO_WATCHDOG, NO_AUTOFAN)

  datatype Phase = Off | OnPrimary | Waiting | OnFallback | Returning

  datatype Failover = Failover(active: bool, unavailableSince: Option<int>, availableSince: Option<int>, phase: Phase)

  const RESET := Failover(false, None, None, Off)

  datatype Agent = Agent(
    config: Config,
    applied: nat,
    failover: Failover,
    watchdogStopped: bool,
    lowSince: Option<int>,
    failures: nat,
    running: Option<Work>)

  const BOOTED := Agent(NO_CONFIG, 0, RESET, false, None, 0, None)

  // ----- starting and stopping the miner -----

  /**
   What the host does to one start: whether GPUs are reported, power limits can be set, the process
   can be killed, a new one started.
   */
  datatype Host = Host(gpus: bool, powerOk: bool, stopOk: bool, startOk: bool)

  datatype Launch = Launch(ok: bool, running: Option<Work>)

  function Stop(running: Option<Work>, h: Host): Launch {
    if running.None? || h.stopOk then Launch(true, None) else Launch(false, running)
  }

  /** startCPUWorkload */
  function Start(running: Option<Work>, work: Work, maxPowerW: int, h: Host): Launch {
    if maxPowerW > 0 && h.gpus && !h.powerOk then Launch(false, Stop(running, h).running)
    else if !Stop(running, h).ok then Launch(false, running)
    else if work.profile == "" then Launch(true, None)
    else if h.startOk then Launch(true, Some(work))
    else Launch(false, None)
  }

  /** The workload that ought to run. */
  function Active(a: Agent): Work {
    if a.failover.active && a.config.fallback.Some? then a.config.fallback.value else a.config.primary
  }

  function StartActive(a: Agent, h: Host): Launch {
    Start(a.running, Active(a), a.config.maxPowerW, h)
  }

  // ----- failover -----

  /** One look at the Epic stratum server, with the miner's own hashrate at that moment. */
  datatype Probe = Probe(failed: bool, algorithm: string, hashrate: real)

  function FailoverDelay(seconds: int): int {
    var delay := if seconds > 0 then seconds * SECOND else 2 * SECOND;
    if delay < 2 * SECOND then delay else 2 * SECOND
  }

  function FailoverWait(seconds: int, probeFailed: bool): int {
    if probeFailed && FailoverDelay(seconds) < 60 * SECOND then 60 * SECOND else FailoverDelay(seconds)
  }

  predicate Checked(a: Agent) {
    a.config.primary.epic && a.config.fallback.Some?
  }

  /** epicPrimaryHashing */
  predicate PrimaryHashing(a: Agent, p: Probe) {
    !a.failover.active && p.failed && a.running.Some? && p.hashrate > 0.0
  }

  predicate Available(a: Agent, p: Probe) {
    (!p.failed && Fold(p.algorithm) == Fold(a.config.primary.algorithm)) || PrimaryHashing(a, p)
  }

  function Since(t: Option<int>, now: int): int {
    if t.Some? then t.value else now
  }

  /** The check while the primary is available. */
  function WhenAvailable(a: Agent, now: int, h: Host): Agent {
    var f := a.failover.(unavailableSince := None);
    if !f.active then a.(failover := f.(availableSince := None, phase := OnPrimary))
    else
      var since := Since(f.availableSince, now);
      var waiting := a.(failover := f.(availableSince := Some(since), phase := Returning));
      if now - since < FailoverDelay(a.config.returnAfter) || a.watchdogStopped then waiting
      else
        var l := Start(a.running, a.config.primary, a.config.maxPowerW, h);
        if !l.ok then waiting.(running := l.running)
        else a.(failover := f.(active := false, availableSince := None, phase := OnPrimary), lowSince := None,
            failures := 0, running := l.running)
  }

  /** The check while it is not. */
  function WhenUnavailable(a: Agent, p: Probe, now: int, h: Host): Agent {
    var since := Since(a.failover.unavailableSince, now);
    var f := a.failover.(availableSince := None, unavailableSince := Some(since));
    if f.active then a.(failover := f.(phase := OnFallback))
    else
      var waiting := a.(failover := f.(phase := Waiting));
      if now - since < FailoverWait(a.config.failoverAfter, p.failed) || a.watchdogStopped
          || a.config.fallback.None? then waiting
      else
        var l := Start(a.running, a.config.fallback.value, a.config.maxPowerW, h);
        if !l.ok then waiting.(running := l.running)
        else a.(failover := f.(active := true, phase := OnFallback), lowSince := None, failures := 0,
            running := l.running)
  }

  /** reconcileEpicFailover */
  function Reconcile(a: Agent, p: Probe, now: int, h: Host): Agent {
    if !Checked(a) then a.(failover := RESET)
    else if Available(a, p) then WhenAvailable(a, now, h)
    else WhenUnavailable(a, p, now, h)
  }

  // ----- watchdog -----

  /** What a heartbeat measured. tuning: a smart tune is running. */
  datatype Metrics = Metrics(temperatures: seq<real>, minerRunning: bool, hashrate: real, tuning: bool)

  predicate TooHot(m: Metrics, limit: real) {
    exists i :: 0 <= i < |m.temperatures| && m.temperatures[i] >= limit
  }

  predicate Guarded(w: Watchdog) {
    w.enabled && w.maxTemperature > 0.0
  }

  function RestartDelay(w: Watchdog): int {
    if w.restartAfter > 0 then w.restartAfter * SECOND else 60 * SECOND
  }

  /** Ignored: the sample does not come to be judged; Unjudged: it does, and a spell of low hashrate is forgotten. */
  datatype Verdict = Ignored | Unjudged | Healthy | Low | Restarted | Rebooted

  datatype Watched = Watched(agent: Agent, verdict: Verdict)

  /** The hashrate half of the watchdog, on a miner that is neither stopped for heat nor being tuned. */
  function Judge(a: Agent, m: Metrics, now: int, h: Host): Watched {
    var w := a.config.watchdog;
    if a.watchdogStopped || w.minHashrate <= 0.0 || !m.minerRunning
        || m.tuning then Watched(a.(lowSince := None), Unjudged)
    else if m.hashrate >= w.minHashrate then Watched(a.(lowSince := None, failures := 0), Healthy)
    else if a.lowSince.None? then Watched(a.(lowSince := Some(now)), Low)
    else if now - a.lowSince.value < RestartDelay(w) then Watched(a, Low)
    else
      var b := a.(lowSince := Some(now), failures := a.failures + 1);
      if w.rebootAfter > 0 && b.failures >= w.rebootAfter then Watched(b, Rebooted)
      else Watched(b.(running := StartActive(b, h).running), Restarted)
  }

  /** enforceWatchdog */
  function Watch(a: Agent, m: Metrics, now: int, h: Host): Watched {
    if !Guarded(a.config.watchdog) then Watched(a, Ignored)
    else if TooHot(m, a.config.watchdog.maxTemperature) && !a.watchdogStopped then
      var l := Stop(a.running, h);
      Watched(a.(running := l.running, watchdogStopped := l.ok), Ignored)
    else if !TooHot(m, a.config.watchdog.maxTemperature) && a.watchdogStopped then
      var l := StartActive(a, h);
      if !l.ok then Watched(a.(running := l.running), Ignored)
      else Judge(a.(running := l.running, watchdogStopped := false), m, now, h)
    else Judge(a, m, now, h)
  }

  // ----- applying a configuration -----

  /**
   Whether the power limits could be enforced, the overclock applied, and the limits enforced again
   after that failed.
   */
  datatype Cards = Cards(powerOk: bool, overclockOk: bool, limitsOk: bool)

  /** Whether a new primary binary had been put in place, the previous one could be put back, and could be prepared. */
  datatype Undo = Undo(replaced: bool, undoOk: bool, prepareOk: bool)

  /** What happens around one synchronisation. readings: the GPUs as reported then. */
  datatype Sync = Sync(
    tuning: bool, fetched: Option<Config>, valid: bool, fansOk: bool, binariesOk: bool,
    readings: seq<Gpu>, cards: Cards, start: Host, undo: Undo, again: Host)

  predicate UpToDate(a: Agent, next: Config) {
    next.revision <= a.applied && next.maxPowerW == a.config.maxPowerW
  }

  /** The configuration as it is applied: its profile within the power limit. */
  function Limited(next: Config, readings: seq<Gpu>): Config {
    next.(overclock := Clamped(next.overclock, next.maxPowerW, readings))
  }

  predicate RestoresPrimary(a: Agent, u: Undo) {
    u.replaced && u.undoOk && a.config.primary.profile != "" && u.prepareOk
  }

  /** The start of the new primary failed: with a replaced binary, the previous one is put back and started. */
  function AfterFailedStart(a: Agent, u: Undo, running: Option<Work>, again: Host): Agent {
    a.(running := if RestoresPrimary(a, u) then Start(running, a.config.primary, a.config.maxPowerW, again).running
        else running)
  }

  /** The new primary is started, and the configuration adopted if that succeeds. */
  function GoLive(a: Agent, next: Config, start: Host, u: Undo, again: Host): Agent {
    var l := Start(a.running, next.primary, next.maxPowerW, start);
    if !l.ok then AfterFailedStart(a, u, l.running, again)
    else a.(config := next, applied := next.revision, failover := RESET, watchdogStopped := false, running := l.running)
  }

  /** With both binaries prepared: stopped for want of a power limit, refused, or on to the start. */
  function Install(a: Agent, next: Config, readings: seq<Gpu>, c: Cards, start: Host, u: Undo, again: Host): Agent {
    if next.maxPowerW > 0 && |readings| > 0 && !c.powerOk then a.(running := Stop(a.running, start).running)
    else if !c.overclockOk then
      if next.maxPowerW > 0 && !c.limitsOk then a.(running := Stop(a.running, start).running) else a
    else GoLive(a, next, start, u, again)
  }

  /** syncConfiguration */
  function Synchronize(a: Agent, s: Sync): Agent {
    if s.tuning || s.fetched.None? then a
    else
      var next := s.fetched.value;
      if UpToDate(a, next) || !s.valid || (a.config.autofan.enabled && !next.autofan.enabled && !s.fansOk)
          || !s.binariesOk then a
      else Install(a, Limited(next, s.readings), s.readings, s.cards, s.start, s.undo, s.again)
  }

  // ----- miner commands -----

  /** start and restart: synchronise, then start what ought to run. */
  function StartCommand(a: Agent, s: Sync, synced: bool, h: Host): Agent {
    var b := Synchronize(a, s);
    if synced then b.(running := StartActive(b, h).running) else b
  }

  // ----- what is reported -----

  datatype Mined = Mined(coin: string, algorithm: string)

  /** applyMiningStatus */
  function Reported(a: Agent): Mined {
    if a.failover.active
        && a.config.fallback.Some? then Mined(a.config.fallback.value.coin, a.config.fallback.value.algorithm)
    else Mined(a.config.primary.coin, a.config.primary.algorithm)
  }
}
