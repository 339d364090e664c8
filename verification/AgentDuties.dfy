/**
 What the rig agent does, and not only refrains from, in every run: an overheated miner is off
 and stays off, the fallback and the primary take over as soon as they may, and a low hashrate
 is acted on. All times are milliseconds.
 */
module AgentDuties {
  import opened Wrappers
  import opened Templates
  import opened StoreState
  import opened AgentState
  import opened AgentRuns

  /** When a start succeeds, and what runs then. */
  lemma StartSucceedsIff(running: Option<Work>, work: Work, maxPowerW: int, h: Host)
    ensures var l := Start(running, work, maxPowerW, h);
            && (l.ok <==>
                  && (maxPowerW > 0 && h.gpus ==> h.powerOk)
                  && (running.Some? ==> h.stopOk)
                  && (work.profile != "" ==> h.startOk))
            && (l.ok ==> l.running == if work.profile != "" then Some(work) else None)
            && (!l.ok ==> l.running == if running.Some? && !h.stopOk then running else None)
  {
  }

  // ----- adopting a configuration -----

  /** The configuration is new and valid, and everything before the start of its primary succeeds. */
  predicate ReachesStart(a: Agent, s: Sync) {
    && !s.tuning && s.fetched.Some? && s.valid && s.binariesOk
    && (s.fetched.value.revision > a.applied || s.fetched.value.maxPowerW != a.config.maxPowerW)
    && (a.config.autofan.enabled && !s.fetched.value.autofan.enabled ==> s.fansOk)
    && (s.fetched.value.maxPowerW > 0 && |s.readings| > 0 ==> s.cards.powerOk)
    && s.cards.overclockOk
  }

  predicate Adopts(a: Agent, s: Sync) {
    && ReachesStart(a, s)
    && Start(a.running, s.fetched.value.primary, s.fetched.value.maxPowerW, s.start).ok
  }

  /**
   A synchronisation adopts the whole configuration, and with it forgets the failover and the stop for
   heat, exactly when its start succeeds; otherwise it keeps all of that.
   */
  lemma AdoptedWhole(a: Agent, s: Sync)
    ensures var b := Synchronize(a, s);
            && (Adopts(a, s) ==>
                  && b.config == Limited(s.fetched.value, s.readings) && b.applied == s.fetched.value.revision
                  && b.failover == RESET && !b.watchdogStopped
                  && b.running ==
                     (if s.fetched.value.primary.profile != "" then Some(s.fetched.value.primary) else None))
            && (!Adopts(a, s) ==>
                  && b.config == a.config && b.applied == a.applied && b.failover == a.failover
                  && b.watchdogStopped == a.watchdogStopped)
            && b.lowSince == a.lowSince && b.failures == a.failures
  {
    hide Start, Stop, RestoresPrimary;
    if s.fetched.Some? {
      StartSucceedsIff(a.running, s.fetched.value.primary, s.fetched.value.maxPowerW, s.start);
    }
  }

  /**
   What becomes of the miner where nothing is adopted: it is stopped where the power limits cannot be
   set, before or again after a refused overclock; a failed start leaves none, unless it could not be
   stopped, or the previous primary is put back and starts; and everything else leaves it alone.
   */
  lemma RefusedStops(a: Agent, s: Sync)
    ensures var after := Synchronize(a, s).running;
            var stopped := if a.running.Some? && !s.start.stopOk then a.running else None;
            var reaches := && !s.tuning && s.fetched.Some? && s.valid && s.binariesOk
                           && (s.fetched.value.revision > a.applied || s.fetched.value.maxPowerW != a.config.maxPowerW)
                           && (a.config.autofan.enabled && !s.fetched.value.autofan.enabled ==> s.fansOk);
            var limited := s.fetched.Some? && s.fetched.value.maxPowerW > 0;
            var powerRefused := limited && |s.readings| > 0 && !s.cards.powerOk;
            && (!reaches ==> Synchronize(a, s) == a)
            && (reaches && powerRefused ==> after == stopped)
            && (reaches && !powerRefused && !s.cards.overclockOk ==>
                  after == if limited && !s.cards.limitsOk then stopped else a.running)
            && (reaches && !powerRefused && s.cards.overclockOk && !Adopts(a, s) ==>
                  after == if s.undo.replaced && s.undo.undoOk && a.config.primary.profile != "" && s.undo.prepareOk
                           then Start(stopped, a.config.primary, a.config.maxPowerW, s.again).running
                           else stopped)
  {
    if s.fetched.Some? {
      StartSucceedsIff(a.running, s.fetched.value.primary, s.fetched.value.maxPowerW, s.start);
    }
    hide Start;
  }

  // ----- heat -----

  predicate MinesWhileHot(a: Agent) {
    a.watchdogStopped && a.running.Some?
  }

  /**
   The two ways around a stop for heat: a failed update that restarts the previous primary, and a
   start or restart command that adopts nothing.
   */
  predicate StartsWhileHot(a: Agent, e: Event) {
    a.watchdogStopped &&
    match e
    case Syncs(s) => PrimaryRestarted(a, s)
    case Starts(s, synced, h) =>
      && !Adopts(a, s)
      && (if synced then StartActive(Synchronize(a, s), h).running.Some? else PrimaryRestarted(a, s))
    case _ => false
  }

  lemma RestartedIff(a: Agent, s: Sync)
    requires a.watchdogStopped && a.running.None?
    ensures MinesWhileHot(Synchronize(a, s)) <==> PrimaryRestarted(a, s)
    ensures PrimaryRestarted(a, s) ==> !Adopts(a, s)
  {
    hide Start, Stop;
    if s.fetched.Some? {
      var next := s.fetched.value;
      var l := Start(a.running, next.primary, next.maxPowerW, s.start);
      StartSucceedsIff(a.running, next.primary, next.maxPowerW, s.start);
      StartSucceedsIff(l.running, a.config.primary, a.config.maxPowerW, s.again);
      StopLeaves(a.running, s.start);
    }
  }

  /** They are the only ones. */
  lemma HeatStepIff(a: Agent, e: Event)
    requires !MinesWhileHot(a)
    ensures MinesWhileHot(Next(a, e)) <==> StartsWhileHot(a, e)
  {
    hide Synchronize, PrimaryRestarted, Available, TooHot, Adopts;
    if e.Syncs? || e.Starts? {
      AdoptedWhole(a, e.sync);
      if a.watchdogStopped { RestartedIff(a, e.sync); }
    }
  }

  /** The agent after the first n events. */
  function AgentAt(st: Story, events: seq<Event>, n: nat): Agent
    requires n <= |events|
  {
    Run(st, events[..n]).agent
  }

  lemma {:induction false} RunLast(st: Story, events: seq<Event>)
    requires events != []
    ensures var n := |events| - 1;
            Run(st, events) == Tell(Run(st, events[..n]), events[n])
    decreases |events|
  {
    hide Tell;
    var n := |events| - 1;
    if n > 0 {
      RunLast(Tell(st, events[0]), events[1..]);
      assert events[1..][..n - 1] == events[..n][1..] && events[1..][n - 1] == events[n];
    }
  }

  /**
   If a miner runs while it is stopped for heat, then since that stop it was started in one of the two
   ways around it.
   */
  lemma {:induction false} HotMinerHasCause(st: Story, events: seq<Event>) returns (i: nat)
    requires !MinesWhileHot(st.agent) && MinesWhileHot(Run(st, events).agent)
    ensures i < |events| && StartsWhileHot(AgentAt(st, events, i), events[i])
    ensures forall j :: i <= j <= |events| ==> AgentAt(st, events, j).watchdogStopped
    decreases |events|
  {
    hide Next, StartsWhileHot, Run;
    var n := |events| - 1;
    assert events != [] by { RunNothing(st, events); }
    RunLast(st, events);
    var a := AgentAt(st, events, n);
    assert events[..n + 1] == events;
    if MinesWhileHot(a) {
      i := HotMinerHasCause(st, events[..n]);
      forall j | i <= j <= |events| ensures AgentAt(st, events, j).watchdogStopped {
        if j <= n {
          assert AgentAt(st, events[..n], j).watchdogStopped && events[..n][..j] == events[..j];
        } else {
          assert events[..j] == events;
        }
      }
      assert events[..n][..i] == events[..i] && events[..n][i] == events[i];
    } else {
      HeatStepIff(a, events[n]);
      StartsNeedHeat(a, events[n]);
      i := n;
    }
  }

  lemma RunNothing(st: Story, events: seq<Event>)
    ensures events == [] ==> Run(st, events) == st
  {
  }

  lemma StartsNeedHeat(a: Agent, e: Event)
    ensures StartsWhileHot(a, e) ==> a.watchdogStopped
  {
  }

  /** What ends a stop for heat: a sample that is not too hot, whose start succeeds, or a new configuration. */
  predicate Relieved(a: Agent, e: Event) {
    match e
    case Syncs(s) => Adopts(a, s)
    case Starts(s, _, _) => Adopts(a, s)
    case Beats(m, _, h) =>
      && a.config.watchdog.enabled && a.config.watchdog.maxTemperature > 0.0
      && (forall i :: 0 <= i < |m.temperatures| ==> m.temperatures[i] < a.config.watchdog.maxTemperature)
      && StartActive(a, h).ok
    case _ => false
  }

  lemma StoppedUntilRelieved(a: Agent, e: Event)
    requires a.watchdogStopped
    ensures Next(a, e).watchdogStopped <==> !Relieved(a, e)
  {
    hide Synchronize, Available, Adopts, Start, Stop;
    if e.Syncs? || e.Starts? { AdoptedWhole(a, e.sync); }
  }

  /** A sample below the limit starts what ought to run. */
  lemma CoolSampleStarts(a: Agent, m: Metrics, now: int, h: Host)
    requires a.watchdogStopped && Relieved(a, Beats(m, now, h)) && !m.minerRunning
    ensures var b := Next(a, Beats(m, now, h));
            var work := if a.failover.active && a.config.fallback.Some? then a.config.fallback.value
                        else a.config.primary;
            !b.watchdogStopped && b.running == (if work.profile != "" then Some(work) else None)
  {
    StartSucceedsIff(a.running, Active(a), a.config.maxPowerW, h);
    hide Start;
  }

  predicate NeitherHotNorRelieved(st: Story, events: seq<Event>)
    decreases |events|
  {
    events != [] ==>
      && !StartsWhileHot(st.agent, events[0]) && !Relieved(st.agent, events[0])
      && NeitherHotNorRelieved(Tell(st, events[0]), events[1..])
  }

  lemma {:induction false} StaysOff(st: Story, events: seq<Event>)
    requires st.agent.watchdogStopped && st.agent.running.None? && NeitherHotNorRelieved(st, events)
    ensures Run(st, events).agent.watchdogStopped && Run(st, events).agent.running.None?
    decreases |events|
  {
    hide Next, StartsWhileHot, Relieved, MarkOf;
    if events != [] {
      HeatStepIff(st.agent, events[0]);
      StoppedUntilRelieved(st.agent, events[0]);
      StaysOff(Tell(st, events[0]), events[1..]);
    }
  }

  /**
   A sample at the limit or above stops a miner that can be stopped, and no miner runs again, whatever
   follows, until a sample below the limit or a new configuration, but in the two ways around the stop.
   */
  lemma TooHotTurnsOff(st: Story, m: Metrics, now: int, h: Host, events: seq<Event>, i: nat)
    requires var w := st.agent.config.watchdog;
             && w.enabled && w.maxTemperature > 0.0
             && i < |m.temperatures| && m.temperatures[i] >= w.maxTemperature
    requires !MinesWhileHot(st.agent) && (st.agent.running.Some? ==> h.stopOk)
    requires NeitherHotNorRelieved(Tell(st, Beats(m, now, h)), events)
    ensures var last := Run(Tell(st, Beats(m, now, h)), events).agent; last.watchdogStopped && last.running.None?
  {
    hide NeitherHotNorRelieved, Run;
    assert TooHot(m, st.agent.config.watchdog.maxTemperature);
    StaysOff(Tell(st, Beats(m, now, h)), events);
  }

  // ----- failover -----

  /**
   Whether a check finds the primary in service: its pool asks for its algorithm, or, where the check
   itself failed, the miner that ought to serve it hashes.
   */
  predicate InService(a: Agent, p: Probe) {
    if p.failed then !a.failover.active && a.running.Some? && p.hashrate > 0.0
    else Fold(p.algorithm) == Fold(a.config.primary.algorithm)
  }

  lemma InServiceIff(a: Agent, p: Probe)
    ensures Available(a, p) <==> InService(a, p)
  {
    hide Fold;
  }

  /** From the k-th mark on, a check, every check found the primary in this state, with no reset since. */
  predicate Spans(history: seq<Mark>, k: nat, available: bool) {
    k < |history| && history[k].Check? && Unbroken(history, k, |history|, available)
  }

  /** No timer started later than a span that still lasts. */
  ghost predicate TimersEarly(st: Story) {
    var f := st.agent.failover;
    && (forall k: nat :: Spans(st.history, k, false) ==> RunsSince(f.unavailableSince, st.history[k].now))
    && (f.active ==> forall k: nat :: Spans(st.history, k, true) ==> RunsSince(f.availableSince, st.history[k].now))
    && (f.unavailableSince.Some? ==> f.unavailableSince.value <= st.clock)
    && (f.availableSince.Some? ==> f.availableSince.value <= st.clock)
  }

  predicate RunsSince(timer: Option<int>, time: int) {
    timer.Some? && timer.value <= time
  }

  lemma SpansBefore(history: seq<Mark>, m: Mark, k: nat, available: bool)
    requires Spans(history + [m], k, available) && k < |history|
    ensures Spans(history, k, available) && (history + [m])[k] == history[k]
    ensures !m.Fresh? && (m.Check? ==> m.available == available)
  {
    var more := history + [m];
    assert more[|history|] == m;
    forall i | k <= i <= |history| && i < |history|
      ensures !history[i].Fresh? && (history[i].Check? ==> history[i].available == available)
    {
      assert more[i] == history[i];
    }
  }

  lemma ReturnTimer(a: Agent, e: Event)
    requires MarkOf(a, e).Check? && MarkOf(a, e).available && Next(a, e).failover.active
    ensures a.failover.active
    ensures Next(a, e).failover.availableSince == Some(Since(a.failover.availableSince, MarkOf(a, e).now))
  {
    hide Start, Stop, Available, TooHot, Judge, FailoverDelay, FailoverWait;
  }

  lemma EarlyStep(st: Story, e: Event)
    requires TimersEarly(st) && Punctual(st, e)
    ensures TimersEarly(Tell(st, e))
  {
    hide Next, MarkOf, Unbroken;
    FailoverStep(st.agent, e);
    MarkTime(st.agent, e);
    var f, g, m := st.agent.failover, Next(st.agent, e).failover, MarkOf(st.agent, e);
    var more := st.history + [m];
    if m.Check? && m.available && g.active { ReturnTimer(st.agent, e); }
    forall k: nat | Spans(more, k, false) ensures RunsSince(g.unavailableSince, more[k].now) {
      SpanEnds(more, k, false);
      if k < |st.history| { SpansBefore(st.history, m, k, false); }
    }
    if g.active {
      forall k: nat | Spans(more, k, true) ensures RunsSince(g.availableSince, more[k].now) {
        SpanEnds(more, k, true);
        if k < |st.history| { SpansBefore(st.history, m, k, true); }
      }
    }
  }

  lemma SpanEnds(history: seq<Mark>, k: nat, available: bool)
    requires history != [] && Spans(history, k, available)
    ensures var last := history[|history| - 1]; !last.Fresh? && (last.Check? ==> last.available == available)
  {
  }

  lemma {:induction false} EarlyRuns(st: Story, events: seq<Event>)
    requires TimersEarly(st) && Possible(st, events)
    ensures TimersEarly(Run(st, events))
    decreases |events|
  {
    hide Tell, TimersEarly, Punctual;
    if events != [] {
      EarlyStep(st, events[0]);
      EarlyRuns(Tell(st, events[0]), events[1..]);
    }
  }

  /** Some check at least this long ago began a span that still lasts. */
  ghost predicate SpansFor(history: seq<Mark>, available: bool, time: int) {
    exists k: nat :: Spans(history, k, available) && history[k].now <= time
  }

  lemma PrologueTimers()
    ensures TimersEarly(PROLOGUE) && TimersOk(PROLOGUE) && Patient(PROLOGUE.history)
  {
  }

  /** In every run the timers tell how long the primary has been away, and how long it has been back. */
  lemma TimersTell(events: seq<Event>, time: int)
    requires Possible(PROLOGUE, events)
    ensures var st := Run(PROLOGUE, events);
            && (RunsSince(st.agent.failover.unavailableSince, time) <==> SpansFor(st.history, false, time))
            && (st.agent.failover.active ==>
                  (RunsSince(st.agent.failover.availableSince, time) <==> SpansFor(st.history, true, time)))
  {
    hide Run, Possible, Unbroken;
    PrologueTimers();
    EarlyRuns(PROLOGUE, events);
    PatienceRuns(PROLOGUE, events);
    var st := Run(PROLOGUE, events);
    var f := st.agent.failover;
    if RunsSince(f.unavailableSince, time) {
      var k := TimedSpan(st.history, f.unavailableSince, false);
    }
    if RunsSince(f.availableSince, time) {
      var k := TimedSpan(st.history, f.availableSince, true);
    }
  }

  lemma TimedSpan(history: seq<Mark>, since: Option<int>, available: bool) returns (k: nat)
    requires since.Some? && TimedFrom(history, since, available)
    ensures Spans(history, k, available) && history[k].now == since.value
  {
    hide Unbroken;
    k :| 0 <= k < |history| && history[k].Check? && history[k].now == since.value
        && Unbroken(history, k, |history|, available);
  }

  /**
   While the primary is away, a check puts the fallback in its place exactly when no check of the last
   two seconds (one where the sheet says one, a minute if the check itself failed) found it back, the
   miner is not stopped for heat and the fallback starts. Otherwise the primary keeps its place.
   */
  lemma FallbackTakesOverIff(events: seq<Event>, p: Probe, now: int, h: Host)
    requires Possible(PROLOGUE, events) && now >= Run(PROLOGUE, events).clock
    requires var a := Run(PROLOGUE, events).agent;
             a.config.primary.epic && a.config.fallback.Some? && !a.failover.active && !InService(a, p)
    ensures var st := Run(PROLOGUE, events);
            var a, b := st.agent, Next(st.agent, Checks(p, now, h));
            var wait := if p.failed then 60000 else if a.config.failoverAfter == 1 then 1000 else 2000;
            var l := Start(a.running, a.config.fallback.value, a.config.maxPowerW, h);
            && (b.failover.active <==> SpansFor(st.history, false, now - wait) && !a.watchdogStopped && l.ok)
            && (b.failover.active ==> b.running == l.running)
  {
    hide Run, Possible, Available, InService, Start, SpansFor;
    TimersTell(events, now - FailoverWait(Run(PROLOGUE, events).agent.config.failoverAfter, p.failed));
    InServiceIff(Run(PROLOGUE, events).agent, p);
    UnavailableIff(Run(PROLOGUE, events).agent, p, now, h);
  }

  lemma UnavailableIff(a: Agent, p: Probe, now: int, h: Host)
    requires Checked(a) && !Available(a, p) && !a.failover.active
    ensures var b := Next(a, Checks(p, now, h));
            var wait := if p.failed then 60000 else if a.config.failoverAfter == 1 then 1000 else 2000;
            var l := Start(a.running, a.config.fallback.value, a.config.maxPowerW, h);
            && wait == FailoverWait(a.config.failoverAfter, p.failed)
            && (b.failover.active <==>
                  RunsSince(a.failover.unavailableSince, now - wait) && !a.watchdogStopped && l.ok)
            && (b.failover.active ==> b.running == l.running)
  {
    hide Start, Available;
  }

  /** And the way back. */
  lemma PrimaryReturnsIff(events: seq<Event>, p: Probe, now: int, h: Host)
    requires Possible(PROLOGUE, events) && now >= Run(PROLOGUE, events).clock
    requires var a := Run(PROLOGUE, events).agent;
             a.config.primary.epic && a.config.fallback.Some? && a.failover.active && InService(a, p)
    ensures var st := Run(PROLOGUE, events);
            var a, b := st.agent, Next(st.agent, Checks(p, now, h));
            var wait := if a.config.returnAfter == 1 then 1000 else 2000;
            var l := Start(a.running, a.config.primary, a.config.maxPowerW, h);
            && (!b.failover.active <==> SpansFor(st.history, true, now - wait) && !a.watchdogStopped && l.ok)
            && (!b.failover.active ==> b.running == l.running)
  {
    hide Run, Possible, Available, InService, Start, SpansFor;
    TimersTell(events, now - FailoverDelay(Run(PROLOGUE, events).agent.config.returnAfter));
    InServiceIff(Run(PROLOGUE, events).agent, p);
    AvailableIff(Run(PROLOGUE, events).agent, p, now, h);
  }

  lemma AvailableIff(a: Agent, p: Probe, now: int, h: Host)
    requires Checked(a) && Available(a, p) && a.failover.active
    ensures var b := Next(a, Checks(p, now, h));
            var wait := if a.config.returnAfter == 1 then 1000 else 2000;
            var l := Start(a.running, a.config.primary, a.config.maxPowerW, h);
            && wait == FailoverDelay(a.config.returnAfter)
            && (!b.failover.active <==>
                  RunsSince(a.failover.availableSince, now - wait) && !a.watchdogStopped && l.ok)
            && (!b.failover.active ==> b.running == l.running)
  {
    hide Start, Available;
  }

  /** A check starts and stops nothing while the miner is stopped for heat, or while nothing changes places. */
  lemma CheckLeavesMiner(a: Agent, p: Probe, now: int, h: Host)
    requires a.watchdogStopped || !a.config.primary.epic || a.config.fallback.None?
             || InService(a, p) != a.failover.active
    ensures Next(a, Checks(p, now, h)).running == a.running
    ensures Next(a, Checks(p, now, h)).failover.active ==
              (a.config.primary.epic && a.config.fallback.Some? && a.failover.active)
  {
    hide Start, Available, InService;
    InServiceIff(a, p);
  }

  // ----- low hashrate -----

  /** A sample of a miner that runs, cool and untuned, below the hashrate asked for. */
  predicate LowSample(a: Agent, m: Metrics) {
    var w := a.config.watchdog;
    && w.enabled && w.maxTemperature > 0.0 && !a.watchdogStopped
    && (forall i :: 0 <= i < |m.temperatures| ==> m.temperatures[i] < w.maxTemperature)
    && w.minHashrate > 0.0 && m.minerRunning && !m.tuning && m.hashrate < w.minHashrate
  }

  /** A low sample that was acted on or began a spell of low ones that still lasts. */
  predicate Lasts(history: seq<Mark>, k: nat) {
    && k < |history| && Bad(history[k])
    && forall i :: k < i < |history| ==> LastsThrough(history[i])
  }

  predicate LastsThrough(m: Mark) {
    && (m.Beat? ==> m.verdict.Low? || m.verdict.Ignored?)
    && (m.Check? ==> m.switch.Stay?)
  }

  ghost predicate LastsFor(history: seq<Mark>, time: int) {
    exists k: nat :: Lasts(history, k) && history[k].now <= time
  }

  ghost predicate LowTimed(st: Story) {
    && (forall k: nat :: Lasts(st.history, k) ==> RunsSince(st.agent.lowSince, st.history[k].now))
    && (st.agent.lowSince.Some? ==>
          && st.agent.lowSince.value <= st.clock
          && exists k: nat :: Lasts(st.history, k) && st.history[k].now == st.agent.lowSince.value)
  }

  lemma LastsBefore(history: seq<Mark>, m: Mark, k: nat)
    ensures Lasts(history + [m], k) && k < |history| ==> Lasts(history, k) && LastsThrough(m)
    ensures Lasts(history, k) && LastsThrough(m) ==> Lasts(history + [m], k)
    ensures Lasts(history + [m], |history|) <==> Bad(m)
    ensures Lasts(history + [m], k) ==> k <= |history|
  {
    var more := history + [m];
    assert more[|history|] == m;
    assert forall i :: 0 <= i < |history| ==> more[i] == history[i];
  }

  lemma LowStep(st: Story, e: Event)
    requires LowTimed(st) && Punctual(st, e)
    ensures LowTimed(Tell(st, e))
  {
    hide Next, MarkOf;
    WatchdogStep(st.agent, e);
    MarkTime(st.agent, e);
    var m, b := MarkOf(st.agent, e), Next(st.agent, e);
    var more := st.history + [m];
    LastsBefore(st.history, m, |st.history|);
    forall k: nat | Lasts(more, k) ensures RunsSince(b.lowSince, more[k].now) {
      LastsBefore(st.history, m, k);
    }
    if b.lowSince.Some? {
      if Bad(m) && (Acts(m) || st.agent.lowSince.None?) {
        assert Lasts(more, |st.history|) && more[|st.history|].now == b.lowSince.value;
      } else {
        var k: nat :| Lasts(st.history, k) && st.history[k].now == st.agent.lowSince.value;
        LastsBefore(st.history, m, k);
        assert Lasts(more, k);
      }
    }
  }

  /** The actions since the last relief. */
  function ActionsIn(history: seq<Mark>): nat {
    if history == [] then 0
    else
      var m, rest := history[|history| - 1], history[..|history| - 1];
      if Relieves(m) then 0 else (if Acts(m) then 1 else 0) + ActionsIn(rest)
  }

  lemma {:induction false} LowRuns(st: Story, events: seq<Event>)
    requires LowTimed(st) && Possible(st, events) && st.agent.failures == ActionsIn(st.history)
    ensures LowTimed(Run(st, events)) && Run(st, events).agent.failures == ActionsIn(Run(st, events).history)
    decreases |events|
  {
    hide LowTimed, Punctual, Next, MarkOf;
    if events != [] {
      LowStep(st, events[0]);
      WatchdogStep(st.agent, events[0]);
      assert (st.history + [MarkOf(st.agent, events[0])])[..|st.history|] == st.history;
      LowRuns(Tell(st, events[0]), events[1..]);
    }
  }

  lemma PrologueLow()
    ensures LowTimed(PROLOGUE)
  {
  }

  lemma LowSampleJudged(a: Agent, m: Metrics, now: int, h: Host)
    requires LowSample(a, m)
    ensures var v := Watch(a, m, now, h);
            var w := a.config.watchdog;
            var delay := if w.restartAfter > 0 then w.restartAfter * 1000 else 60000;
            var due := RunsSince(a.lowSince, now - delay);
            var reboot := due && w.rebootAfter > 0 && a.failures + 1 >= w.rebootAfter;
            && v.verdict == (if reboot then Rebooted else if due then Restarted else Low)
            && v.agent.running ==
               (if due && !reboot then Start(a.running, Active(a), a.config.maxPowerW, h).running else a.running)
  {
    hide Start;
  }

  /**
   A low sample is acted on exactly when low samples have lasted for the restart delay, a minute where
   none is set, since the first one or the last action: with a reboot when it would be the asked number
   of actions without relief, otherwise by starting what ought to run. Anything else leaves the miner.
   */
  lemma LowHashrateIsActedOn(events: seq<Event>, m: Metrics, now: int, h: Host)
    requires Possible(PROLOGUE, events) && LowSample(Run(PROLOGUE, events).agent, m)
    ensures var st := Run(PROLOGUE, events);
            var a, w := st.agent, st.agent.config.watchdog;
            var v := Watch(a, m, now, h);
            var delay := if w.restartAfter > 0 then w.restartAfter * 1000 else 60000;
            && (v.verdict.Restarted? || v.verdict.Rebooted? <==> LastsFor(st.history, now - delay))
            && (v.verdict.Rebooted? <==>
                  LastsFor(st.history, now - delay) && 0 < w.rebootAfter <= ActionsIn(st.history) + 1)
            && (v.verdict.Restarted? ==>
                  v.agent.running == Start(a.running, Active(a), a.config.maxPowerW, h).running)
            && (!v.verdict.Restarted? ==> v.agent.running == a.running)
  {
    hide Run, Possible, LowSample, Watch, Start, Active, Lasts;
    PrologueLow();
    LowRuns(PROLOGUE, events);
    LowSampleJudged(Run(PROLOGUE, events).agent, m, now, h);
  }
}
