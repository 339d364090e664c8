/**
 What holds in every run of the rig agent: the miner that runs is the one that ought to,
 failover waits and returns are patient, and the watchdog is never hasty.
 */
module AgentRuns {
  import opened Wrappers
  import opened Templates
  import opened StoreState
  import opened AgentState

  datatype Event =
    | Syncs(sync: Sync)
    | Checks(probe: Probe, now: int, host: Host)
    | Beats(metrics: Metrics, now: int, host: Host)
    | Starts(sync: Sync, synced: bool, host: Host)
    | Stops(host: Host)
    | Exits

  function Next(a: Agent, e: Event): Agent {
    match e
    case Syncs(s) => Synchronize(a, s)
    case Checks(p, now, h) => Reconcile(a, p, now, h)
    case Beats(m, now, h) => Watch(a, m, now, h).agent
    case Starts(s, synced, h) => StartCommand(a, s, synced, h)
    case Stops(h) => a.(running := Stop(a.running, h).running)
    case Exits => a.(running := None)
  }

  // ----- the miner that runs -----

  /** A running miner is the workload that ought to run; the fallback is active only where there is one. */
  predicate Fits(a: Agent) {
    && (a.running.Some? ==> a.running.value == Active(a))
    && (a.failover.active ==> Checked(a))
  }

  /**
   The synchronisation got as far as starting the new primary, failed, put the previous binary back
   and started the previous primary.
   */
  predicate PrimaryRestarted(a: Agent, s: Sync) {
    !s.tuning && s.fetched.Some? && !UpToDate(a, s.fetched.value) && s.valid
    && !(a.config.autofan.enabled && !s.fetched.value.autofan.enabled && !s.fansOk) && s.binariesOk
    && (s.fetched.value.maxPowerW > 0 && |s.readings| > 0 ==> s.cards.powerOk) && s.cards.overclockOk
    && var l := Start(a.running, s.fetched.value.primary, s.fetched.value.maxPowerW, s.start);
       !l.ok && RestoresPrimary(a, s.undo) && Start(l.running, a.config.primary, a.config.maxPowerW, s.again).ok
  }

  /** The previous primary is not started again while another workload is active as the fallback. */
  predicate NoRestoreOverFallback(a: Agent, e: Event) {
    e.Syncs? || e.Starts? ==>
        !(a.failover.active && a.config.fallback != Some(a.config.primary) && PrimaryRestarted(a, e.sync))
  }

  /** What a start leaves running: the workload if it succeeded, otherwise what ran before or nothing. */
  lemma StartLeaves(running: Option<Work>, work: Work, maxPowerW: int, h: Host)
    ensures var l := Start(running, work, maxPowerW, h);
            if l.ok then l.running == (if work.profile == "" then None else Some(work))
            else l.running == running || l.running.None?
  {
  }

  /**
   A synchronisation keeps a running miner in its place if and only if it does not restart the
   previous primary over an active fallback.
   */
  lemma RestoreFitsIff(a: Agent, s: Sync)
    requires Fits(a)
    ensures Fits(Synchronize(a, s)) <==> NoRestoreOverFallback(a, Syncs(s))
  {
    hide Start, Stop, RestoresPrimary;
    if s.fetched.Some? {
      var next := Limited(s.fetched.value, s.readings);
      var l := Start(a.running, next.primary, next.maxPowerW, s.start);
      StartLeaves(a.running, next.primary, next.maxPowerW, s.start);
      StartLeaves(l.running, a.config.primary, a.config.maxPowerW, s.again);
      StopLeaves(a.running, s.start);
      if RestoresPrimary(a, s.undo) { RestoredHasProfile(a, s.undo); }
    }
  }

  lemma StopLeaves(running: Option<Work>, h: Host)
    ensures Stop(running, h).running == running || Stop(running, h).running.None?
  {
  }

  lemma RestoredHasProfile(a: Agent, u: Undo)
    requires RestoresPrimary(a, u)
    ensures a.config.primary.profile != ""
  {
  }

  lemma NextFits(a: Agent, e: Event)
    requires Fits(a) && NoRestoreOverFallback(a, e)
    ensures Fits(Next(a, e))
  {
    hide Synchronize, Available, TooHot, Fold;
    if e.Syncs? || e.Starts? { RestoreFitsIff(a, e.sync); }
  }

  // ----- history -----

  datatype Switch = Stay | Started | Returned

  /**
   Check: a failover check, with the wait that applied to it. Beat: a watchdog sample. Fresh:
   failover state was reset.
   */
  datatype Mark =
    | Check(now: int, available: bool, wait: int, switch: Switch)
    | Beat(now: int, verdict: Verdict, delay: int, rebootAfter: int)
    | Fresh
    | Other

  function SwitchOf(was: bool, now: bool): Switch {
    if !was && now then Started else if was && !now then Returned else Stay
  }

  function MarkOf(a: Agent, e: Event): Mark {
    match e
    case Checks(p, now, h) =>
      if !Checked(a) then Fresh
      else Check(now, Available(a, p),
                 if Available(a, p) then FailoverDelay(a.config.returnAfter)
                     else FailoverWait(a.config.failoverAfter, p.failed),
                 SwitchOf(a.failover.active, Reconcile(a, p, now, h).failover.active))
    case Beats(m, now, h) => Beat(now, Watch(a, m, now, h).verdict, RestartDelay(a.config.watchdog),
        a.config.watchdog.rebootAfter)
    case Syncs(_) => if Next(a, e).failover == a.failover then Other else Fresh
    case Starts(_, _, _) => if Next(a, e).failover == a.failover then Other else Fresh
    case _ => Other
  }

  datatype Story = Story(agent: Agent, history: seq<Mark>, clock: int)

  const PROLOGUE := Story(BOOTED, [], 0)

  predicate Punctual(st: Story, e: Event) {
    e.Checks? || e.Beats? ==> st.clock <= e.now
  }

  function Tell(st: Story, e: Event): Story {
    Story(Next(st.agent, e), st.history + [MarkOf(st.agent, e)], if e.Checks? || e.Beats? then e.now else st.clock)
  }

  function Run(st: Story, events: seq<Event>): Story
    decreases |events|
  {
    if events == [] then st else Run(Tell(st, events[0]), events[1..])
  }

  /** Time does not run backwards. */
  predicate Possible(st: Story, events: seq<Event>)
    decreases |events|
  {
    events != [] ==> Punctual(st, events[0]) && Possible(Tell(st, events[0]), events[1..])
  }

  predicate Careful(st: Story, events: seq<Event>)
    decreases |events|
  {
    events != [] ==> NoRestoreOverFallback(st.agent, events[0]) && Careful(Tell(st, events[0]), events[1..])
  }

  /**
   In every run in which no synchronisation restarts the previous primary over an active
   fallback, a running miner is the one that ought to run, and its coin and algorithm are those
   reported.
   */
  lemma {:induction false} RunningIsReported(st: Story, events: seq<Event>)
    requires Fits(st.agent) && Careful(st, events)
    ensures var a := Run(st, events).agent;
            Fits(a) && (a.running.Some? ==>
                a.running.value == Active(a) && Reported(a) == Mined(a.running.value.coin, a.running.value.algorithm))
    decreases |events|
  {
    hide Next, NoRestoreOverFallback;
    if events == [] {
    } else {
      NextFits(st.agent, events[0]);
      RunningIsReported(Tell(st, events[0]), events[1..]);
    }
  }

  // ----- what a step does to the failover timers -----

  /** A synchronisation leaves the failover state alone or resets it. */
  lemma SyncResets(a: Agent, s: Sync)
    ensures var b := Synchronize(a, s);
            (b.failover == a.failover || b.failover == RESET) && b.lowSince == a.lowSince && b.failures == a.failures
  {
    hide Start, Stop;
  }

  lemma WatchKeepsFailover(a: Agent, m: Metrics, now: int, h: Host)
    ensures Watch(a, m, now, h).agent.failover == a.failover
  {
    hide Start, Stop, TooHot;
  }

  /** The whole effect of one event on the failover state, by its mark. */
  lemma FailoverStep(a: Agent, e: Event)
    ensures var f, g, m := a.failover, Next(a, e).failover, MarkOf(a, e);
            match m
            case Fresh => g == RESET
            case Check(now, available, wait, switch) =>
              && switch == SwitchOf(f.active, g.active)
              && (available ==>
                  g.unavailableSince.None?
                  && (g.availableSince.Some? ==> g.availableSince.value == Since(f.availableSince, now)))
              && (available && switch.Returned? ==>
                  wait <= now - Since(f.availableSince, now) && g.availableSince.None?)
              && (!available ==> g.availableSince.None? && g.unavailableSince == Some(Since(f.unavailableSince, now)))
              && (!available && switch.Started? ==> wait <= now - Since(f.unavailableSince, now))
              && (switch.Started? ==> !available) && (switch.Returned? ==> available)
            case _ => g == f
  {
    hide Start, Stop, TooHot, Fold, Judge, FailoverDelay, FailoverWait;
    match e
    case Syncs(s) => SyncResets(a, s);
    case Starts(s, synced, h) => SyncResets(a, s);
    case Beats(m, now, h) => WatchKeepsFailover(a, m, now, h);
    case _ =>
  }

  // ----- patience -----

  /** Every check from k to n found the primary in this state, with no reset in between. */
  predicate Unbroken(history: seq<Mark>, k: nat, n: nat, available: bool) {
    forall i :: k <= i <= n && i < |history| ==>
        !history[i].Fresh? && (history[i].Check? ==> history[i].available == available)
  }

  /** A timer was started by a check, and every check since agrees with it. */
  predicate TimedFrom(history: seq<Mark>, since: Option<int>, available: bool) {
    since.Some? ==> exists k ::
      && 0 <= k < |history| && history[k].Check? && history[k].now == since.value
      && Unbroken(history, k, |history|, available)
  }

  /** The n-th mark came after a long enough unbroken span of checks. */
  predicate Waited(history: seq<Mark>, n: nat, available: bool)
    requires n < |history| && history[n].Check?
  {
    exists k :: 0 <= k <= n && history[k].Check? && Unbroken(history, k, n, available)
        && history[n].now - history[k].now >= history[n].wait
  }

  predicate Patient(history: seq<Mark>) {
    forall n :: 0 <= n < |history| && history[n].Check? ==>
      && (history[n].switch.Started? ==> Waited(history, n, false))
      && (history[n].switch.Returned? ==> Waited(history, n, true))
  }

  predicate TimersOk(st: Story) {
    && TimedFrom(st.history, st.agent.failover.unavailableSince, false)
    && TimedFrom(st.history, st.agent.failover.availableSince, true)
    && !(st.agent.failover.unavailableSince.Some? && st.agent.failover.availableSince.Some?)
  }

  lemma UnbrokenMore(history: seq<Mark>, m: Mark, k: nat, available: bool)
    requires Unbroken(history, k, |history|, available) && k < |history|
    requires !m.Fresh? && (m.Check? ==> m.available == available)
    ensures Unbroken(history + [m], k, |history| + 1, available)
  {
  }

  lemma PrefixWaited(history: seq<Mark>, m: Mark, n: nat, available: bool)
    requires n < |history| && history[n].Check? && Waited(history, n, available)
    ensures Waited(history + [m], n, available)
  {
    var k :| 0 <= k <= n && history[k].Check? && Unbroken(history, k, n, available)
        && history[n].now - history[k].now >= history[n].wait;
    var more := history + [m];
    assert more[k] == history[k] && more[n] == history[n];
    assert Unbroken(more, k, n, available);
  }

  /** A running timer keeps its start; one that was not running starts now. */
  lemma TimerRuns(history: seq<Mark>, m: Mark, since: Option<int>, available: bool)
    requires TimedFrom(history, since, available) && m.Check? && m.available == available
    ensures TimedFrom(history + [m], Some(Since(since, m.now)), available)
    ensures m.wait <= m.now - Since(since, m.now) ==> Waited(history + [m], |history|, available)
  {
    var more := history + [m];
    if since.None? {
      assert more[|history|] == m && Unbroken(more, |history|, |more|, available);
    } else {
      var k :| 0 <= k < |history| && history[k].Check? && history[k].now == since.value
          && Unbroken(history, k, |history|, available);
      UnbrokenMore(history, m, k, available);
      assert more[k] == history[k];
      assert Unbroken(more, k, |history|, available);
    }
  }

  lemma TimerIdles(history: seq<Mark>, m: Mark, since: Option<int>, available: bool)
    requires TimedFrom(history, since, available) && !m.Check? && !m.Fresh?
    ensures TimedFrom(history + [m], since, available)
  {
    if since.Some? {
      var k :| 0 <= k < |history| && history[k].Check? && history[k].now == since.value
          && Unbroken(history, k, |history|, available);
      UnbrokenMore(history, m, k, available);
      assert (history + [m])[k] == history[k];
    }
  }

  lemma TimersStep(st: Story, e: Event)
    requires TimersOk(st)
    ensures TimersOk(Tell(st, e))
  {
    hide Next, MarkOf, TimedFrom;
    FailoverStep(st.agent, e);
    var f, g, m := st.agent.failover, Next(st.agent, e).failover, MarkOf(st.agent, e);
    var more := st.history + [m];
    NoTimer(more, true);
    NoTimer(more, false);
    if m.Check? && m.available {
      TimerRuns(st.history, m, f.availableSince, true);
      assert g.availableSince == None || g.availableSince == Some(Since(f.availableSince, m.now));
    } else if m.Check? {
      TimerRuns(st.history, m, f.unavailableSince, false);
      assert g.unavailableSince == Some(Since(f.unavailableSince, m.now));
    } else if !m.Fresh? {
      TimerIdles(st.history, m, f.availableSince, true);
      TimerIdles(st.history, m, f.unavailableSince, false);
    }
  }

  lemma PatienceStep(st: Story, e: Event)
    requires TimersOk(st) && Patient(st.history)
    ensures Patient(Tell(st, e).history)
  {
    hide Next, MarkOf, Waited, TimedFrom;
    FailoverStep(st.agent, e);
    var f, m := st.agent.failover, MarkOf(st.agent, e);
    var more := st.history + [m];
    if m.Check? { TimerRuns(st.history, m, if m.available then f.availableSince else f.unavailableSince, m.available); }
    forall n | 0 <= n < |more| && more[n].Check?
      ensures (more[n].switch.Started? ==> Waited(more, n, false))
              && (more[n].switch.Returned? ==> Waited(more, n, true))
    {
      if n < |st.history| {
        assert more[n] == st.history[n];
        if more[n].switch.Started? { PrefixWaited(st.history, m, n, false); }
        if more[n].switch.Returned? { PrefixWaited(st.history, m, n, true); }
      }
    }
  }

  lemma NoTimer(history: seq<Mark>, available: bool)
    ensures TimedFrom(history, None, available)
  {
  }

  lemma {:induction false} PatienceRuns(st: Story, events: seq<Event>)
    requires TimersOk(st) && Patient(st.history)
    ensures TimersOk(Run(st, events)) && Patient(Run(st, events).history)
    decreases |events|
  {
    hide Tell, TimersOk, Patient;
    if events != [] {
      TimersStep(st, events[0]);
      PatienceStep(st, events[0]);
      PatienceRuns(Tell(st, events[0]), events[1..]);
    }
  }

  /**
   The fallback is started only after every check of a span at least as long as the wait found
   the primary unavailable, and left only after every check of such a span found it back.
   */
  lemma FailoverIsPatient(events: seq<Event>, n: nat)
    requires n < |Run(PROLOGUE, events).history|
    ensures var history := Run(PROLOGUE, events).history;
            history[n].Check? ==>
              && (history[n].switch.Started? ==> Waited(history, n, false))
              && (history[n].switch.Returned? ==> Waited(history, n, true))
  {
    hide Run;
    PatienceRuns(PROLOGUE, events);
  }

  /** The two failover timers never run together. */
  lemma OneTimer(events: seq<Event>)
    ensures var f := Run(PROLOGUE, events).agent.failover; f.unavailableSince.None? || f.availableSince.None?
  {
    hide Run;
    PatienceRuns(PROLOGUE, events);
  }

  /** A failed probe alone starts the fallback only after a minute, and never while the primary hashes. */
  lemma FailedProbeIsNoReason(a: Agent, p: Probe, now: int, h: Host)
    requires p.failed && !a.failover.active && Reconcile(a, p, now, h).failover.active
    ensures a.running.None? || p.hashrate <= 0.0
    ensures now - Since(a.failover.unavailableSince, now) >= 60 * SECOND
  {
    hide Fold, Start;
  }

  // ----- alternation -----

  /** Whether the fallback is active according to the history. */
  function ActiveAfter(history: seq<Mark>): bool {
    if history == [] then false
    else
      var m := history[|history| - 1];
      if m.Fresh? then false
      else if m.Check? && m.switch.Started? then true
      else if m.Check? && m.switch.Returned? then false
      else ActiveAfter(history[..|history| - 1])
  }

  predicate Leaves(m: Mark) { m.Fresh? || (m.Check? && m.switch.Returned?) }
  predicate Enters(m: Mark) { m.Check? && m.switch.Started? }

  predicate Consistent(history: seq<Mark>) {
    forall n :: 0 <= n < |history| && history[n].Check? ==>
      && (history[n].switch.Started? ==> !ActiveAfter(history[..n]))
      && (history[n].switch.Returned? ==> ActiveAfter(history[..n]))
  }

  lemma ConsistentStep(st: Story, e: Event)
    requires st.agent.failover.active == ActiveAfter(st.history) && Consistent(st.history)
    ensures var t := Tell(st, e); t.agent.failover.active == ActiveAfter(t.history) && Consistent(t.history)
  {
    hide Next, MarkOf;
    FailoverStep(st.agent, e);
    var m := MarkOf(st.agent, e);
    var more := st.history + [m];
    assert more[..|st.history|] == st.history;
    forall n | 0 <= n < |more| && more[n].Check?
      ensures (more[n].switch.Started? ==> !ActiveAfter(more[..n]))
              && (more[n].switch.Returned? ==> ActiveAfter(more[..n]))
    {
      if n < |st.history| { assert more[..n] == st.history[..n] && more[n] == st.history[n]; }
    }
  }

  lemma {:induction false} ConsistentRuns(st: Story, events: seq<Event>)
    requires st.agent.failover.active == ActiveAfter(st.history) && Consistent(st.history)
    ensures var t := Run(st, events); t.agent.failover.active == ActiveAfter(t.history) && Consistent(t.history)
    decreases |events|
  {
    hide Tell, Consistent, ActiveAfter;
    if events != [] {
      ConsistentStep(st, events[0]);
      ConsistentRuns(Tell(st, events[0]), events[1..]);
    }
  }

  /** The history changes between active and inactive only through a mark that says so. */
  lemma {:induction false} ChangesAreMarked(history: seq<Mark>, i: nat, j: nat)
    requires i <= j <= |history| && ActiveAfter(history[..i]) != ActiveAfter(history[..j])
    ensures exists m :: i <= m < j && (if ActiveAfter(history[..i]) then Leaves(history[m]) else Enters(history[m]))
    decreases j
  {
    if i < j {
      assert history[..j][..j - 1] == history[..j - 1] && history[..j][j - 1] == history[j - 1];
      if ActiveAfter(history[..j - 1]) != ActiveAfter(history[..j])
          && ActiveAfter(history[..i]) == ActiveAfter(history[..j - 1])
      {
        assert if ActiveAfter(history[..i]) then Leaves(history[j - 1]) else Enters(history[j - 1]);
      } else {
        ChangesAreMarked(history, i, j - 1);
      }
    }
  }

  /** Between two starts of the fallback lies a return to the primary or a reset, and between two returns a start. */
  lemma StartsAndReturnsAlternate(events: seq<Event>, i: nat, j: nat)
    requires var history := Run(PROLOGUE, events).history; i < j < |history| && history[i].Check? && history[j].Check?
    ensures var history := Run(PROLOGUE, events).history;
            && (history[i].switch.Started? && history[j].switch.Started? ==>
                exists m :: i < m < j && Leaves(history[m]))
            && (history[i].switch.Returned? && history[j].switch.Returned? ==>
                exists m :: i < m < j && Enters(history[m]))
  {
    hide Run;
    ConsistentRuns(PROLOGUE, events);
    var history := Run(PROLOGUE, events).history;
    assert history[..i + 1][..i] == history[..i] && history[..i + 1][i] == history[i];
    if history[i].switch.Started? && history[j].switch.Started? { ChangesAreMarked(history, i + 1, j); }
    if history[i].switch.Returned? && history[j].switch.Returned? { ChangesAreMarked(history, i + 1, j); }
  }

  // ----- the watchdog -----

  predicate Acts(m: Mark) { m.Beat? && (m.verdict.Restarted? || m.verdict.Rebooted?) }
  predicate Bad(m: Mark) { m.Beat? && (m.verdict.Low? || Acts(m)) }

  /** A healthy sample or a completed failover switch ends a spell of low hashrate. */
  predicate Relieves(m: Mark) { (m.Beat? && m.verdict.Healthy?) || (m.Check? && !m.switch.Stay?) }

  /** The whole effect of one event on the watchdog's counters, by its mark. */
  lemma WatchdogStep(a: Agent, e: Event)
    ensures var b, m := Next(a, e), MarkOf(a, e);
            && (Relieves(m) ==> b.lowSince.None? && b.failures == 0)
            && (m.Beat? && m.verdict.Ignored? ==> b.lowSince == a.lowSince && b.failures == a.failures)
            && (m.Beat? && m.verdict.Unjudged? ==> b.lowSince.None? && b.failures == a.failures)
            && (m.Beat? && m.verdict.Low? ==> b.lowSince == Some(Since(a.lowSince, m.now)) && b.failures == a.failures)
            && (Acts(m) ==> && a.lowSince.Some? && m.now - a.lowSince.value >= m.delay
                            && b.lowSince == Some(m.now) && b.failures == a.failures + 1)
            && (m.Beat? && m.verdict.Rebooted? ==> m.rebootAfter > 0 && b.failures >= m.rebootAfter)
            && (!m.Beat? && !Relieves(m) ==> b.lowSince == a.lowSince && b.failures == a.failures)
            && (m.Beat? ==> m.delay > 0)
  {
    hide Start, Stop, TooHot, Fold, FailoverDelay, FailoverWait;
    match e
    case Syncs(s) => SyncResets(a, s);
    case Starts(s, synced, h) => SyncResets(a, s);
    case _ =>
  }

  predicate ClockOk(st: Story) {
    && (forall i :: 0 <= i < |st.history| && st.history[i].Beat? ==> st.history[i].now <= st.clock)
    && (st.agent.lowSince.Some? ==> st.agent.lowSince.value <= st.clock)
    && (st.agent.lowSince.Some? ==> forall i :: 0 <= i < |st.history| && Acts(st.history[i]) ==>
        st.history[i].now <= st.agent.lowSince.value)
  }

  predicate Spaced(history: seq<Mark>) {
    forall i, j :: 0 <= i < j < |history| && Acts(history[i]) && Acts(history[j]) ==>
        history[j].now - history[i].now >= history[j].delay
  }

  lemma SpacingStep(st: Story, e: Event)
    requires ClockOk(st) && Spaced(st.history) && Punctual(st, e)
    ensures ClockOk(Tell(st, e)) && Spaced(Tell(st, e).history)
  {
    WatchdogStep(st.agent, e);
    MarkTime(st.agent, e);
    hide Next, MarkOf;
  }

  lemma MarkTime(a: Agent, e: Event)
    ensures MarkOf(a, e).Beat? ==> e.Beats? && MarkOf(a, e).now == e.now
    ensures MarkOf(a, e).Check? ==> e.Checks? && MarkOf(a, e).now == e.now
  {
    hide Reconcile, Watch, Next, Available;
  }

  lemma {:induction false} SpacingRuns(st: Story, events: seq<Event>)
    requires ClockOk(st) && Spaced(st.history) && Possible(st, events)
    ensures ClockOk(Run(st, events)) && Spaced(Run(st, events).history)
    decreases |events|
  {
    hide Tell, ClockOk, Spaced, Punctual;
    if events != [] {
      SpacingStep(st, events[0]);
      SpacingRuns(Tell(st, events[0]), events[1..]);
    }
  }

  /** Restarts and reboots for low hashrate are at least the restart delay apart. */
  lemma WatchdogActionsSpaced(events: seq<Event>, i: nat, j: nat)
    requires Possible(PROLOGUE, events)
    requires var history := Run(PROLOGUE, events).history; i < j < |history| && Acts(history[i]) && Acts(history[j])
    ensures var history := Run(PROLOGUE, events).history; history[j].now - history[i].now >= history[j].delay
  {
    hide Run, Possible;
    SpacingRuns(PROLOGUE, events);
  }

  predicate SteadyDelay(history: seq<Mark>, delay: int) {
    forall i :: 0 <= i < |history| && history[i].Beat? ==> history[i].delay == delay
  }

  /** A low sample with no relief since. */
  predicate Spell(history: seq<Mark>, k: nat, n: nat) {
    && k < |history| && Bad(history[k])
    && forall i :: k <= i <= n && i < |history| ==> !Relieves(history[i])
  }

  /** Each counted failure took the full delay. */
  predicate SpellOk(st: Story, delay: int) {
    st.agent.failures > 0 || st.agent.lowSince.Some? ==>
      exists k :: 0 <= k < |st.history| && Spell(st.history, k, |st.history|) && Earned(st, delay, st.history[k].now)
  }

  predicate Earned(st: Story, delay: int, start: int) {
    && (st.agent.lowSince.Some? ==> st.agent.lowSince.value >= start + st.agent.failures * delay)
    && (st.agent.failures > 0 ==> st.clock >= start + st.agent.failures * delay)
  }

  /** A reboot comes after as many full delays of low hashrate as the policy asks for failures. */
  predicate LongEnough(history: seq<Mark>, n: nat, delay: int)
    requires n < |history| && history[n].Beat?
  {
    exists k :: 0 <= k <= n && Spell(history, k, n) && history[n].now - history[k].now >= history[n].rebootAfter * delay
  }

  predicate Deserved(history: seq<Mark>, delay: int) {
    forall n :: 0 <= n < |history| && history[n].Beat? && history[n].verdict.Rebooted? ==> LongEnough(history, n, delay)
  }

  lemma SpellMore(history: seq<Mark>, m: Mark, k: nat, n: nat)
    requires Spell(history, k, n) && (n >= |history| ==> !Relieves(m))
    ensures Spell(history + [m], k, n) && (n >= |history| ==> Spell(history + [m], k, n + 1))
  {
  }

  lemma EarnedStep(st: Story, e: Event, delay: int, start: int)
    requires ClockOk(st) && Punctual(st, e) && Earned(st, delay, start)
             && (st.agent.failures > 0 || st.agent.lowSince.Some?)
    requires MarkOf(st.agent, e).Beat? ==> MarkOf(st.agent, e).delay == delay
    requires !Relieves(MarkOf(st.agent, e))
    ensures Tell(st, e).agent.failures > 0 || Tell(st, e).agent.lowSince.Some? ==> Earned(Tell(st, e), delay, start)
  {
    hide Next, MarkOf;
    WatchdogStep(st.agent, e);
    MarkTime(st.agent, e);
    var f := st.agent.failures;
    assert (f + 1) * delay == f * delay + delay;
  }

  lemma SpellStep(st: Story, e: Event, delay: int)
    requires ClockOk(st) && Punctual(st, e) && SpellOk(st, delay)
    requires MarkOf(st.agent, e).Beat? ==> MarkOf(st.agent, e).delay == delay
    ensures SpellOk(Tell(st, e), delay)
  {
    hide Next, MarkOf, Earned;
    WatchdogStep(st.agent, e);
    MarkTime(st.agent, e);
    var m, t := MarkOf(st.agent, e), Tell(st, e);
    if t.agent.failures > 0 || t.agent.lowSince.Some? {
      if st.agent.failures > 0 || st.agent.lowSince.Some? {
        var k :| 0 <= k < |st.history| && Spell(st.history, k, |st.history|) && Earned(st, delay, st.history[k].now);
        SpellMore(st.history, m, k, |st.history|);
        EarnedStep(st, e, delay, st.history[k].now);
        assert t.history[k] == st.history[k];
      } else {
        assert t.history[|st.history|] == m && Spell(t.history, |st.history|, |t.history|);
        assert Earned(t, delay, m.now) by { EarnedAtOnce(t, delay, m.now); }
      }
    }
  }

  lemma EarnedAtOnce(st: Story, delay: int, start: int)
    requires st.agent.failures == 0 && (st.agent.lowSince.Some? ==> st.agent.lowSince.value == start)
    ensures Earned(st, delay, start)
  {
  }

  lemma RebootDeserved(st: Story, e: Event, delay: int)
    requires ClockOk(st) && Punctual(st, e) && SpellOk(st, delay) && Deserved(st.history, delay)
    requires MarkOf(st.agent, e).Beat? ==> MarkOf(st.agent, e).delay == delay
    ensures Deserved(Tell(st, e).history, delay)
  {
    hide Next, MarkOf;
    WatchdogStep(st.agent, e);
    var m, t := MarkOf(st.agent, e), Tell(st, e);
    forall n | 0 <= n < |t.history| && t.history[n].Beat? && t.history[n].verdict.Rebooted?
      ensures LongEnough(t.history, n, delay)
    {
      if n < |st.history| {
        assert st.history[n] == t.history[n];
        var k :| 0 <= k <= n && Spell(st.history, k, n)
            && st.history[n].now - st.history[k].now >= st.history[n].rebootAfter * delay;
        SpellMore(st.history, m, k, n);
        assert t.history[k] == st.history[k];
      } else {
        var k :| 0 <= k < |st.history| && Spell(st.history, k, |st.history|) && Earned(st, delay, st.history[k].now);
        SpellMore(st.history, m, k, |st.history|);
        assert t.history[k] == st.history[k] && t.history[n] == m;
        FailuresTake(st.agent.failures, m.rebootAfter, delay);
      }
    }
  }

  lemma FailuresTake(failures: nat, needed: int, delay: int)
    requires failures + 1 >= needed && delay > 0
    ensures (failures + 1) * delay >= needed * delay && (failures + 1) * delay == failures * delay + delay
  {
  }

  lemma {:induction false} SpellRuns(st: Story, events: seq<Event>, delay: int)
    requires ClockOk(st) && Spaced(st.history) && SpellOk(st, delay) && Deserved(st.history, delay)
             && Possible(st, events)
    requires SteadyDelay(Run(st, events).history, delay)
    ensures Deserved(Run(st, events).history, delay)
    decreases |events|
  {
    hide ClockOk, Spaced, SpellOk, Deserved, Punctual, Next, MarkOf, SteadyDelay;
    if events != [] {
      var t := Tell(st, events[0]);
      SpacingStep(st, events[0]);
      HistoryGrows(t, events[1..]);
      SteadyEarlier(t, Run(t, events[1..]).history, MarkOf(st.agent, events[0]), |st.history|, delay);
      SpellStep(st, events[0], delay);
      RebootDeserved(st, events[0], delay);
      SpellRuns(t, events[1..], delay);
    }
  }

  lemma {:induction false} HistoryGrows(st: Story, events: seq<Event>)
    ensures |st.history| <= |Run(st, events).history| && Run(st, events).history[..|st.history|] == st.history
    decreases |events|
  {
    hide Next, MarkOf;
    if events != [] {
      var t := Tell(st, events[0]);
      HistoryGrows(t, events[1..]);
      assert t.history[..|st.history|] == st.history;
      assert Run(t, events[1..]).history[..|st.history|] == Run(t, events[1..]).history[..|t.history|][..|st.history|];
    }
  }

  lemma SteadyEarlier(t: Story, final: seq<Mark>, m: Mark, n: nat, delay: int)
    requires n < |t.history| <= |final| && final[..|t.history|] == t.history && t.history[n] == m
             && SteadyDelay(final, delay)
    ensures m.Beat? ==> m.delay == delay
  {
    assert final[n] == final[..|t.history|][n];
  }

  /**
   Under one restart delay, a watchdog reboot comes no sooner than the asked number of delays after
   a low sample, without relief in between.
   */
  lemma RebootIsLastResort(events: seq<Event>, n: nat, delay: int)
    requires Possible(PROLOGUE, events) && SteadyDelay(Run(PROLOGUE, events).history, delay)
    requires var history := Run(PROLOGUE, events).history;
             n < |history| && history[n].Beat? && history[n].verdict.Rebooted?
    ensures LongEnough(Run(PROLOGUE, events).history, n, delay)
  {
    hide Run, Possible, SteadyDelay;
    SpellRuns(PROLOGUE, events, delay);
  }

  /** Without a temperature limit the watchdog does nothing, whatever minimum hashrate it was given. */
  lemma NoLimitNoWatchdog(a: Agent, m: Metrics, now: int, h: Host)
    requires !Watch(a, m, now, h).verdict.Ignored? && !Watch(a, m, now, h).verdict.Unjudged?
    ensures a.config.watchdog.enabled && a.config.watchdog.maxTemperature > 0.0 && a.config.watchdog.minHashrate > 0.0
  {
    hide TooHot, Start, Stop;
  }
}
