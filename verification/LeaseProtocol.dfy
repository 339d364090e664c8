/**
 The command protocol between the controller and one rig's agent, over a network that loses,
 delays, reorders and repeats requests and loses replies. The agent and the controller may
 stop at any point, and the controller's saves may fail.

 A request once sent may be handled at any later time, any number of times. The clock of the
 controller may jump either way.
 */
module LeaseProtocol {
  import opened CommandQueue

  type Id = string

  /** Reboot and shutdown are reported before they are carried out. */
  predicate System(a: Action) { a.Reboot? || a.Shutdown? }

  /** Carried out first, reported until the report is acknowledged. */
  predicate Ordinary(a: Action) { !System(a) && !a.SmartTune? }

  const ACCEPTED := Result("", "system action accepted", [])

  /** What the agent's loop is in the middle of. */
  datatype Doing =
    | Idle
    | Holding(command: Command)
    | Cleared(command: Command)
    | Owing(command: Command, result: Result)

  datatype Submission = Submission(command: Command, result: Result)

  datatype Execution = Execution(command: Command, result: Result, epoch: nat)

  datatype Handout = Handout(id: Id, until: int, at: int)

  /**
   commands: the rig's queue by identifier, in memory and on disk alike; frozen once the rig
   is gone. epoch: how often the agent was restarted. sent, log and handed are history.
   */
  datatype Proto = Proto(
    commands: map<Id, Command>,
    gone: bool,
    epoch: nat,
    doing: Doing,
    tuning: set<Command>,
    sent: set<Submission>,
    log: seq<Execution>,
    handed: seq<Handout>)

  datatype Move =
    | Grow(more: map<Id, Command>)
    | Vanish
    | StrayNext(id: Id, now: int, saved: bool)
    | StraySubmit(submission: Submission, lands: bool, saved: bool)
    | Fetch(id: Id, now: int, saved: bool, heard: bool)
    | Execute(result: Result)
    | Deliver(arrives: bool, lands: bool, saved: bool, heard: bool)
    | Confirm(arrives: bool, lands: bool, saved: bool, heard: bool)
    | Act
    | Tune(started: bool, result: Result)
    | Report(tuned: Command, result: Result)
    | RestartAgent

  // ----- the controller's two requests -----

  predicate MayHand(p: Proto, id: Id, now: int) {
    !p.gone && id in p.commands && Leasable(p.commands[id], now)
  }

  /** A request for the next command, answered with this one. */
  function Hand(p: Proto, id: Id, now: int, saved: bool): Proto {
    if MayHand(p, id, now) && saved then
      var c := Leased(p.commands[id], now);
      p.(commands := p.commands[id := c], handed := p.handed + [Handout(id, c.leaseUntil, now)])
    else p
  }

  /** lands: whether a successful tune still applied when it was reported. */
  function Entered(c: Command, result: Result, lands: bool): Command {
    Finished(c, if c.action.SmartTune? && result.error == ""
        && !lands then TUNE_REFUSED else result.error, result.output)
  }

  /** A report handled by the controller. */
  function Enter(p: Proto, s: Submission, lands: bool, saved: bool): Proto {
    if !p.gone && s.command.id in p.commands && p.commands[s.command.id].status.Running? && saved
    then p.(commands := p.commands[s.command.id := Entered(p.commands[s.command.id], s.result, lands)])
    else p
  }

  /** Whether the controller answers the report with success: it entered it, or an earlier one was. */
  predicate Acknowledged(p: Proto, s: Submission, saved: bool) {
    !p.gone && s.command.id in p.commands
        && (Terminal(p.commands[s.command.id]) || (p.commands[s.command.id].status.Running? && saved))
  }

  // ----- moves -----

  ghost predicate Enabled(p: Proto, m: Move) {
    match m
    case Grow(more) => !p.gone && forall k :: k in more ==>
        k !in p.commands && more[k].id == k && more[k].status.Pending?
    case Vanish => true
    case StrayNext(id, now, _) => true
    case StraySubmit(s, _, _) => s in p.sent
    case Fetch(id, now, _, _) => p.doing.Idle? && MayHand(p, id, now)
    case Execute(_) => p.doing.Holding? && Ordinary(p.doing.command.action)
    case Deliver(_, _, _, _) => p.doing.Owing?
    case Confirm(_, _, _, _) => p.doing.Holding? && System(p.doing.command.action)
    case Act => p.doing.Cleared?
    case Tune(_, _) => p.doing.Holding? && p.doing.command.action.SmartTune?
    case Report(c, _) => c in p.tuning
    case RestartAgent => true
  }

  function Step(p: Proto, m: Move): Proto {
    match m
    case Grow(more) => p.(commands := p.commands + more)
    case Vanish => p.(gone := true)
    case StrayNext(id, now, saved) => Hand(p, id, now, saved)
    case StraySubmit(s, lands, saved) => Enter(p, s, lands, saved)
    case Fetch(id, now, saved, heard) =>
      var q := Hand(p, id, now, saved);
      if saved && heard && MayHand(p, id, now) then q.(doing := Holding(q.commands[id])) else q
    case Execute(result) =>
      if p.doing.Holding? then
        p.(log := p.log + [Execution(p.doing.command, result, p.epoch)], doing := Owing(p.doing.command, result))
      else p
    case Deliver(arrives, lands, saved, heard) =>
      if p.doing.Owing? then
        var s := Submission(p.doing.command, p.doing.result);
        var q := p.(sent := p.sent + {s});
        if !arrives then q
        else Enter(q, s, lands, saved).(doing := if heard && Acknowledged(q, s, saved) then Idle else p.doing)
      else p
    case Confirm(arrives, lands, saved, heard) =>
      if p.doing.Holding? then
        var s := Submission(p.doing.command, ACCEPTED);
        var q := p.(sent := p.sent + {s}, doing := Idle);
        if !arrives then q
        else Enter(q, s, lands, saved).(doing := if heard
            && Acknowledged(q, s, saved) then Cleared(p.doing.command) else Idle)
      else p
    case Act =>
      if p.doing.Cleared? then p.(log := p.log + [Execution(p.doing.command, ACCEPTED, p.epoch)], doing := Idle) else p
    case Tune(started, result) =>
      if !p.doing.Holding? then p
      else if started then p.(tuning := p.tuning + {p.doing.command}, doing := Idle)
      else p.(sent := p.sent + {Submission(p.doing.command, result)}, doing := Idle)
    case Report(c, result) => p.(sent := p.sent + {Submission(c, result)})
    case RestartAgent => p.(epoch := p.epoch + 1, doing := Idle, tuning := {})
  }

  function Run(p: Proto, moves: seq<Move>): Proto
    decreases |moves|
  {
    if moves == [] then p else Run(Step(p, moves[0]), moves[1..])
  }

  ghost predicate Possible(p: Proto, moves: seq<Move>)
    decreases |moves|
  {
    moves != [] ==> Enabled(p, moves[0]) && Possible(Step(p, moves[0]), moves[1..])
  }

  /** A freshly enrolled rig. */
  const START := Proto(map[], false, 0, Idle, {}, {}, [], [])

  // ----- the invariant -----

  /** A command the controller issued, as far as identity and action go. */
  predicate Known(p: Proto, c: Command) {
    c.id in p.commands && p.commands[c.id].action == c.action
  }

  predicate Logged(log: seq<Execution>, id: Id) {
    exists i :: 0 <= i < |log| && log[i].command.id == id
  }

  predicate LoggedIn(log: seq<Execution>, id: Id, epoch: nat) {
    exists i :: 0 <= i < |log| && log[i].command.id == id && log[i].epoch == epoch
  }

  predicate Produced(log: seq<Execution>, id: Id, result: Result) {
    exists i :: 0 <= i < |log| && log[i].command.id == id && log[i].result == result
  }

  /** The end of a command shows this result. */
  predicate Shows(c: Command, result: Result) {
    && c.output == result.output
    && (if result.error == "" then c.status.Complete? else c.status.Failed? && c.error == result.error)
  }

  ghost predicate DoingOk(p: Proto) {
    match p.doing
    case Idle => true
    case Holding(c) =>
      && Known(p, c)
      && (System(c.action) ==> !Logged(p.log, c.id))
      && (Ordinary(c.action) ==> !LoggedIn(p.log, c.id, p.epoch))
    case Cleared(c) => Known(p, c) && System(c.action) && !Logged(p.log, c.id) && Terminal(p.commands[c.id])
    case Owing(c, result) => Known(p, c) && Ordinary(c.action) && Produced(p.log, c.id, result)
  }

  /** An execution is over: a system action is recorded, an ordinary one is recorded or still owed. */
  ghost predicate Settled(p: Proto, e: Execution) {
    && Known(p, e.command) && e.epoch <= p.epoch && !e.command.action.SmartTune?
    && (System(e.command.action) ==> Terminal(p.commands[e.command.id]))
    && (Ordinary(e.command.action) && e.epoch == p.epoch ==>
          Terminal(p.commands[e.command.id]) || (p.doing.Owing? && p.doing.command.id == e.command.id))
  }

  ghost predicate LogOk(p: Proto) {
    forall i :: 0 <= i < |p.log| ==> Settled(p, p.log[i])
  }

  ghost predicate OnceOk(log: seq<Execution>) {
    forall i, j :: 0 <= i < j < |log| && log[i].command.id == log[j].command.id ==>
      !System(log[i].command.action) && log[i].epoch < log[j].epoch
  }

  /** A report was produced by an execution, or is the acceptance of a system action, or belongs to a tune. */
  ghost predicate Genuine(log: seq<Execution>, c: Command, result: Result) {
    && (Ordinary(c.action) ==> Produced(log, c.id, result))
    && (System(c.action) ==> result == ACCEPTED)
  }

  ghost predicate SentOk(p: Proto) {
    forall s :: s in p.sent ==> Known(p, s.command) && Genuine(p.log, s.command, s.result)
  }

  ghost predicate TuningOk(p: Proto) {
    forall c :: c in p.tuning ==> Known(p, c) && c.action.SmartTune?
  }

  /** What is recorded was reported. */
  ghost predicate Explained(log: seq<Execution>, c: Command) {
    Terminal(c) && !c.action.SmartTune? ==> exists result :: Genuine(log, c, result) && Shows(c, result)
  }

  ghost predicate QueueOk(p: Proto) {
    forall k :: k in p.commands ==> p.commands[k].id == k && Explained(p.log, p.commands[k])
  }

  predicate LastHandout(handed: seq<Handout>, i: nat) {
    i < |handed| && forall j :: i < j < |handed| ==> handed[j].id != handed[i].id
  }

  ghost predicate HandedOk(p: Proto) {
    && (forall i :: 0 <= i < |p.handed| ==>
          && p.handed[i].id in p.commands
          && var c := p.commands[p.handed[i].id];
             !c.status.Pending? && p.handed[i].until <= c.leaseUntil
                 && p.handed[i].until == p.handed[i].at + LeaseSeconds(c.action)
                 && (LastHandout(p.handed, i) ==> p.handed[i].until == c.leaseUntil))
    && (forall i, j :: 0 <= i < j < |p.handed| && p.handed[i].id == p.handed[j].id ==>
        p.handed[i].until < p.handed[j].at)
  }

  ghost predicate Inv(p: Proto) {
    DoingOk(p) && LogOk(p) && OnceOk(p.log) && SentOk(p) && TuningOk(p) && QueueOk(p) && HandedOk(p)
  }

  // ----- how the controller's part of the state may change -----

  /** Commands keep identity and action, and once terminal stay as they are. */
  ghost predicate Evolves(a: map<Id, Command>, b: map<Id, Command>) {
    forall k :: k in a ==>
        k in b && b[k].action == a[k].action && b[k].id == a[k].id && (Terminal(a[k]) ==> b[k] == a[k])
  }

  lemma StepEvolves(p: Proto, m: Move)
    requires Enabled(p, m)
    ensures Evolves(p.commands, Step(p, m).commands)
  {
    hide Hand, Enter, Entered, Leased, Acknowledged;
    match m
    case StrayNext(id, now, saved) => HandEvolves(p, id, now, saved);
    case Fetch(id, now, saved, _) => HandEvolves(p, id, now, saved);
    case StraySubmit(s, lands, saved) => EnterEvolves(p, s, lands, saved);
    case Deliver(_, lands, saved, _) =>
      var s := Submission(p.doing.command, p.doing.result);
      EnterEvolves(p.(sent := p.sent + {s}), s, lands, saved);
    case Confirm(_, lands, saved, _) =>
      var s := Submission(p.doing.command, ACCEPTED);
      EnterEvolves(p.(sent := p.sent + {s}, doing := Idle), s, lands, saved);
    case _ =>
  }

  lemma HandEvolves(p: Proto, id: Id, now: int, saved: bool)
    ensures Evolves(p.commands, Hand(p, id, now, saved).commands)
  {
  }

  lemma EnterEvolves(p: Proto, s: Submission, lands: bool, saved: bool)
    ensures Evolves(p.commands, Enter(p, s, lands, saved).commands)
  {
  }

  /** The agent's and the network's part survive any change of the queue. */
  lemma EvolvedParts(p: Proto, q: Proto)
    requires Inv(p) && Evolves(p.commands, q.commands)
             && q == p.(commands := q.commands, gone := q.gone, handed := q.handed)
    ensures DoingOk(q) && LogOk(q) && SentOk(q) && TuningOk(q)
  {
    hide Produced, Logged, LoggedIn;
    forall i | 0 <= i < |q.log| ensures Settled(q, q.log[i]) {
      assert Settled(p, p.log[i]);
    }
  }

  lemma HandoutRecorded(p: Proto, id: Id, now: int)
    requires HandedOk(p) && MayHand(p, id, now)
    ensures HandedOk(Hand(p, id, now, true))
  {
    assert LeaseSeconds(p.commands[id].action) >= 30;
    hide LeaseSeconds;
    var q := Hand(p, id, now, true);
    assert forall i :: 0 <= i < |p.handed| ==> q.handed[i] == p.handed[i];
    forall i: nat | LastHandout(q.handed, i) && i < |p.handed|
      ensures LastHandout(p.handed, i) && p.handed[i].id != id
    {
      assert q.handed[|p.handed|].id == id;
      assert forall j :: i < j < |p.handed| ==> p.handed[j] == q.handed[j];
    }
  }

  lemma HandKeeps(p: Proto, id: Id, now: int, saved: bool)
    requires Inv(p)
    ensures Inv(Hand(p, id, now, saved))
  {
    hide DoingOk, LogOk, SentOk, TuningOk, OnceOk, Genuine, HandedOk;
    var q := Hand(p, id, now, saved);
    if MayHand(p, id, now) && saved {
      EvolvedParts(p, q);
      assert Explained(q.log, q.commands[id]);
      HandoutRecorded(p, id, now);
    }
  }

  lemma EnteredShows(log: seq<Execution>, c: Command, result: Result, lands: bool)
    requires Genuine(log, c, result)
    ensures Explained(log, Entered(c, result, lands))
  {
    var d := Entered(c, result, lands);
    if !c.action.SmartTune? {
      assert Shows(d, result) && Genuine(log, d, result);
    }
  }

  lemma EnterKeeps(p: Proto, s: Submission, lands: bool, saved: bool)
    requires Inv(p) && Known(p, s.command) && Genuine(p.log, s.command, s.result)
    ensures Inv(Enter(p, s, lands, saved))
    ensures Acknowledged(p, s, saved) ==> Terminal(Enter(p, s, lands, saved).commands[s.command.id])
  {
    hide DoingOk, LogOk, SentOk, TuningOk, OnceOk, Produced, Explained;
    var q := Enter(p, s, lands, saved);
    var c := s.command;
    if c.id in p.commands && p.commands[c.id].status.Running? && saved && !p.gone {
      EvolvedParts(p, q);
      EnteredShows(p.log, p.commands[c.id], s.result, lands);
    }
  }

  lemma GrowKeeps(p: Proto, more: map<Id, Command>)
    requires Inv(p) && Enabled(p, Grow(more))
    ensures Inv(Step(p, Grow(more)))
  {
    hide DoingOk, LogOk, SentOk, TuningOk, OnceOk, Genuine;
    EvolvedParts(p, Step(p, Grow(more)));
  }

  // ----- the agent's own moves -----

  lemma ProducedMore(log: seq<Execution>, e: Execution, id: Id, result: Result)
    ensures Produced(log, id, result) ==> Produced(log + [e], id, result)
    ensures id == e.command.id && result == e.result ==> Produced(log + [e], id, result)
  {
    if Produced(log, id, result) {
      var i :| 0 <= i < |log| && log[i].command.id == id && log[i].result == result;
      assert (log + [e])[i] == log[i];
    }
    assert (log + [e])[|log|] == e;
  }

  lemma GenuineMore(log: seq<Execution>, e: Execution)
    ensures forall c, result :: Genuine(log, c, result) ==> Genuine(log + [e], c, result)
    ensures forall c :: Explained(log, c) ==> Explained(log + [e], c)
  {
    forall c, result | Genuine(log, c, result) ensures Genuine(log + [e], c, result) {
      ProducedMore(log, e, c.id, result);
    }
    forall c | Explained(log, c) ensures Explained(log + [e], c) {
      if Terminal(c) && !c.action.SmartTune? {
        var result :| Genuine(log, c, result) && Shows(c, result);
        assert Genuine(log + [e], c, result);
      }
    }
  }

  /** The log grows by one execution that is new in its epoch, or, for a system action, new altogether. */
  lemma LogGrows(p: Proto, e: Execution)
    requires OnceOk(p.log) && LogOk(p) && e.epoch == p.epoch && Known(p, e.command)
    requires System(e.command.action) ==> !Logged(p.log, e.command.id)
    requires !LoggedIn(p.log, e.command.id, p.epoch)
    ensures OnceOk(p.log + [e])
  {
    var log := p.log + [e];
    forall i, j | 0 <= i < j < |log| && log[i].command.id == log[j].command.id
      ensures !System(log[i].command.action) && log[i].epoch < log[j].epoch
    {
      assert Settled(p, p.log[i]);
    }
  }

  lemma ExecuteKeeps(p: Proto, result: Result)
    requires Inv(p) && Enabled(p, Execute(result))
    ensures Inv(Step(p, Execute(result)))
  {
    hide Genuine, Explained, LoggedIn, Logged, Produced;
    var e := Execution(p.doing.command, result, p.epoch);
    var q := Step(p, Execute(result));
    LogGrows(p, e);
    GenuineMore(p.log, e);
    ProducedMore(p.log, e, e.command.id, result);
    forall i | 0 <= i < |q.log| ensures Settled(q, q.log[i]) {
      if i < |p.log| { assert Settled(p, p.log[i]); }
    }
  }

  lemma ActKeeps(p: Proto)
    requires Inv(p) && Enabled(p, Act)
    ensures Inv(Step(p, Act))
  {
    hide Genuine, Explained, Produced;
    var e := Execution(p.doing.command, ACCEPTED, p.epoch);
    var q := Step(p, Act);
    LogGrows(p, e);
    GenuineMore(p.log, e);
    forall i | 0 <= i < |q.log| ensures Settled(q, q.log[i]) {
      if i < |p.log| { assert Settled(p, p.log[i]); }
    }
  }

  lemma SentMore(p: Proto, s: Submission)
    requires Inv(p) && Known(p, s.command) && Genuine(p.log, s.command, s.result)
    ensures Inv(p.(sent := p.sent + {s}))
  {
    hide Genuine, Explained, LoggedIn, Logged, Produced, OnceOk;
    var q := p.(sent := p.sent + {s});
    forall i | 0 <= i < |q.log| ensures Settled(q, q.log[i]) { assert Settled(p, p.log[i]); }
  }

  /** Dropping what the agent was doing, once no owed report is lost or its command is terminal. */
  lemma IdleKeeps(p: Proto)
    requires Inv(p) && (p.doing.Owing? ==> Terminal(p.commands[p.doing.command.id]))
    ensures Inv(p.(doing := Idle))
  {
    hide Genuine, Explained, LoggedIn, Logged, Produced, OnceOk;
    var q := p.(doing := Idle);
    forall i | 0 <= i < |q.log| ensures Settled(q, q.log[i]) { assert Settled(p, p.log[i]); }
  }

  lemma RestartKeeps(p: Proto)
    requires Inv(p)
    ensures Inv(Step(p, RestartAgent))
  {
    hide Genuine, Explained, LoggedIn, Logged, Produced, OnceOk;
    var q := Step(p, RestartAgent);
    forall i | 0 <= i < |q.log| ensures Settled(q, q.log[i]) { assert Settled(p, p.log[i]); }
  }

  lemma DeliverKeeps(p: Proto, arrives: bool, lands: bool, saved: bool, heard: bool)
    requires Inv(p) && p.doing.Owing?
    ensures Inv(Step(p, Deliver(arrives, lands, saved, heard)))
  {
    hide LogOk, SentOk, TuningOk, OnceOk, QueueOk, HandedOk, Explained, Enter, Acknowledged, Produced;
    var s := Submission(p.doing.command, p.doing.result);
    SentMore(p, s);
    var q := p.(sent := p.sent + {s});
    if arrives {
      EnterKeeps(q, s, lands, saved);
      EnterDoes(q, s, lands, saved);
      if heard && Acknowledged(q, s, saved) { IdleKeeps(Enter(q, s, lands, saved)); }
    }
  }

  lemma EnterDoes(p: Proto, s: Submission, lands: bool, saved: bool)
    ensures Enter(p, s, lands, saved) == p.(commands := Enter(p, s, lands, saved).commands)
  {
  }

  lemma ConfirmKeeps(p: Proto, arrives: bool, lands: bool, saved: bool, heard: bool)
    requires Inv(p) && Enabled(p, Confirm(arrives, lands, saved, heard))
    ensures Inv(Step(p, Confirm(arrives, lands, saved, heard)))
  {
    hide LogOk, SentOk, TuningOk, OnceOk, QueueOk, HandedOk, Explained, Enter, Acknowledged, Produced, Logged;
    var s := Submission(p.doing.command, ACCEPTED);
    SentMore(p, s);
    IdleKeeps(p.(sent := p.sent + {s}));
    var q := p.(sent := p.sent + {s}, doing := Idle);
    if arrives {
      EnterKeeps(q, s, lands, saved);
      EnterDoes(q, s, lands, saved);
      EnterKeepsAction(q, s, lands, saved);
      if heard && Acknowledged(q, s, saved) { ClearKeeps(Enter(q, s, lands, saved), p.doing.command); }
    }
  }

  lemma EnterKeepsAction(p: Proto, s: Submission, lands: bool, saved: bool)
    requires Known(p, s.command) && QueueOk(p)
    ensures Known(Enter(p, s, lands, saved), s.command)
  {
  }

  lemma ClearKeeps(p: Proto, c: Command)
    requires Inv(p) && p.doing.Idle? && Known(p, c) && System(c.action) && !Logged(p.log, c.id)
             && Terminal(p.commands[c.id])
    ensures Inv(p.(doing := Cleared(c)))
  {
    hide Genuine, Explained, LoggedIn, Logged, Produced, OnceOk;
    var q := p.(doing := Cleared(c));
    forall i | 0 <= i < |q.log| ensures Settled(q, q.log[i]) { assert Settled(p, p.log[i]); }
  }

  /**
   A command that may be handed out was not executed in this epoch, or is no ordinary one; and never
   was, if it is a system action.
   */
  lemma LeasableUnlogged(p: Proto, id: Id, now: int)
    requires LogOk(p) && MayHand(p, id, now) && p.doing.Idle? && QueueOk(p)
    ensures System(p.commands[id].action) ==> !Logged(p.log, id)
    ensures Ordinary(p.commands[id].action) ==> !LoggedIn(p.log, id, p.epoch)
  {
    hide Explained;
    forall i | 0 <= i < |p.log| && p.log[i].command.id == id
      ensures !System(p.commands[id].action) && (Ordinary(p.commands[id].action) ==> p.log[i].epoch != p.epoch)
    {
      assert Settled(p, p.log[i]);
    }
  }

  lemma FetchKeeps(p: Proto, id: Id, now: int, saved: bool, heard: bool)
    requires Inv(p) && Enabled(p, Fetch(id, now, saved, heard))
    ensures Inv(Step(p, Fetch(id, now, saved, heard)))
  {
    hide Explained, Produced, Logged, LoggedIn, OnceOk, Genuine;
    HandKeeps(p, id, now, saved);
    LeasableUnlogged(p, id, now);
    var q, r := Hand(p, id, now, saved), Step(p, Fetch(id, now, saved, heard));
    forall i | 0 <= i < |r.log| ensures Settled(r, r.log[i]) { assert Settled(q, q.log[i]); }
  }

  lemma TuneKeeps(p: Proto, started: bool, result: Result)
    requires Inv(p) && Enabled(p, Tune(started, result))
    ensures Inv(Step(p, Tune(started, result)))
  {
    hide LogOk, OnceOk, QueueOk, HandedOk, Explained, Produced, Logged, LoggedIn;
    IdleKeeps(p);
    if !started {
      SentMore(p.(doing := Idle), Submission(p.doing.command, result));
    } else {
      var q := p.(doing := Idle);
      TuningMore(q, p.doing.command);
    }
  }

  lemma TuningMore(p: Proto, c: Command)
    requires Inv(p) && Known(p, c) && c.action.SmartTune?
    ensures Inv(p.(tuning := p.tuning + {c}))
  {
    hide Genuine, Explained, LoggedIn, Logged, Produced, OnceOk;
    var q := p.(tuning := p.tuning + {c});
    forall i | 0 <= i < |q.log| ensures Settled(q, q.log[i]) { assert Settled(p, p.log[i]); }
  }

  lemma VanishKeeps(p: Proto)
    requires Inv(p)
    ensures Inv(p.(gone := true))
  {
    hide OnceOk, Explained;
    EvolvedParts(p, p.(gone := true));
  }

  /** Every possible move keeps the invariant. */
  lemma StepKeeps(p: Proto, m: Move)
    requires Inv(p) && Enabled(p, m)
    ensures Inv(Step(p, m))
  {
    hide Inv, Hand, Enter;
    match m
    case Grow(more) => GrowKeeps(p, more);
    case Vanish => VanishKeeps(p);
    case StrayNext(id, now, saved) => HandKeeps(p, id, now, saved);
    case StraySubmit(s, lands, saved) => SentKnown(p, s); EnterKeeps(p, s, lands, saved);
    case Fetch(id, now, saved, heard) => FetchKeeps(p, id, now, saved, heard);
    case Execute(result) => ExecuteKeeps(p, result);
    case Deliver(arrives, lands, saved, heard) => DeliverKeeps(p, arrives, lands, saved, heard);
    case Confirm(arrives, lands, saved, heard) => ConfirmKeeps(p, arrives, lands, saved, heard);
    case Act => ActKeeps(p);
    case Tune(started, result) => TuneKeeps(p, started, result);
    case Report(c, result) => TunedKnown(p, c); SentMore(p, Submission(c, result));
    case RestartAgent => RestartKeeps(p);
  }

  lemma SentKnown(p: Proto, s: Submission)
    requires Inv(p) && s in p.sent
    ensures Known(p, s.command) && Genuine(p.log, s.command, s.result)
  {
    hide DoingOk, LogOk, OnceOk, QueueOk, HandedOk;
  }

  lemma TunedKnown(p: Proto, c: Command)
    requires Inv(p) && c in p.tuning
    ensures Known(p, c) && c.action.SmartTune?
  {
    hide DoingOk, LogOk, OnceOk, QueueOk, HandedOk, SentOk;
  }

  lemma {:induction false} RunKeeps(p: Proto, moves: seq<Move>)
    requires Inv(p) && Possible(p, moves)
    ensures Inv(Run(p, moves))
    decreases |moves|
  {
    hide Inv, Enabled, Step;
    if moves != [] {
      StepKeeps(p, moves[0]);
      RunKeeps(Step(p, moves[0]), moves[1..]);
    }
  }

  lemma Reachable(moves: seq<Move>)
    requires Possible(START, moves)
    ensures Inv(Run(START, moves))
  {
    hide Enabled, Step, Run, Possible;
    RunKeeps(START, moves);
  }

  // ----- what the protocol guarantees -----

  /**
   Through any losses, late requests, expired leases and restarts, a reboot or shutdown command is
   carried out at most once.
   */
  lemma SystemActsOnce(moves: seq<Move>, i: nat, j: nat)
    requires Possible(START, moves)
    requires var log := Run(START, moves).log; i < j < |log| && System(log[i].command.action)
    ensures var log := Run(START, moves).log; log[i].command.id != log[j].command.id
  {
    hide Run, Possible;
    Reachable(moves);
  }

  /** A reboot or shutdown is about to be carried out only when the controller has saved it as complete. */
  lemma RecordedBeforeActing(moves: seq<Move>)
    requires Possible(START, moves) && Run(START, moves).doing.Cleared?
    ensures var p := Run(START, moves);
            && p.doing.command.id in p.commands
            && System(p.commands[p.doing.command.id].action)
            && Shows(p.commands[p.doing.command.id], ACCEPTED)
  {
    hide Run, Possible;
    Reachable(moves);
    var p := Run(START, moves);
    assert Explained(p.log, p.commands[p.doing.command.id]);
  }

  /**
   Within one life of the agent an ordinary command is carried out at most once, so never more often
   than the agent is started.
   */
  lemma OrdinaryOncePerLife(moves: seq<Move>, i: nat, j: nat)
    requires Possible(START, moves)
    requires var log := Run(START, moves).log; i < j < |log| && log[i].command.id == log[j].command.id
    ensures var p := Run(START, moves); p.log[i].epoch < p.log[j].epoch <= p.epoch
  {
    hide Run, Possible;
    Reachable(moves);
    var p := Run(START, moves);
    assert Settled(p, p.log[j]);
  }

  predicate Restarts(moves: seq<Move>) {
    exists i :: 0 <= i < |moves| && moves[i].RestartAgent?
  }

  lemma {:induction false} EpochCounts(p: Proto, moves: seq<Move>)
    requires !Restarts(moves)
    ensures Run(p, moves).epoch == p.epoch
    decreases |moves|
  {
    if moves != [] {
      assert forall i :: 0 <= i < |moves| - 1 ==> moves[1..][i] == moves[i + 1];
      assert !moves[0].RestartAgent?;
      EpochCounts(Step(p, moves[0]), moves[1..]);
    }
  }

  /**
   Without a restart nothing is carried out twice, and what is recorded for an ordinary command is
   what its one execution produced.
   */
  lemma OnceWithoutRestart(moves: seq<Move>, id: Id)
    requires Possible(START, moves) && !Restarts(moves)
    ensures var p := Run(START, moves);
            && (forall i, j :: 0 <= i < j < |p.log| ==> p.log[i].command.id != p.log[j].command.id)
            && (id in p.commands && Ordinary(p.commands[id].action) && Terminal(p.commands[id]) ==>
                  exists i :: 0 <= i < |p.log| && p.log[i].command.id == id && Shows(p.commands[id], p.log[i].result))
  {
    hide Run, Possible;
    Reachable(moves);
    EpochCounts(START, moves);
    var p := Run(START, moves);
    forall i, j | 0 <= i < j < |p.log| ensures p.log[i].command.id != p.log[j].command.id {
      assert Settled(p, p.log[j]);
    }
    if id in p.commands { assert Explained(p.log, p.commands[id]); }
  }

  /** Even across restarts, what is recorded for an ordinary command is what one of its executions produced. */
  lemma RecordedWasProduced(moves: seq<Move>, id: Id)
    requires Possible(START, moves)
    requires var p := Run(START, moves); id in p.commands && Ordinary(p.commands[id].action) && Terminal(p.commands[id])
    ensures var p := Run(START, moves);
            exists i :: 0 <= i < |p.log| && p.log[i].command.id == id && Shows(p.commands[id], p.log[i].result)
  {
    hide Run, Possible;
    Reachable(moves);
    var p := Run(START, moves);
    assert Explained(p.log, p.commands[id]);
  }

  /** A command that ended never changes again. */
  lemma {:induction false} EndedForGood(p: Proto, moves: seq<Move>, id: Id)
    requires Possible(p, moves) && id in p.commands && Terminal(p.commands[id])
    ensures id in Run(p, moves).commands && Run(p, moves).commands[id] == p.commands[id]
    decreases |moves|
  {
    hide Enabled, Step;
    if moves != [] {
      StepEvolves(p, moves[0]);
      EndedForGood(Step(p, moves[0]), moves[1..], id);
    }
  }

  /**
   A command handed out is not handed out again for 30 s, a smart tune not for an hour, a driver update
   not for half an hour.
   */
  lemma LeaseRespected(moves: seq<Move>, i: nat, j: nat)
    requires Possible(START, moves)
    requires var handed := Run(START, moves).handed; i < j < |handed| && handed[i].id == handed[j].id
    ensures var p := Run(START, moves);
            && p.handed[i].id in p.commands
            && var action := p.commands[p.handed[i].id].action;
               && p.handed[i].at + 30 < p.handed[j].at
               && (action.SmartTune? ==> p.handed[i].at + 3600 < p.handed[j].at)
               && (action.DriverUpdate? ==> p.handed[i].at + 1800 < p.handed[j].at)
  {
    hide Run, Possible;
    Reachable(moves);
  }

  /** And just that long: until it ends, it may be handed out again exactly when its last lease has run out. */
  lemma LeasedAgainIff(moves: seq<Move>, i: nat, now: int)
    requires Possible(START, moves) && LastHandout(Run(START, moves).handed, i)
    ensures var p := Run(START, moves);
            && p.handed[i].id in p.commands
            && var c := p.commands[p.handed[i].id];
               MayHand(p, p.handed[i].id, now) <==>
                 && !p.gone && !Terminal(c)
                 && now - p.handed[i].at >
                    match c.action
                    case SmartTune => 3600
                    case DriverUpdate => 1800
                    case _ => 30
  {
    hide Run, Possible;
    Reachable(moves);
  }

  // ----- the price of reporting first -----

  /** The agent holds the command and can still carry it out: its report is acknowledged, or can be. */
  predicate StillComing(p: Proto, id: Id) {
    !p.doing.Idle? && p.doing.command.id == id && (p.doing.Cleared? || (p.doing.Holding? && !p.gone))
  }

  /** A recorded system action that is not still coming is never carried out. */
  lemma {:induction false} NeverComes(p: Proto, moves: seq<Move>, id: Id)
    requires Inv(p) && Possible(p, moves)
    requires id in p.commands && System(p.commands[id].action) && Terminal(p.commands[id]) && !Logged(p.log, id)
             && !StillComing(p, id)
    ensures !Logged(Run(p, moves).log, id)
    decreases |moves|
  {
    hide Inv, Enabled, Step, StillComing;
    if moves != [] {
      StepKeeps(p, moves[0]);
      StepEvolves(p, moves[0]);
      KeyedQueue(p);
      if !p.doing.Idle? { HeldIsKnown(p); }
      StaysMissed(p, moves[0], id);
      NeverComes(Step(p, moves[0]), moves[1..], id);
    }
  }

  /** A possible continuation in which the command is carried out. */
  ghost predicate CarriedOutBy(p: Proto, moves: seq<Move>, id: Id) {
    Possible(p, moves) && Logged(Run(p, moves).log, id)
  }

  /**
   A system action recorded but not carried out can still be if and only if the agent has not let go
   of it, nor holds it unreported after the rig was removed.
   */
  lemma MissedForGoodIff(p: Proto, id: Id)
    requires Inv(p)
    requires id in p.commands && System(p.commands[id].action) && Terminal(p.commands[id]) && !Logged(p.log, id)
    ensures (exists moves: seq<Move> :: CarriedOutBy(p, moves, id)) <==> StillComing(p, id)
  {
    if StillComing(p, id) {
      KeyedQueue(p);
      HeldIsKnown(p);
      var moves := if p.doing.Cleared? then [Act] else [Confirm(true, true, true, true), Act];
      StillComes(p, id, moves);
      assert CarriedOutBy(p, moves, id);
    } else {
      hide Inv, Possible, Run, Logged, StillComing;
      forall moves: seq<Move> | Possible(p, moves) ensures !CarriedOutBy(p, moves, id) {
        NeverComes(p, moves, id);
      }
    }
  }

  lemma HeldIsKnown(p: Proto)
    requires Inv(p) && !p.doing.Idle?
    ensures Known(p, p.doing.command)
  {
    hide LogOk, OnceOk, SentOk, TuningOk, HandedOk, Explained;
  }

  /** Reporting it and acting. */
  lemma StillComes(p: Proto, id: Id, moves: seq<Move>)
    requires StillComing(p, id) && Known(p, p.doing.command) && System(p.doing.command.action)
             && Terminal(p.commands[id])
    requires moves == if p.doing.Cleared? then [Act] else [Confirm(true, true, true, true), Act]
    ensures Possible(p, moves) && Logged(Run(p, moves).log, id)
  {
    var q := if p.doing.Cleared? then p else Step(p, moves[0]);
    assert q.doing == Cleared(p.doing.command);
    var last := Step(q, Act);
    assert last.log[|q.log|].command.id == id;
    assert [Act][1..] == [];
    assert Possible(last, []) && Run(last, []) == last;
    assert Possible(q, [Act]) && Run(q, [Act]) == last;
    if p.doing.Holding? {
      assert moves[1..] == [Act];
    }
  }

  lemma KeyedQueue(p: Proto)
    requires Inv(p)
    ensures forall k :: k in p.commands ==> p.commands[k].id == k
  {
    hide DoingOk, LogOk, OnceOk, SentOk, TuningOk, HandedOk, Explained;
  }

  lemma StaysMissed(p: Proto, m: Move, id: Id)
    requires Enabled(p, m) && id in p.commands && Terminal(p.commands[id]) && System(p.commands[id].action)
             && !Logged(p.log, id)
    requires (forall k :: k in p.commands ==> p.commands[k].id == k) && (!p.doing.Idle? ==> Known(p, p.doing.command))
    requires !StillComing(p, id)
    ensures var q := Step(p, m); !Logged(q.log, id) && !StillComing(q, id)
  {
    hide Enter, Entered;
    match m
    case StraySubmit(s, lands, saved) => EnterDoes(p, s, lands, saved);
    case Deliver(_, lands, saved, _) =>
      var s := Submission(p.doing.command, p.doing.result);
      EnterDoes(p.(sent := p.sent + {s}), s, lands, saved);
    case Confirm(_, lands, saved, _) =>
      var s := Submission(p.doing.command, ACCEPTED);
      EnterDoes(p.(sent := p.sent + {s}, doing := Idle), s, lands, saved);
    case Execute(result) => LoggedGrows(p.log, Execution(p.doing.command, result, p.epoch), id);
    case Act => LoggedGrows(p.log, Execution(p.doing.command, ACCEPTED, p.epoch), id);
    case _ =>
  }

  lemma LoggedGrows(log: seq<Execution>, e: Execution, id: Id)
    ensures Logged(log + [e], id) ==> Logged(log, id) || e.command.id == id
  {
    if Logged(log + [e], id) && e.command.id != id {
      var i :| 0 <= i < |log + [e]| && (log + [e])[i].command.id == id;
      assert log[i].command.id == id;
    }
  }

  /** And that happens: the report is entered, its reply lost. */
  lemma RebootCanBeMissed(id: Id)
    ensures var moves :=
            [Grow(map[id := Queued(id, Reboot, "")]), Fetch(id, 0, true, true), Confirm(true, true, true, false)];
            && Possible(START, moves)
            && var p := Run(START, moves);
               p.doing.Idle? && p.log == [] && id in p.commands && p.commands[id].status.Complete?
  {
    var moves := [Grow(map[id := Queued(id, Reboot, "")]), Fetch(id, 0, true, true), Confirm(true, true, true, false)];
    var a := Step(START, moves[0]);
    var b := Step(a, moves[1]);
    var c := Step(b, moves[2]);
    assert moves[1..][1..] == [moves[2]] && moves[1..][0] == moves[1];
    assert [moves[2]][1..] == [];
    assert Run(c, []) == c && Possible(c, []);
    assert Run(b, [moves[2]]) == c && Possible(b, [moves[2]]);
    assert Run(a, moves[1..]) == c && Possible(a, moves[1..]);
  }
}
