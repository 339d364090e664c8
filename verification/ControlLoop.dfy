/**
 The whole control loop for one rig: the store with all its operations, failed saves and
 restarts, the network, and the rig's agent. Every run of it is a run of the lease protocol,
 so what LeaseProtocol guarantees holds of the store and the agent together.
 */
module ControlLoop {
  import opened Wrappers
  import opened CommandQueue
  import opened StoreState
  import opened StoreEffects
  import opened StoreRuns
  import opened StoreIntegrity
  import opened LeaseComposition
  import Lease = LeaseProtocol

  /** The agent, what it sent, and history. */
  datatype Party = Party(
    epoch: nat,
    doing: Lease.Doing,
    tuning: set<Command>,
    sent: set<Lease.Submission>,
    log: seq<Lease.Execution>,
    handed: seq<Lease.Handout>)

  datatype World = World(db: Db, party: Party)

  const NEWCOMER := Party(0, Lease.Idle, {}, {}, [], [])

  datatype Happening =
    | Operates(op: Op, saved: bool)
    | Asked(now: int, saved: bool, heard: bool)
    | AskedLate(now: int, saved: bool)
    | ReportedLate(report: Lease.Submission, order: seq<Id>, saved: bool)
    | Delivered(order: seq<Id>, saved: bool, heard: bool)
    | Confirmed(order: seq<Id>, saved: bool, heard: bool)
    | Alone(move: Lease.Move)

  function AsProto(commands: map<Id, Command>, gone: bool, y: Party): Lease.Proto {
    Lease.Proto(commands, gone, y.epoch, y.doing, y.tuning, y.sent, y.log, y.handed)
  }

  function PartyOf(p: Lease.Proto): Party {
    Party(p.epoch, p.doing, p.tuning, p.sent, p.log, p.handed)
  }

  /** What the agent does without the controller; requests that get lost are of this kind. */
  predicate OnItsOwn(m: Lease.Move) {
    || m.Execute? || m.Act? || m.Tune? || m.Report? || m.RestartAgent?
    || (m.Deliver? && !m.arrives) || (m.Confirm? && !m.arrives)
  }

  /** The command the controller hands out, if it hands one out. */
  function HandedOut(db: Db, r: Id, now: int, saved: bool): Option<Command> {
    if r in db.memory.rigs && FirstLeasable(db.memory.rigs[r].commands, now) < |db.memory.rigs[r].commands| && saved
    then Some(Leased(db.memory.rigs[r].commands[FirstLeasable(db.memory.rigs[r].commands, now)], now))
    else None
  }

  function Asking(cat: Catalog, r: Id, w: World, now: int, saved: bool, heard: bool): World {
    var c := HandedOut(w.db, r, now, saved);
    World(Step(cat, w.db, OpNext(r, now), saved),
          if c.None? then w.party
          else w.party.(handed := w.party.handed + [Lease.Handout(c.value.id, c.value.leaseUntil, now)],
                        doing := if heard then Lease.Holding(c.value) else w.party.doing))
  }

  function Entering(report: Lease.Submission, r: Id, order: seq<Id>): Op {
    OpFinish(r, report.command.id, report.result, order)
  }

  function Happens(cat: Catalog, r: Id, w: World, h: Happening): World {
    match h
    case Operates(op, saved) => w.(db := Step(cat, w.db, op, saved))
    case Asked(now, saved, heard) => Asking(cat, r, w, now, saved, heard)
    case AskedLate(now, saved) => Asking(cat, r, w, now, saved, false)
    case ReportedLate(report, order, saved) => w.(db := Step(cat, w.db, Entering(report, r, order), saved))
    case Delivered(order, saved, heard) =>
      if !w.party.doing.Owing? then w
      else
        var report := Lease.Submission(w.party.doing.command, w.party.doing.result);
        var op := Entering(report, r, order);
        World(Step(cat, w.db, op, saved),
              w.party.(sent := w.party.sent + {report},
                       doing := if heard
                           && Answered(EffectOf(cat, w.db.memory, op), saved) then Lease.Idle else w.party.doing))
    case Confirmed(order, saved, heard) =>
      if !w.party.doing.Holding? then w
      else
        var report := Lease.Submission(w.party.doing.command, Lease.ACCEPTED);
        var op := Entering(report, r, order);
        World(Step(cat, w.db, op, saved),
              w.party.(sent := w.party.sent + {report},
                       doing := if heard
                           && Answered(EffectOf(cat, w.db.memory, op), saved) then Lease.Cleared(w.party.doing.command)
                           else Lease.Idle))
    case Alone(m) => w.(party := PartyOf(Lease.Step(AsProto(map[], false, w.party), m)))
  }

  /** Operates: anything the store does except handling this rig's requests. */
  ghost predicate CanHappen(r: Id, w: World, h: Happening) {
    match h
    case Operates(op, _) => Enabled(w.db, op) && !(op.OpNext? && op.rigId == r) && !(op.OpFinish? && op.rigId == r)
    case Asked(_, _, _) => w.party.doing.Idle?
    case AskedLate(_, _) => true
    case ReportedLate(report, _, _) => report in w.party.sent
    case Delivered(_, _, _) => w.party.doing.Owing?
    case Confirmed(_, _, _) => w.party.doing.Holding? && Lease.System(w.party.doing.command.action)
    case Alone(m) => OnItsOwn(m) && Lease.Enabled(AsProto(map[], false, w.party), m)
  }

  function Run(cat: Catalog, r: Id, w: World, hs: seq<Happening>): World
    decreases |hs|
  {
    if hs == [] then w else Run(cat, r, Happens(cat, r, w, hs[0]), hs[1..])
  }

  ghost predicate Possible(cat: Catalog, r: Id, w: World, hs: seq<Happening>)
    decreases |hs|
  {
    hs != [] ==> CanHappen(r, w, hs[0]) && Possible(cat, r, Happens(cat, r, w, hs[0]), hs[1..])
  }

  /** The world and a protocol state that describes it. */
  ghost predicate Shows(r: Id, w: World, p: Lease.Proto) {
    SoundDb(w.db) && QueuesSaved(w.db) && Linked(w.db, r, p) && PartyOf(p) == w.party
  }

  function After(p: Lease.Proto, m: Option<Lease.Move>): Lease.Proto {
    if m.Some? then Lease.Step(p, m.value) else p
  }

  // ----- one happening is at most one move -----

  lemma RequestsAreEnabled(db: Db, r: Id, now: int, id: Id, result: Result, order: seq<Id>)
    requires SoundDb(db)
    ensures Enabled(db, OpNext(r, now)) && Enabled(db, OpFinish(r, id, result, order))
  {
    hide Sound;
  }

  /** The agent's part plays no role in how the store and the queue are linked. */
  lemma LinkedAnyParty(db: Db, r: Id, p: Lease.Proto, q: Lease.Proto)
    requires Linked(db, r, p) && p.commands == q.commands && p.gone == q.gone
    ensures Linked(db, r, q)
  {
    hide Matches;
  }

  lemma AskingMoves(cat: Catalog, r: Id, w: World, p: Lease.Proto, now: int, saved: bool, heard: bool)
    returns (m: Option<Lease.Move>)
    requires Shows(r, w, p) && (heard ==> w.party.doing.Idle?)
    ensures m.Some? ==> Lease.Enabled(p, m.value)
    ensures Shows(r, Asking(cat, r, w, now, saved, heard), After(p, m))
  {
    hide Sound, Matches, QueuesSaved, EffectOf;
    RequestsAreEnabled(w.db, r, now, "", Result("", "", []), []);
    StepSound(cat, w.db, OpNext(r, now), saved);
    m := NextMoves(cat, w.db, r, now, saved, r, p);
    AskingHands(w.db, r, now, saved, p, m);
    if m.Some? && heard && saved {
      var fetch := Lease.Fetch(m.value.id, now, saved, heard);
      LinkedAnyParty(Step(cat, w.db, OpNext(r, now), saved), r, Lease.Step(p, m.value), Lease.Step(p, fetch));
      m := Some(fetch);
    }
  }

  /** The store hands out the very command the protocol's move hands out. */
  lemma AskingHands(db: Db, r: Id, now: int, saved: bool, p: Lease.Proto, m: Option<Lease.Move>)
    requires Linked(db, r, p)
    requires m.Some? ==>
             && m.value.StrayNext? && m.value.now == now && m.value.saved == saved && Lease.MayHand(p, m.value.id, now)
                         && NextCommand(db.memory, r, now).Save?
                         && m.value.id == db.memory.rigs[r].commands[FirstLeasable(db.memory.rigs[r].commands, now)].id
    requires NextCommand(db.memory, r, now).Save? ==> m.Some?
    ensures HandedOut(db, r, now, saved).Some? <==> m.Some? && saved
    ensures m.Some? && saved ==> HandedOut(db, r, now, saved).value == Leased(p.commands[m.value.id], now)
  {
  }

  lemma EnteringMoves(cat: Catalog, r: Id, db: Db, p: Lease.Proto, report: Lease.Submission, order: seq<Id>,
      saved: bool) returns (lands: bool)
    requires SoundDb(db) && QueuesSaved(db) && Linked(db, r, p)
    ensures var next := Step(cat, db, Entering(report, r, order), saved);
            && SoundDb(next) && QueuesSaved(next) && Linked(next, r, Lease.Enter(p, report, lands, saved))
            && (Answered(EffectOf(cat, db.memory, Entering(report, r, order)), saved)
                <==> Lease.Acknowledged(p, report, saved))
  {
    hide Sound, Linked, QueuesSaved, EffectOf, Lease.Enter, Lease.Acknowledged;
    RequestsAreEnabled(db, r, 0, report.command.id, report.result, order);
    StepSound(cat, db, Entering(report, r, order), saved);
    lands := FinishMoves(cat, db, report, order, saved, r, p);
  }

  lemma EnterKeepsParty(p: Lease.Proto, report: Lease.Submission, lands: bool, saved: bool, y: Party)
    ensures var q := AsProto(p.commands, p.gone, y);
            && Lease.Enter(q, report, lands, saved) == AsProto(Lease.Enter(p, report, lands, saved).commands, p.gone, y)
            && Lease.Enter(p, report, lands, saved).gone == p.gone
            && PartyOf(Lease.Enter(p, report, lands, saved)) == PartyOf(p)
            && Lease.Acknowledged(q, report, saved) == Lease.Acknowledged(p, report, saved)
  {
  }

  lemma DeliveredMoves(cat: Catalog, r: Id, w: World, p: Lease.Proto, order: seq<Id>, saved: bool, heard: bool)
    returns (m: Lease.Move)
    requires Shows(r, w, p) && w.party.doing.Owing?
    ensures Lease.Enabled(p, m)
    ensures Shows(r, Happens(cat, r, w, Delivered(order, saved, heard)), Lease.Step(p, m))
  {
    hide Sound, QueuesSaved, EffectOf, Lease.Enter, Lease.Acknowledged, Matches;
    var report := Lease.Submission(w.party.doing.command, w.party.doing.result);
    var lands := EnteringMoves(cat, r, w.db, p, report, order, saved);
    m := Lease.Deliver(true, lands, saved, heard);
    EnterKeepsParty(p, report, lands, saved, w.party.(sent := w.party.sent + {report}));
    LinkedAnyParty(Step(cat, w.db, Entering(report, r, order), saved), r, Lease.Enter(p, report, lands, saved),
        Lease.Step(p, m));
  }

  lemma ConfirmedMoves(cat: Catalog, r: Id, w: World, p: Lease.Proto, order: seq<Id>, saved: bool, heard: bool)
    returns (m: Lease.Move)
    requires Shows(r, w, p) && w.party.doing.Holding? && Lease.System(w.party.doing.command.action)
    ensures Lease.Enabled(p, m)
    ensures Shows(r, Happens(cat, r, w, Confirmed(order, saved, heard)), Lease.Step(p, m))
  {
    hide Sound, QueuesSaved, EffectOf, Lease.Enter, Lease.Acknowledged, Matches;
    var report := Lease.Submission(w.party.doing.command, Lease.ACCEPTED);
    var lands := EnteringMoves(cat, r, w.db, p, report, order, saved);
    m := Lease.Confirm(true, lands, saved, heard);
    EnterKeepsParty(p, report, lands, saved, w.party.(sent := w.party.sent + {report}, doing := Lease.Idle));
    LinkedAnyParty(Step(cat, w.db, Entering(report, r, order), saved), r, Lease.Enter(p, report, lands, saved),
        Lease.Step(p, m));
  }

  /** A report for one rig leaves the queues of the others alone. */
  lemma OtherQueuesStay(s: State, q: Id, id: Id, result: Result, order: seq<Id>)
    ensures match FinishCommand(s, q, id, result, order)
            case Reject(m, _) => m == s
            case Done(m) => m == s
            case Save(t) => t.rigs.Keys == s.rigs.Keys && forall x :: x in s.rigs && x != q ==> t.rigs[x] == s.rigs[x]
  {
    hide Completed;
    if q in s.rigs && Find(s.rigs[q].commands, id) < |s.rigs[q].commands| {
      CompletedQueue(s, q, Find(s.rigs[q].commands, id), result, order);
    }
  }

  lemma OtherRigFinish(cat: Catalog, db: Db, op: Op, saved: bool, r: Id, p: Lease.Proto)
    requires SoundDb(db) && QueuesSaved(db) && Linked(db, r, p) && op.OpFinish? && op.rigId != r
    ensures QueuesSaved(Step(cat, db, op, saved)) && Linked(Step(cat, db, op, saved), r, p)
  {
    hide Sound, Matches, FinishCommand;
    OtherQueuesStay(db.memory, op.rigId, op.commandId, op.result, op.order);
  }

  lemma OperatesMoves(cat: Catalog, r: Id, w: World, p: Lease.Proto, op: Op, saved: bool)
    returns (m: Option<Lease.Move>)
    requires Shows(r, w, p) && CanHappen(r, w, Operates(op, saved))
    ensures m.Some? ==> Lease.Enabled(p, m.value)
    ensures Shows(r, w.(db := Step(cat, w.db, op, saved)), After(p, m))
  {
    hide Sound, QueuesSaved, EffectOf, Linked, Enabled, Step;
    StepSound(cat, w.db, op, saved);
    if op.OpFinish? {
      m := None;
      OtherRigFinish(cat, w.db, op, saved, r, p);
    } else if op.OpNext? {
      m := NextMoves(cat, w.db, op.rigId, op.now, saved, r, p);
    } else {
      m := OtherOperationMoves(cat, w.db, op, saved, r, p);
    }
  }

  lemma AloneMoves(r: Id, w: World, p: Lease.Proto, m: Lease.Move)
    requires Shows(r, w, p) && OnItsOwn(m) && Lease.Enabled(AsProto(map[], false, w.party), m)
    ensures Lease.Enabled(p, m)
    ensures Shows(r, w.(party := PartyOf(Lease.Step(AsProto(map[], false, w.party), m))), Lease.Step(p, m))
  {
    hide Sound, QueuesSaved, Matches;
    LinkedAnyParty(w.db, r, p, Lease.Step(p, m));
  }

  lemma HappeningMoves(cat: Catalog, r: Id, w: World, p: Lease.Proto, h: Happening) returns (m: Option<Lease.Move>)
    requires Shows(r, w, p) && CanHappen(r, w, h)
    ensures m.Some? ==> Lease.Enabled(p, m.value)
    ensures Shows(r, Happens(cat, r, w, h), After(p, m))
  {
    hide Sound, QueuesSaved, Linked, EffectOf, Enabled, Lease.Enter, Step;
    match h
    case Operates(op, saved) => m := OperatesMoves(cat, r, w, p, op, saved);
    case Asked(now, saved, heard) => m := AskingMoves(cat, r, w, p, now, saved, heard);
    case AskedLate(now, saved) => m := AskingMoves(cat, r, w, p, now, saved, false);
    case ReportedLate(report, order, saved) =>
      var lands := EnteringMoves(cat, r, w.db, p, report, order, saved);
      EnterKeepsParty(p, report, lands, saved, w.party);
      m := Some(Lease.StraySubmit(report, lands, saved));
    case Delivered(order, saved, heard) =>
      var d := DeliveredMoves(cat, r, w, p, order, saved, heard);
      m := Some(d);
    case Confirmed(order, saved, heard) =>
      var d := ConfirmedMoves(cat, r, w, p, order, saved, heard);
      m := Some(d);
    case Alone(move) =>
      AloneMoves(r, w, p, move);
      m := Some(move);
  }

  // ----- whole runs -----

  /** Every run of the control loop is shown by a run of the protocol. */
  lemma {:induction false} RunMoves(cat: Catalog, r: Id, w: World, p: Lease.Proto, hs: seq<Happening>)
    returns (moves: seq<Lease.Move>)
    requires Shows(r, w, p) && Possible(cat, r, w, hs)
    ensures Lease.Possible(p, moves) && Shows(r, Run(cat, r, w, hs), Lease.Run(p, moves))
    decreases |hs|
  {
    hide Shows, CanHappen, Happens, Lease.Enabled, Lease.Step;
    if hs == [] {
      moves := [];
    } else {
      var m := HappeningMoves(cat, r, w, p, hs[0]);
      var rest := RunMoves(cat, r, Happens(cat, r, w, hs[0]), After(p, m), hs[1..]);
      if m.Some? {
        moves := [m.value] + rest;
        assert moves[1..] == rest;
      } else {
        moves := rest;
      }
    }
  }

  /** The moment a rig has been enrolled. */
  ghost predicate JustEnrolled(db: Db, r: Id) {
    SoundDb(db) && QueuesSaved(db) && r in db.issued && r in db.memory.rigs && db.memory.rigs[r].commands == []
  }

  /** A rig enrolled in any reachable store starts like this. */
  lemma EnrolledIsJustEnrolled(cat: Catalog, events: seq<Event>, name: string, minted: Id)
    requires StoreRuns.Possible(cat, NewStore(), events)
    requires var db := StoreRuns.Run(cat, NewStore(), events);
             Enabled(db, OpEnroll(name, minted, true)) && EffectOf(cat, db.memory, OpEnroll(name, minted, true)).Save?
    ensures JustEnrolled(Step(cat, StoreRuns.Run(cat, NewStore(), events), OpEnroll(name, minted, true), true), minted)
  {
    hide Sound, QueuesSaved, StoreRuns.Possible, StoreRuns.Run, NameTaken;
    NewStoreSound();
    assert QueuesSaved(NewStore()) by { NewQueuesSaved(); }
    RunQueuesSaved(cat, NewStore(), events);
    var db := StoreRuns.Run(cat, NewStore(), events);
    StepSound(cat, db, OpEnroll(name, minted, true), true);
    StepQueuesSaved(cat, db, OpEnroll(name, minted, true), true);
  }

  lemma NewQueuesSaved()
    ensures QueuesSaved(NewStore())
  {
  }

  lemma NewcomerShown(db: Db, r: Id)
    requires JustEnrolled(db, r)
    ensures Shows(r, World(db, NEWCOMER), Lease.START)
  {
  }

  /**
   From the enrolment of a rig on, whatever the store does, however messages are lost,
   delayed or repeated, and however often either side restarts: a reboot or shutdown is
   carried out at most once, an ordinary command at most once in each life of the agent.
   */
  lemma NothingTwice(cat: Catalog, r: Id, db: Db, hs: seq<Happening>, i: nat, j: nat)
    requires JustEnrolled(db, r) && Possible(cat, r, World(db, NEWCOMER), hs)
    requires var log := Run(cat, r, World(db, NEWCOMER), hs).party.log;
             i < j < |log| && log[i].command.id == log[j].command.id
    ensures var log := Run(cat, r, World(db, NEWCOMER), hs).party.log;
            !Lease.System(log[i].command.action) && log[i].epoch < log[j].epoch
  {
    hide Run, Possible, Lease.Run, Lease.Possible, JustEnrolled;
    NewcomerShown(db, r);
    var moves := RunMoves(cat, r, World(db, NEWCOMER), Lease.START, hs);
    SameLog(r, Run(cat, r, World(db, NEWCOMER), hs), Lease.Run(Lease.START, moves));
    if Lease.System(Lease.Run(Lease.START, moves).log[i].command.action) { Lease.SystemActsOnce(moves, i, j); }
    Lease.OrdinaryOncePerLife(moves, i, j);
  }

  lemma SameLog(r: Id, w: World, p: Lease.Proto)
    requires Shows(r, w, p)
    ensures p.log == w.party.log && p.doing == w.party.doing && p.handed == w.party.handed && p.epoch == w.party.epoch
  {
    hide SoundDb, QueuesSaved, Linked;
  }

  /** A command that is complete in the rig's queue. */
  predicate CompleteIn(queue: seq<Command>, id: Id) {
    exists i :: 0 <= i < |queue| && queue[i].id == id && queue[i].status.Complete?
  }

  /**
   When the agent is about to reboot or shut down, the document on the controller's disk says the
   command is complete.
   */
  lemma OnDiskBeforeActing(cat: Catalog, r: Id, db: Db, hs: seq<Happening>)
    requires JustEnrolled(db, r) && Possible(cat, r, World(db, NEWCOMER), hs)
    requires Run(cat, r, World(db, NEWCOMER), hs).party.doing.Cleared?
    ensures var w := Run(cat, r, World(db, NEWCOMER), hs);
            r in w.db.disk.rigs ==> CompleteIn(w.db.disk.rigs[r].commands, w.party.doing.command.id)
  {
    hide Run, Possible, Lease.Run, Lease.Possible, JustEnrolled, Shows, CompleteIn;
    NewcomerShown(db, r);
    var moves := RunMoves(cat, r, World(db, NEWCOMER), Lease.START, hs);
    var w, p := Run(cat, r, World(db, NEWCOMER), hs), Lease.Run(Lease.START, moves);
    SameLog(r, w, p);
    Lease.RecordedBeforeActing(moves);
    if r in w.db.disk.rigs { OnDisk(r, w, p, p.doing.command.id); }
  }

  /** What the protocol state says of a command, the disk says. */
  lemma OnDisk(r: Id, w: World, p: Lease.Proto, id: Id)
    requires Shows(r, w, p) && id in p.commands && p.commands[id].status.Complete? && r in w.db.disk.rigs
    ensures CompleteIn(w.db.disk.rigs[r].commands, id)
  {
    hide Sound;
    var queue := w.db.memory.rigs[r].commands;
    var i :| 0 <= i < |queue| && queue[i].id == id;
  }

  /** Two handouts of one command are a whole lease apart: 30 s, half an hour, an hour. */
  lemma HandoutsApart(cat: Catalog, r: Id, db: Db, hs: seq<Happening>, i: nat, j: nat)
    requires JustEnrolled(db, r) && Possible(cat, r, World(db, NEWCOMER), hs)
    requires var handed := Run(cat, r, World(db, NEWCOMER), hs).party.handed;
             i < j < |handed| && handed[i].id == handed[j].id
    ensures var w := Run(cat, r, World(db, NEWCOMER), hs);
            var first, second := w.party.handed[i], w.party.handed[j];
            && first.at + 30 < second.at
            && (r in w.db.memory.rigs ==>
                  var queue := w.db.memory.rigs[r].commands;
                  forall k :: 0 <= k < |queue| && queue[k].id == first.id ==>
                    && (queue[k].action.SmartTune? ==> first.at + 3600 < second.at)
                    && (queue[k].action.DriverUpdate? ==> first.at + 1800 < second.at))
  {
    hide Run, Possible, Lease.Run, Lease.Possible, JustEnrolled, Shows;
    NewcomerShown(db, r);
    var moves := RunMoves(cat, r, World(db, NEWCOMER), Lease.START, hs);
    var w, p := Run(cat, r, World(db, NEWCOMER), hs), Lease.Run(Lease.START, moves);
    SameLog(r, w, p);
    Lease.LeaseRespected(moves, i, j);
    if r in w.db.memory.rigs {
      var k := InQueue(r, w, p, p.handed[i].id);
    }
  }

  /** A command of the protocol stands in the store's queue, once. */
  lemma InQueue(r: Id, w: World, p: Lease.Proto, id: Id) returns (k: nat)
    requires Shows(r, w, p) && id in p.commands && r in w.db.memory.rigs
    ensures !p.gone
    ensures k < |w.db.memory.rigs[r].commands| && w.db.memory.rigs[r].commands[k] == p.commands[id]
    ensures p.commands[id].id == id
    ensures DistinctIds(w.db.memory.rigs[r].commands)
  {
    hide Sound;
    QueueDistinct(w.db.memory, w.db.issued, r);
    var queue := w.db.memory.rigs[r].commands;
    k :| 0 <= k < |queue| && queue[k].id == id;
  }

  /**
   A command whose reply or report was lost is handed out again: a poll whose save succeeds hands out a
   command that has not ended, and before which none is due, exactly when its last lease has run out.
   */
  lemma HandedAgainIff(cat: Catalog, r: Id, db: Db, hs: seq<Happening>, i: nat, k: nat, now: int, heard: bool)
    requires JustEnrolled(db, r) && Possible(cat, r, World(db, NEWCOMER), hs)
    requires var w := Run(cat, r, World(db, NEWCOMER), hs);
             && Lease.LastHandout(w.party.handed, i) && r in w.db.memory.rigs
             && var queue := w.db.memory.rigs[r].commands;
                && k < |queue| && queue[k].id == w.party.handed[i].id && !Terminal(queue[k])
                && forall j :: 0 <= j < k ==> !Leasable(queue[j], now)
    ensures var w := Run(cat, r, World(db, NEWCOMER), hs);
            var c := w.db.memory.rigs[r].commands[k];
            var lease := match c.action
                         case SmartTune => 3600
                         case DriverUpdate => 1800
                         case _ => 30;
            var next := Asking(cat, r, w, now, true, heard).party;
            && (now - w.party.handed[i].at > lease ==>
                  && next.handed == w.party.handed + [Lease.Handout(c.id, now + lease, now)]
                  && (heard ==>
                        && next.doing.Holding? && next.doing.command.id == c.id
                        && next.doing.command.action == c.action))
            && (now - w.party.handed[i].at <= lease ==>
                  next.handed == w.party.handed
                  || (|next.handed| == |w.party.handed| + 1 && next.handed[|w.party.handed|].id != c.id))
  {
    hide Run, Possible, Lease.Run, Lease.Possible, JustEnrolled, Shows, Step;
    NewcomerShown(db, r);
    var moves := RunMoves(cat, r, World(db, NEWCOMER), Lease.START, hs);
    var w, p := Run(cat, r, World(db, NEWCOMER), hs), Lease.Run(Lease.START, moves);
    SameLog(r, w, p);
    Lease.LeasedAgainIff(moves, i, now);
    var found := InQueue(r, w, p, p.handed[i].id);
    var queue := w.db.memory.rigs[r].commands;
    assert found == k;
    var first := FirstLeasable(queue, now);
    assert first < |queue| && first != k ==> queue[first].id != queue[k].id;
  }
}
