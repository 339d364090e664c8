/**
 The store as a database: memory, the last saved document on disk, and runs of operations
 whose saves may fail and between which the controller may restart.
 */
module StoreRuns {
  import opened Wrappers
  import opened Tuning
  import opened Templates
  import opened CommandQueue
  import opened StoreState
  import opened StoreEffects

  /** issued: every identifier ever drawn; a new one differs from all of them. */
  datatype Db = Db(memory: State, disk: State, issued: set<Id>)

  datatype Op =
    | OpSaveFarm(farm: Farm, minted: Id, textOk: bool)
    | OpSaveWallet(wallet: Wallet, minted: Id, textOk: bool)
    | OpSavePool(pool: Pool, minted: Id, textOk: bool)
    | OpSaveMiner(miner: Miner, minted: Id, textOk: bool, order: seq<Id>)
    | OpSaveSheet(sheet: Sheet, minted: Id, textOk: bool)
    | OpSaveProfile(profile: Profile, minted: Id, textOk: bool)
    | OpAssign(rigId: Id, assignment: Assignment)
    | OpPower(watts: int)
    | OpDelete(kind: Kind, id: Id, filesOk: bool)
    | OpQuick(input: QuickInput, checks: QuickChecks, quick: QuickFresh, orders: QuickOrder)
    | OpSaveSchedule(schedule: Schedule, minted: Id, textOk: bool)
    | OpRunSchedules(moment: Moment, order: seq<Id>, tokens: Tokens)
    | OpEnroll(name: string, minted: Id, authorized: bool)
    | OpDeleteRig(rigId: Id)
    | OpHeartbeat(rigId: Id, telemetry: Telemetry, recorded: bool)
    | OpUpload(minerId: Id, seen: Miner, binary: string, package: string, fileOk: bool)
    | OpAddCommand(rigId: Id, request: Request, minted: Id, now: int, textOk: bool, guardOk: bool)
    | OpAddCommands(rigIds: seq<Id>, action: Option<Action>, commandProfile: string, drawn: seq<Id>)
    | OpNext(rigId: Id, now: int)
    | OpFinish(rigId: Id, commandId: Id, result: Result, order: seq<Id>)
    | OpServe(rigId: Id)
    | OpRestart

  function EffectOf(cat: Catalog, s: State, op: Op): Effect {
    match op
    case OpSaveFarm(v, id, ok) => SaveFarm(s, v, id, ok)
    case OpSaveWallet(v, id, ok) => SaveWallet(s, v, id, ok)
    case OpSavePool(v, id, ok) => SavePool(s, v, id, ok)
    case OpSaveMiner(v, id, ok, order) => SaveMiner(s, v, id, ok, order)
    case OpSaveSheet(v, id, ok) => SaveSheet(cat, s, v, id, ok)
    case OpSaveProfile(v, id, ok) => SaveProfile(s, v, id, ok)
    case OpAssign(r, a) => AssignWorker(s, r, a)
    case OpPower(w) => SetPowerPolicy(s, w)
    case OpDelete(k, id, ok) => Delete(s, k, id, ok)
    case OpQuick(q, checks, ids, orders) => QuickSetup(s, q, checks, ids, orders)
    case OpSaveSchedule(v, id, ok) => SaveSchedule(s, v, id, ok)
    case OpRunSchedules(now, order, tokens) => RunSchedules(s, now, order, tokens)
    case OpEnroll(name, id, ok) => Enroll(s, name, id, ok)
    case OpDeleteRig(r) => DeleteRig(s, r)
    case OpHeartbeat(r, t, ok) => Heartbeat(s, r, t, ok)
    case OpUpload(m, seen, binary, package, ok) => UploadMiner(s, m, seen, binary, package, ok)
    case OpAddCommand(r, request, id, now, textOk, guardOk) => AddCommand(s, r, request, id, now, textOk, guardOk)
    case OpAddCommands(rs, action, profile, ids) => if |ids| == |rs| then AddCommands(s, rs, action, profile, ids)
        else Done(s)
    case OpNext(r, now) => NextCommand(s, r, now)
    case OpFinish(r, c, result, order) => FinishCommand(s, r, c, result, order)
    case OpServe(r) => Done(AfterServing(cat, s, r))
    case OpRestart => Done(s)
  }

  /** The identifiers an operation draws, whether or not it ends up using them. */
  function Drawn(op: Op): set<Id> {
    match op
    case OpSaveFarm(_, id, _) => {id}
    case OpSaveWallet(_, id, _) => {id}
    case OpSavePool(_, id, _) => {id}
    case OpSaveMiner(_, id, _, _) => {id}
    case OpSaveSheet(_, id, _) => {id}
    case OpSaveProfile(_, id, _) => {id}
    case OpQuick(_, _, q, _) => {q.miner, q.wallet, q.pool, q.wallet2, q.pool2, q.sheet}
    case OpSaveSchedule(_, id, _) => {id}
    case OpRunSchedules(_, _, tokens) => tokens.Values
    case OpEnroll(_, id, _) => {id}
    case OpAddCommand(_, _, id, _, _, _) => {id}
    case OpAddCommands(_, _, _, ids) => set i | 0 <= i < |ids| :: ids[i]
    case _ => {}
  }

  predicate Distinct(ids: seq<Id>) {
    forall i, j :: 0 <= i < j < |ids| ==> ids[i] != ids[j]
  }

  /** Random identifiers are new, not empty, and differ from each other; due schedules have enough of them. */
  ghost predicate Enabled(db: Db, op: Op) {
    && Drawn(op) !! db.issued && "" !in Drawn(op)
    && (op.OpQuick? ==>
        Distinct([op.quick.miner, op.quick.wallet, op.quick.pool, op.quick.wallet2, op.quick.pool2, op.quick.sheet]))
    && (op.OpAddCommands? ==> |op.drawn| == |op.rigIds| && Distinct(op.drawn))
    && (op.OpRunSchedules? ==>
        && Distinct(op.order) && EnoughTokens(db.memory.schedules, op.tokens) && Injective(op.tokens))
  }

  ghost predicate EnoughTokens(schedules: map<Id, Schedule>, tokens: Tokens) {
    forall k, n: nat :: k in schedules && n < |schedules[k].rigIds| ==> (k, n) in tokens
  }

  ghost predicate Injective(tokens: Tokens) {
    forall a, b :: a in tokens && b in tokens && a != b ==> tokens[a] != tokens[b]
  }

  /** saved: whether writing and renaming the document succeeded. A failed save restores the last saved state. */
  function Settle(db: Db, effect: Effect, saved: bool): Db {
    match effect
    case Reject(m, _) => db.(memory := m)
    case Done(m) => db.(memory := m)
    case Save(next) => if saved then db.(memory := next, disk := next) else db.(memory := db.disk)
  }

  /** The store after an operation with this effect that drew these identifiers. */
  function Settled(db: Db, effect: Effect, saved: bool, drawn: set<Id>): Db {
    Settle(db, effect, saved).(issued := db.issued + drawn)
  }

  function Step(cat: Catalog, db: Db, op: Op, saved: bool): Db {
    if op.OpRestart? then db.(memory := db.disk) else Settled(db, EffectOf(cat, db.memory, op), saved, Drawn(op))
  }

  datatype Event = Event(op: Op, saved: bool)

  function Run(cat: Catalog, db: Db, events: seq<Event>): Db
    decreases |events|
  {
    if events == [] then db else Run(cat, Step(cat, db, events[0].op, events[0].saved), events[1..])
  }

  ghost predicate Possible(cat: Catalog, db: Db, events: seq<Event>)
    decreases |events|
  {
    events != [] ==>
      && Enabled(db, events[0].op)
      && Possible(cat, Step(cat, db, events[0].op, events[0].saved), events[1..])
  }

  const EMPTY := State(map[], map[], map[], map[], map[], map[], map[], map[], 0)

  /** A new store: nothing but the two starter farms, not yet written but remembered as saved. */
  function NewStore(): Db {
    var s := EMPTY.(farms := map["starter-gpu-farm" := Farm("starter-gpu-farm", "GPU Farm"),
                                 "starter-cpu-farm" := Farm("starter-cpu-farm", "CPU Farm")]);
    Db(s, s, {"starter-gpu-farm", "starter-cpu-farm"})
  }
}
