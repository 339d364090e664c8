/**
 The store plays the controller's part of the lease protocol: whatever operation it performs,
 with its save succeeding or failing, a rig's queue makes a move of LeaseProtocol or stands still.
 */
module LeaseComposition {
  import opened Wrappers
  import opened Tuning
  import opened Templates
  import opened CommandQueue
  import opened StoreState
  import opened StoreEffects
  import opened StoreRuns
  import opened StoreIntegrity
  import Lease = LeaseProtocol

  /** Between operations the queues in memory are those on disk. */
  ghost predicate QueuesSaved(db: Db) {
    && db.memory.rigs.Keys == db.disk.rigs.Keys
    && forall r :: r in db.memory.rigs ==> db.memory.rigs[r].commands == db.disk.rigs[r].commands
  }

  ghost predicate Matches(queue: seq<Command>, commands: map<Id, Command>) {
    && (forall i :: 0 <= i < |queue| ==> queue[i].id in commands && commands[queue[i].id] == queue[i])
    && (forall k :: k in commands ==> exists i :: 0 <= i < |queue| && queue[i].id == k)
  }

  ghost predicate Linked(db: Db, r: Id, p: Lease.Proto) {
    && r in db.issued
    && (r in db.memory.rigs <==> !p.gone)
    && (r in db.memory.rigs ==> Matches(db.memory.rigs[r].commands, p.commands))
  }

  /** More commands at the end, all of them pending. */
  ghost predicate Extended(a: seq<Command>, b: seq<Command>) {
    |a| <= |b| && b[..|a|] == a && forall i :: |a| <= i < |b| ==> b[i].status.Pending?
  }

  ghost predicate QueuesExtended(a: map<Id, Rig>, b: map<Id, Rig>) {
    forall r :: r in a && r in b ==> Extended(a[r].commands, b[r].commands)
  }

  // ----- what each operation does to the queues -----

  lemma {:induction false} RedirectedQueues(rigs: map<Id, Rig>, rigIds: seq<Id>, sheetId: Id)
    ensures forall r :: r in rigs ==> Redirected(rigs, rigIds, sheetId)[r].commands == rigs[r].commands
  {
    if rigIds != [] { RedirectedQueues(rigs, rigIds[..|rigIds| - 1], sheetId); }
  }

  lemma {:induction false} VisitedQueues(rigs: map<Id, Rig>, v: Schedule, key: Id, n: nat, tokens: Tokens)
    requires n <= |v.rigIds|
    ensures QueuesExtended(rigs, Visited(rigs, v, key, n, tokens))
  {
    if n > 0 { VisitedQueues(rigs, v, key, n - 1, tokens); }
  }

  lemma ExtendedChain(a: seq<Command>, b: seq<Command>, c: seq<Command>)
    requires Extended(a, b) && Extended(b, c)
    ensures Extended(a, c)
  {
    assert c[..|a|] == c[..|b|][..|a|];
    forall i | |a| <= i < |c| ensures c[i].status.Pending? {
      if i < |b| { assert c[..|b|][i] == c[i]; }
    }
  }

  lemma {:induction false} RunAllQueues(s: State, order: seq<Id>, now: Moment, tokens: Tokens)
    ensures QueuesExtended(s.rigs, RunAll(s, order, now, tokens).rigs)
  {
    hide Extended, Due, Visited;
    if order == [] {
      forall r | r in s.rigs ensures Extended(s.rigs[r].commands, s.rigs[r].commands) {
        ExtendedSelf(s.rigs[r].commands);
      }
    } else {
      var n := |order| - 1;
      RunAllQueues(s, order[..n], now, tokens);
      var mid := RunAll(s, order[..n], now, tokens);
      RunOneQueues(mid, order[n], now, tokens);
      forall r | r in s.rigs ensures Extended(s.rigs[r].commands, RunAll(s, order, now, tokens).rigs[r].commands) {
        ExtendedChain(s.rigs[r].commands, mid.rigs[r].commands, RunAll(s, order, now, tokens).rigs[r].commands);
      }
    }
  }

  lemma RunOneQueues(s: State, key: Id, now: Moment, tokens: Tokens)
    ensures QueuesExtended(s.rigs, RunOne(s, key, now, tokens).rigs)
    ensures RunOne(s, key, now, tokens).rigs.Keys == s.rigs.Keys
  {
    hide Extended, Due, Visited;
    if key in s.schedules && Due(s.schedules[key], now) {
      VisitedQueues(s.rigs, s.schedules[key], key, |s.schedules[key].rigIds|, tokens);
    } else {
      forall r | r in s.rigs ensures Extended(s.rigs[r].commands, s.rigs[r].commands) {
        ExtendedSelf(s.rigs[r].commands);
      }
    }
  }

  lemma ExtendedSelf(q: seq<Command>)
    ensures Extended(q, q)
  {
  }

  lemma {:induction false} EnqueuedQueues(rigs: map<Id, Rig>, rigIds: seq<Id>, action: Action, profile: string,
      minted: seq<Id>)
    requires |minted| == |rigIds|
    ensures QueuesExtended(rigs, EnqueuedAll(rigs, rigIds, action, profile, minted))
  {
    if rigIds != [] { EnqueuedQueues(rigs, rigIds[..|rigIds| - 1], action, profile, minted[..|rigIds| - 1]); }
  }

  /** The operations that leave every queue as it is. */
  predicate QueueBlind(op: Op) {
    || op.OpSaveFarm? || op.OpSaveWallet? || op.OpSavePool? || op.OpSaveMiner? || op.OpSaveSheet? || op.OpSaveProfile?
    || op.OpAssign? || op.OpPower? || op.OpDelete? || op.OpQuick? || op.OpSaveSchedule? || op.OpHeartbeat?
        || op.OpUpload?
    || op.OpServe? || op.OpRestart?
  }

  ghost predicate SameQueues(a: map<Id, Rig>, b: map<Id, Rig>) {
    a.Keys == b.Keys && forall r :: r in a ==> b[r].commands == a[r].commands
  }

  ghost predicate EffectKeepsQueues(s: State, e: Effect) {
    match e
    case Reject(m, _) => SameQueues(s.rigs, m.rigs)
    case Done(m) => SameQueues(s.rigs, m.rigs)
    case Save(t) => SameQueues(s.rigs, t.rigs)
  }

  lemma BumpedQueues(s: State, kind: Resource, id: Id)
    ensures SameQueues(s.rigs, Bumped(s, kind, id).rigs)
  {
    hide Affected;
  }

  lemma WalletQueues(s: State, v: Wallet, minted: Id, ok: bool)
    ensures EffectKeepsQueues(s, SaveWallet(s, v, minted, ok))
  {
    hide Bumped;
    var id := if v.id == "" then minted else v.id;
    BumpedQueues(s.(wallets := s.wallets[id := v.(id := id)]), WalletOf, id);
  }

  lemma PoolQueues(s: State, v: Pool, minted: Id, ok: bool)
    ensures EffectKeepsQueues(s, SavePool(s, v, minted, ok))
  {
    hide Bumped;
    BumpedQueues(s.(pools := s.pools[v.id := v]), PoolOf, v.id);
  }

  lemma MinerQueues(s: State, v: Miner, minted: Id, ok: bool, order: seq<Id>)
    ensures EffectKeepsQueues(s, SaveMiner(s, v, minted, ok, order))
  {
    hide Bumped, CatalogTwin, Inherit;
    var e := SaveMiner(s, v, minted, ok, order);
    if e.Save? {
      var twin := if v.catalogId == "" then None else CatalogTwin(s.miners, v, order);
      var named := if v.id == "" && twin.Some? then v.(id := twin.value) else v;
      var stored := if named.id == "" then named.(id := minted) else Inherit(named, s.miners[named.id]);
      BumpedQueues(s.(miners := s.miners[stored.id := stored]), MinerOf, stored.id);
    }
  }

  lemma SheetQueues(cat: Catalog, s: State, v: Sheet, minted: Id, ok: bool)
    ensures EffectKeepsQueues(s, SaveSheet(cat, s, v, minted, ok))
  {
    hide Bumped, FallbackAccepted, SecondaryAccepted, Fold;
    var e := SaveSheet(cat, s, v, minted, ok);
    if e.Save? {
      var coded := v.(algorithm := cat.forCoin(s.miners[v.minerId].catalogId, v.coin, v.algorithm));
      var coined := coded.(coin := if coded.coin == "" then s.wallets[coded.walletId].coin else coded.coin);
      var id := if coined.id == "" then minted else coined.id;
      BumpedQueues(s.(sheets := s.sheets[id := coined.(id := id)]), SheetOf, id);
    }
  }

  lemma ProfileQueues(s: State, v: Profile, minted: Id, ok: bool)
    ensures EffectKeepsQueues(s, SaveProfile(s, v, minted, ok))
  {
    hide Bumped, SettingsAccepted;
    var id := if v.id == "" then minted else v.id;
    BumpedQueues(s.(profiles := s.profiles[id := v.(id := id)]), ProfileOf, id);
  }

  lemma UploadQueues(s: State, minerId: Id, seen: Miner, binary: string, package: string, ok: bool)
    ensures EffectKeepsQueues(s, UploadMiner(s, minerId, seen, binary, package, ok))
  {
    hide Bumped;
    if minerId in s.miners {
      var m := s.miners[minerId].(binarySha256 := binary, packageSha256 := package, managedBinary := true);
      BumpedQueues(s.(miners := s.miners[minerId := m]), MinerOf, minerId);
    }
  }

  lemma QuickQueues(s: State, q: QuickInput, checks: QuickChecks, minted: QuickFresh, order: QuickOrder)
    ensures EffectKeepsQueues(s, QuickSetup(s, q, checks, minted, order))
  {
    hide WithMiner, PickPrimary, PickSecondary, Redirected, QuickSheet;
    WithMinerKeepsRigs(s, q, order.miners, minted.miner);
    RedirectedQueues(s.rigs, q.rigIds, minted.sheet);
  }

  lemma WithMinerKeepsRigs(s: State, q: QuickInput, order: seq<Id>, minted: Id)
    ensures WithMiner(s, q, order, minted).0.rigs == s.rigs
  {
    hide FindEntry;
  }

  lemma ResolvingKeepsRigs(cat: Catalog, s: State, sheet: Sheet)
    ensures AfterResolving(cat, s, sheet).rigs == s.rigs
  {
    hide RewritesStored, DropWorkers, CloseOver;
  }

  lemma ServingKeepsRigs(cat: Catalog, s: State, rigId: Id)
    ensures AfterServing(cat, s, rigId).rigs == s.rigs
  {
    hide AfterResolving;
    forall t: State, sheet ensures AfterResolving(cat, t, sheet).rigs == t.rigs { ResolvingKeepsRigs(cat, t, sheet); }
  }

  lemma SameQueuesSelf(rigs: map<Id, Rig>)
    ensures SameQueues(rigs, rigs)
  {
  }

  lemma OneRigSame(rigs: map<Id, Rig>, r: Id, rig: Rig)
    requires r in rigs && rig.commands == rigs[r].commands
    ensures SameQueues(rigs, rigs[r := rig])
  {
  }

  lemma PowerQueues(rigs: map<Id, Rig>)
    ensures SameQueues(rigs, PowerBumped(rigs))
  {
  }

  lemma AssignQueues(s: State, rigId: Id, a: Assignment)
    ensures EffectKeepsQueues(s, AssignWorker(s, rigId, a))
  {
    hide Accepts;
  }

  lemma DeleteQueues(s: State, kind: Kind, id: Id, ok: bool)
    ensures EffectKeepsQueues(s, Delete(s, kind, id, ok))
  {
    hide Without, RigRefers, SheetRefers, ScheduleRefers, Exists;
  }

  lemma BlindKeepsQueues(cat: Catalog, s: State, op: Op)
    requires QueueBlind(op)
    ensures EffectKeepsQueues(s, EffectOf(cat, s, op))
  {
    hide SaveWallet, SavePool, SaveMiner, SaveSheet, SaveProfile, UploadMiner, QuickSetup, Delete, AssignWorker,
         AfterServing, EffectKeepsQueues, ScheduleActionAccepted;
    match op
    case OpSaveWallet(v, id, ok) => WalletQueues(s, v, id, ok);
    case OpSavePool(v, id, ok) => PoolQueues(s, v, id, ok);
    case OpSaveMiner(v, id, ok, order) => MinerQueues(s, v, id, ok, order);
    case OpSaveSheet(v, id, ok) => SheetQueues(cat, s, v, id, ok);
    case OpSaveProfile(v, id, ok) => ProfileQueues(s, v, id, ok);
    case OpUpload(m, seen, binary, package, ok) => UploadQueues(s, m, seen, binary, package, ok);
    case OpQuick(q, checks, ids, orders) => QuickQueues(s, q, checks, ids, orders);
    case OpAssign(r, a) => AssignQueues(s, r, a);
    case OpDelete(kind, id, ok) => DeleteQueues(s, kind, id, ok);
    case _ => PlainKeepsQueues(cat, s, op);
  }

  lemma PlainKeepsQueues(cat: Catalog, s: State, op: Op)
    requires op.OpSaveFarm? || op.OpPower? || op.OpSaveSchedule? || op.OpHeartbeat? || op.OpServe? || op.OpRestart?
    ensures EffectKeepsQueues(s, EffectOf(cat, s, op))
  {
    hide AfterServing, ScheduleActionAccepted, PowerBumped, SameQueues;
    SameQueuesSelf(s.rigs);
    PowerQueues(s.rigs);
    if op.OpServe? { ServingKeepsRigs(cat, s, op.rigId); }
    if op.OpHeartbeat? && op.rigId in s.rigs {
      OneRigSame(s.rigs, op.rigId, s.rigs[op.rigId].(telemetry := op.telemetry));
    }
  }

  /** The operations that add commands, add a rig or remove one; the two others are the agent's requests. */
  predicate QueueGrower(op: Op) {
    op.OpRunSchedules? || op.OpEnroll? || op.OpDeleteRig? || op.OpAddCommand? || op.OpAddCommands?
  }

  /** Unsaved, a grower changes nothing; saved, it extends the queues of rigs that stay. */
  lemma GrowerExtends(cat: Catalog, s: State, op: Op)
    requires QueueGrower(op) && Drawn(op) !! s.rigs.Keys
    ensures match EffectOf(cat, s, op)
            case Reject(m, _) => m == s
            case Done(m) => m == s
            case Save(t) => QueuesExtended(s.rigs, t.rigs)
  {
    hide AddCommand, AddCommands, RunSchedules, Enroll, DeleteRig, QueuesExtended;
    match op
    case OpRunSchedules(now, order, tokens) => ScheduledExtends(s, now, order, tokens);
    case OpAddCommands(rs, action, profile, ids) => BulkExtends(s, rs, action, profile, ids);
    case OpEnroll(name, id, ok) => EnrollExtends(s, name, id, ok);
    case OpDeleteRig(r) => DeleteRigExtends(s, r);
    case OpAddCommand(r, request, id, now, textOk, guardOk) => AddExtends(s, r, request, id, now, textOk, guardOk);
  }

  lemma EnrollExtends(s: State, name: string, minted: Id, authorized: bool)
    requires minted !in s.rigs
    ensures match StoreEffects.Enroll(s, name, minted, authorized)
            case Reject(m, _) => m == s
            case Done(m) => m == s
            case Save(t) => QueuesExtended(s.rigs, t.rigs)
  {
    hide NameTaken;
  }

  lemma DeleteRigExtends(s: State, rigId: Id)
    ensures match StoreEffects.DeleteRig(s, rigId)
            case Reject(m, _) => m == s
            case Done(m) => m == s
            case Save(t) => QueuesExtended(s.rigs, t.rigs)
  {
    hide UnscheduledAll;
  }

  lemma ScheduledExtends(s: State, now: Moment, order: seq<Id>, tokens: Tokens)
    ensures match RunSchedules(s, now, order, tokens)
            case Reject(m, _) => m == s
            case Done(m) => m == s
            case Save(t) => QueuesExtended(s.rigs, t.rigs)
  {
    hide RunAll, AnyDue, QueuesExtended;
    RunAllQueues(s, order, now, tokens);
  }

  lemma BulkExtends(s: State, rigIds: seq<Id>, action: Option<Action>, profile: string, minted: seq<Id>)
    ensures |minted| == |rigIds| ==> match AddCommands(s, rigIds, action, profile, minted)
            case Reject(m, _) => m == s
            case Done(m) => m == s
            case Save(t) => QueuesExtended(s.rigs, t.rigs)
  {
    hide EnqueuedAll;
    if |minted| == |rigIds| && action.Some? { EnqueuedQueues(s.rigs, rigIds, action.value, profile, minted); }
  }

  lemma AddExtends(s: State, rigId: Id, request: Request, minted: Id, now: int, textOk: bool, guardOk: bool)
    ensures match AddCommand(s, rigId, request, minted, now, textOk, guardOk)
            case Reject(m, _) => m == s
            case Done(m) => m == s
            case Save(t) => QueuesExtended(s.rigs, t.rigs)
  {
    hide CommandAccepted, QueuesExtended, Extended, TuneAccepted, Enqueue;
    if rigId in s.rigs && CommandAccepted(s, rigId, request, now, textOk, guardOk) {
      AcceptedParts(s, rigId, request, now, textOk, guardOk);
      var rig := AddCommand(s, rigId, request, minted, now, textOk, guardOk).next.rigs[rigId];
      var profile := if request.action.value.SmartTune? then s.profiles[s.rigs[rigId].desired.profileId].id
          else request.profile;
      EnqueueExtends(s.rigs[rigId], minted, request.action.value, profile);
      OneQueueExtends(s.rigs, rigId, rig);
    }
  }

  lemma AcceptedParts(s: State, rigId: Id, request: Request, now: int, textOk: bool, guardOk: bool)
    requires rigId in s.rigs && CommandAccepted(s, rigId, request, now, textOk, guardOk)
    ensures request.action.Some?
    ensures request.action.value.SmartTune? ==> s.rigs[rigId].desired.profileId in s.profiles
  {
    hide HasOpen, Online, TuneAccepted, SharedProfile, TelemetrySuffices;
  }

  lemma EnqueueExtends(rig: Rig, id: Id, action: Action, profile: string)
    ensures Extended(rig.commands, Enqueue(rig, id, action, profile).commands)
  {
  }

  lemma OneQueueExtends(rigs: map<Id, Rig>, r: Id, rig: Rig)
    requires r in rigs && Extended(rigs[r].commands, rig.commands)
    ensures QueuesExtended(rigs, rigs[r := rig])
  {
    hide Extended;
    forall x | x in rigs ensures Extended(rigs[x].commands, rigs[x].commands) { ExtendedSelf(rigs[x].commands); }
  }

  // ----- queues as protocol states -----

  lemma Unmatched(q: seq<Command>, commands: map<Id, Command>, id: Id)
    requires Matches(q, commands) && forall c :: c in q ==> c.id != id
    ensures id !in commands
  {
  }

  lemma ExtendedFront(a: seq<Command>, b: seq<Command>)
    requires Extended(a, b) && |a| < |b| && DistinctIds(b)
    ensures Extended(a, b[..|b| - 1]) && b[|b| - 1].status.Pending? && DistinctIds(b[..|b| - 1])
    ensures forall c :: c in b[..|b| - 1] ==> c.id != b[|b| - 1].id
  {
    assert b[..|b| - 1][..|a|] == b[..|a|];
  }

  lemma MatchedGrows(a: seq<Command>, b: seq<Command>, commands: map<Id, Command>) returns (more: map<Id, Command>)
    requires Matches(a, commands) && Extended(a, b) && DistinctIds(b)
    ensures forall k :: k in more ==> k !in commands && more[k].id == k && more[k].status.Pending?
    ensures Matches(b, commands + more)
    decreases |b|
  {
    if |a| == |b| {
      more := map[];
      assert b == a && commands + more == commands;
    } else {
      hide Matches, DistinctIds, Extended;
      AtLeast(a, b);
      var n := |b| - 1;
      ExtendedFront(a, b);
      var front := MatchedGrows(a, b[..n], commands);
      Unmatched(b[..n], commands + front, b[n].id);
      more := front[b[n].id := b[n]];
      assert commands + more == (commands + front)[b[n].id := b[n]];
      MatchedPut(b[..n], commands + front, b[n]);
      assert b == b[..n] + [b[n]];
    }
  }

  lemma AtLeast(a: seq<Command>, b: seq<Command>)
    requires Extended(a, b)
    ensures |a| <= |b|
  {
  }

  lemma MatchedPut(q: seq<Command>, commands: map<Id, Command>, c: Command)
    requires Matches(q, commands) && c.id !in commands
    ensures Matches(q + [c], commands[c.id := c])
  {
    var b, m := q + [c], commands[c.id := c];
    forall k | k in m ensures exists i :: 0 <= i < |b| && b[i].id == k {
      if k == c.id {
        assert b[|q|].id == k;
      } else {
        var i :| 0 <= i < |q| && q[i].id == k;
        assert b[i].id == k;
      }
    }
  }

  lemma MatchedReplace(q: seq<Command>, commands: map<Id, Command>, i: nat, c: Command)
    requires Matches(q, commands) && DistinctIds(q) && i < |q| && c.id == q[i].id
    ensures Matches(q[i := c], commands[c.id := c])
  {
    var b, m := q[i := c], commands[c.id := c];
    forall k | k in m ensures exists j :: 0 <= j < |b| && b[j].id == k {
      assert k in commands;
      var j :| 0 <= j < |q| && q[j].id == k;
      assert b[j].id == k;
    }
  }

  lemma MatchedAt(q: seq<Command>, commands: map<Id, Command>, i: nat)
    requires Matches(q, commands) && i < |q|
    ensures q[i].id in commands && commands[q[i].id] == q[i]
  {
  }

  // ----- the simulation -----

  lemma QueueDistinct(s: State, issued: set<Id>, r: Id)
    requires Sound(s, issued) && r in s.rigs
    ensures DistinctIds(s.rigs[r].commands) && s.rigs.Keys <= issued
  {
    hide Acyclic, NamesDiffer, SchedulesResolve, SheetsResolve, RigsResolve;
    assert Disciplined(s.rigs[r].commands, issued);
  }

  lemma RigsIssued(s: State, issued: set<Id>)
    requires Sound(s, issued)
    ensures s.rigs.Keys <= issued
  {
    KeysKnown(s, issued);
  }

  /** An operation other than the agent's requests is a stutter, a growth of the queue, or the end of the rig. */
  lemma OtherOperationMoves(cat: Catalog, db: Db, op: Op, saved: bool, r: Id, p: Lease.Proto)
    returns (m: Option<Lease.Move>)
    requires SoundDb(db) && QueuesSaved(db) && Enabled(db, op) && Linked(db, r, p) && !op.OpNext? && !op.OpFinish?
    ensures m.Some? ==> Lease.Enabled(p, m.value) && (m.value.Grow? || m.value.Vanish?)
    ensures var next := Step(cat, db, op, saved);
            QueuesSaved(next) && Linked(next, r, if m.Some? then Lease.Step(p, m.value) else p)
  {
    hide EffectOf, Sound, Matches, Distinct, Injective, EnoughTokens, Extended, Drawn;
    RigsIssued(db.memory, db.issued);
    StepSound(cat, db, op, saved);
    var next := Step(cat, db, op, saved);
    if QueueBlind(op) {
      BlindKeepsQueues(cat, db.memory, op);
      m := None;
    } else {
      GrowerExtends(cat, db.memory, op);
      var e := EffectOf(cat, db.memory, op);
      m := None;
      if e.Save? && saved && r in db.memory.rigs {
        if r in next.memory.rigs {
          QueueDistinct(next.memory, next.issued, r);
          var more := MatchedGrows(db.memory.rigs[r].commands, next.memory.rigs[r].commands, p.commands);
          m := Some(Lease.Grow(more));
        } else {
          m := Some(Lease.Vanish);
        }
      } else if e.Save? && saved {
        NoOldRig(cat, db, op, r);
      }
    }
  }

  /** Whatever is done, memory and disk hold the same queues afterwards. */
  lemma StepQueuesSaved(cat: Catalog, db: Db, op: Op, saved: bool)
    requires SoundDb(db) && QueuesSaved(db) && Enabled(db, op)
    ensures QueuesSaved(Step(cat, db, op, saved))
  {
    hide EffectOf, Sound, Distinct, Injective, EnoughTokens, Drawn, QueuesExtended;
    RigsIssued(db.memory, db.issued);
    if QueueBlind(op) {
      BlindKeepsQueues(cat, db.memory, op);
    } else if QueueGrower(op) {
      GrowerExtends(cat, db.memory, op);
    } else {
      RequestUnsaved(cat, db.memory, op);
    }
  }

  lemma RequestUnsaved(cat: Catalog, s: State, op: Op)
    requires op.OpNext? || op.OpFinish?
    ensures match EffectOf(cat, s, op)
            case Reject(m, _) => m == s
            case Done(m) => m == s
            case Save(_) => true
  {
    hide Completed;
  }

  lemma {:induction false} RunQueuesSaved(cat: Catalog, db: Db, events: seq<Event>)
    requires SoundDb(db) && QueuesSaved(db) && Possible(cat, db, events)
    ensures SoundDb(Run(cat, db, events)) && QueuesSaved(Run(cat, db, events))
    decreases |events|
  {
    hide Sound, QueuesSaved, Enabled, Step;
    if events != [] {
      StepSound(cat, db, events[0].op, events[0].saved);
      StepQueuesSaved(cat, db, events[0].op, events[0].saved);
      RunQueuesSaved(cat, Step(cat, db, events[0].op, events[0].saved), events[1..]);
    }
  }

  /** No operation brings a rig back. */
  lemma NoOldRig(cat: Catalog, db: Db, op: Op, r: Id)
    requires QueueGrower(op) && Drawn(op) !! db.issued && r in db.issued && r !in db.memory.rigs
    requires EffectOf(cat, db.memory, op).Save?
    ensures r !in EffectOf(cat, db.memory, op).next.rigs
  {
    hide RunAll, AnyDue, NameTaken, CommandAccepted, EnqueuedAll, Fold;
  }

  /** The agent's request for a command hands out what the protocol allows, or nothing. */
  lemma NextMoves(cat: Catalog, db: Db, q: Id, now: int, saved: bool, r: Id, p: Lease.Proto)
    returns (m: Option<Lease.Move>)
    requires SoundDb(db) && QueuesSaved(db) && Linked(db, r, p)
    ensures m.Some? ==>
            && q == r && m.value.StrayNext? && m.value.now == now && m.value.saved == saved
            && Lease.MayHand(p, m.value.id, now)
                        && NextCommand(db.memory, q, now).Save?
                        && m.value.id == db.memory.rigs[r].commands[FirstLeasable(db.memory.rigs[r].commands, now)].id
    ensures q == r && NextCommand(db.memory, q, now).Save? ==> m.Some?
    ensures var next := Step(cat, db, OpNext(q, now), saved);
            QueuesSaved(next) && Linked(next, r, if m.Some? then Lease.Step(p, m.value) else p)
  {
    hide Sound, Matches;
    m := None;
    if q == r && r in db.memory.rigs {
      var queue := db.memory.rigs[r].commands;
      var i := FirstLeasable(queue, now);
      if i < |queue| {
        m := Some(Lease.StrayNext(queue[i].id, now, saved));
        QueueDistinct(db.memory, db.issued, r);
        MatchedAt(queue, p.commands, i);
        MatchedReplace(queue, p.commands, i, Leased(queue[i], now));
      }
    }
  }

  predicate Answered(e: Effect, saved: bool) {
    e.Done? || (e.Save? && saved)
  }

  lemma FoundMatches(queue: seq<Command>, commands: map<Id, Command>, id: Id)
    requires Matches(queue, commands)
    ensures Find(queue, id) < |queue| <==> id in commands
    ensures id in commands ==> commands[id] == queue[Find(queue, id)]
  {
    if id in commands {
      var i :| 0 <= i < |queue| && queue[i].id == id;
    }
  }

  lemma CompletedQueue(s: State, r: Id, i: nat, result: Result, order: seq<Id>)
    requires r in s.rigs && i < |s.rigs[r].commands|
    ensures var t := Completed(s, r, i, result, order);
            && t.rigs.Keys == s.rigs.Keys
            && t.rigs[r].commands == s.rigs[r].commands[i :=
                Lease.Entered(s.rigs[r].commands[i], result, TuneLands(s, r, s.rigs[r].commands[i], result))]
            && forall x :: x in s.rigs && x != r ==> t.rigs[x] == s.rigs[x]
  {
    hide TuneLands, TunedProfile, BumpRig, Finished;
    BumpKeepsQueue(Ended(s.rigs[r], i, "", result.output));
  }

  lemma BumpKeepsQueue(rig: Rig)
    ensures BumpRig(rig).commands == rig.commands
  {
  }

  /** The controller's part of a report, on one state. */
  lemma ReportEntered(s: State, report: Lease.Submission, order: seq<Id>, r: Id, p: Lease.Proto, issued: set<Id>)
    returns (lands: bool)
    requires Sound(s, issued) && r in s.rigs && !p.gone && Matches(s.rigs[r].commands, p.commands)
    ensures var e := FinishCommand(s, r, report.command.id, report.result, order);
            && (forall saved :: Answered(e, saved) <==> Lease.Acknowledged(p, report, saved))
            && (match e
                case Reject(m, _) => m == s && Lease.Enter(p, report, lands, true) == p
                case Done(m) => m == s && Lease.Enter(p, report, lands, true) == p
                case Save(t) =>
                  && t.rigs.Keys == s.rigs.Keys
                  && (forall x :: x in s.rigs && x != r ==> t.rigs[x] == s.rigs[x])
                  && Matches(t.rigs[r].commands, Lease.Enter(p, report, lands, true).commands))
  {
    hide Sound, Completed, TuneLands, Lease.Entered, Matches;
    var queue := s.rigs[r].commands;
    FoundMatches(queue, p.commands, report.command.id);
    var i := Find(queue, report.command.id);
    lands := false;
    if i < |queue| {
      lands := TuneLands(s, r, queue[i], report.result);
      QueueDistinct(s, issued, r);
      CompletedQueue(s, r, i, report.result, order);
      EnteredKeepsId(queue[i], report.result, lands);
      MatchedReplace(queue, p.commands, i, Lease.Entered(queue[i], report.result, lands));
    }
  }

  /** A report is entered, and answered with success, exactly as the protocol says. */
  lemma FinishMoves(cat: Catalog, db: Db, report: Lease.Submission, order: seq<Id>, saved: bool, r: Id, p: Lease.Proto)
    returns (lands: bool)
    requires SoundDb(db) && QueuesSaved(db) && Linked(db, r, p)
    ensures var op := OpFinish(r, report.command.id, report.result, order);
            var next := Step(cat, db, op, saved);
            && QueuesSaved(next) && Linked(next, r, Lease.Enter(p, report, lands, saved))
            && (Answered(EffectOf(cat, db.memory, op), saved) <==> Lease.Acknowledged(p, report, saved))
  {
    hide Sound, FinishCommand, Matches, Lease.Entered;
    if r in db.memory.rigs {
      lands := ReportEntered(db.memory, report, order, r, p, db.issued);
    } else {
      lands := false;
      UnknownRigRefused(db.memory, report, order, r);
    }
  }

  lemma UnknownRigRefused(s: State, report: Lease.Submission, order: seq<Id>, r: Id)
    requires r !in s.rigs
    ensures FinishCommand(s, r, report.command.id, report.result, order) == Reject(s, NotFound)
  {
  }

  lemma EnteredKeepsId(c: Command, result: Result, lands: bool)
    ensures Lease.Entered(c, result, lands).id == c.id
  {
  }
}
